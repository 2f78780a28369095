/**
 * The small part of three.js and of `Math` that the scene code relies on: a transform
 * triple, a scene-graph object whose transform is updated in place, the random source
 * and the `MathUtils` helpers built on it.
 *
 * `Math.random` is an injected source: the j-th draw of a run is `rand(j)`.  The bodies of
 * `RandFloat`, `RandFloatSpread` and `Lerp` are the formulas three.js documents for
 * `MathUtils.randFloat`, `MathUtils.randFloatSpread` and `MathUtils.lerp`; three.js itself
 * is not part of this model.
 */
module Three {

  /** A position, rotation (Euler angles) or scale triple. */
  datatype Vec3 = Vec3(x: real, y: real, z: real)

  /** Every coordinate of `p` lies in [-half, half]. */
  predicate InCube(p: Vec3, half: real)
  {
    -half <= p.x <= half && -half <= p.y <= half && -half <= p.z <= half
  }

  /** A mesh or group of the scene graph; frame callbacks update its fields in place. */
  class Object3D {
    var position: Vec3
    var rotation: Vec3
    var scale: Vec3

    constructor (position: Vec3, rotation: Vec3)
      ensures this.position == position && this.rotation == rotation
      ensures scale == Vec3(1.0, 1.0, 1.0)
    {
      this.position := position;
      this.rotation := rotation;
      scale := Vec3(1.0, 1.0, 1.0);
    }
  }

  /** `Math.random` as a stream of draws: the j-th call returns rand(j). */
  type Random = nat -> real

  /** Every draw of `Math.random` lies in [0, 1). */
  ghost predicate IsUniformSource(rand: Random)
  {
    forall j: nat :: 0.0 <= rand(j) < 1.0
  }

  /** `Math.PI`, as the rational value of the double it denotes to 16 digits. */
  const Pi: real := 3.141592653589793

  /** `MathUtils.randFloat(low, high)` for the draw `u`: a value in [low, high]. */
  function RandFloat(low: real, high: real, u: real): (r: real)
    ensures low <= high && 0.0 <= u < 1.0 ==> low <= r <= high
    ensures low <= high && 0.0 <= u < 1.0 && low < high ==> r < high
  {
    var width := high - low;
    var r := low + u * width;
    assert low <= high && 0.0 <= u < 1.0 ==> low <= r <= high && (low < high ==> r < high) by {
      if low <= high && 0.0 <= u < 1.0 {
        ScaledBelow(u, width);
      }
    }
    r
  }

  /** `MathUtils.randFloatSpread(range)` for the draw `u`: a value in [-range/2, range/2]. */
  function RandFloatSpread(range: real, u: real): (r: real)
    ensures 0.0 <= range && 0.0 <= u < 1.0 ==> -range / 2.0 <= r <= range / 2.0
  {
    var r := range * (0.5 - u);
    assert 0.0 <= range && 0.0 <= u < 1.0 ==> -range / 2.0 <= r <= range / 2.0 by {
      if 0.0 <= range && 0.0 <= u < 1.0 {
        ScaledBelow(u, range);
        assert r == range / 2.0 - u * range;
      }
    }
    r
  }

  /** `Math.floor(u * n)`: an index into a list of `n` entries when u is a draw. */
  function RandomIndex(u: real, n: nat): (i: int)
    ensures 0.0 <= u < 1.0 && n > 0 ==> 0 <= i < n
    ensures 0.0 <= u < 1.0 && n <= 1 ==> i == 0
  {
    var x := Scaled(u, n);
    FloorInRange(x, n as real, n);
    x.Floor
  }

  /** `u * n`: for a draw u, a value in [0, n], strictly below n when n > 0. */
  function Scaled(u: real, n: nat): (x: real)
    ensures 0.0 <= u < 1.0 ==> 0.0 <= x <= n as real && (n > 0 ==> x < n as real)
  {
    var size := n as real;
    assert 0.0 <= u < 1.0 ==> 0.0 <= u * size <= size && (0.0 < size ==> u * size < size) by {
      if 0.0 <= u < 1.0 {
        ScaledBelow(u, size);
      }
    }
    u * size
  }

  /** A value in [0, n], below n unless n is 0, has a floor that is an index below n. */
  lemma FloorInRange(x: real, size: real, n: nat)
    requires size == n as real
    ensures 0.0 <= x <= size && (0.0 < size ==> x < size) ==>
              0 <= x.Floor && (n > 0 ==> x.Floor < n) && (n <= 1 ==> x.Floor == 0)
  {
  }

  /** `MathUtils.lerp(x, y, t)`: the point a fraction t of the way from x to y. */
  function Lerp(x: real, y: real, t: real): (r: real)
    ensures 0.0 <= t <= 1.0 && x <= y ==> x <= r <= y
    ensures 0.0 <= t <= 1.0 && y <= x ==> y <= r <= x
  {
    var gap := y - x;
    var r := x + gap * t;
    assert 0.0 <= t <= 1.0 ==> (x <= y ==> x <= r <= y) && (y <= x ==> y <= r <= x) by {
      if 0.0 <= t <= 1.0 {
        if x <= y {
          ScaledBelow(t, gap);
        } else {
          ScaledBelow(t, -gap);
          assert gap * t == -(t * -gap);
        }
      }
    }
    r
  }

  /** A fraction u in [0, 1] of an amount a >= 0 lies in [0, a], and strictly below a when u < 1 and a > 0. */
  lemma ScaledBelow(u: real, a: real)
    requires 0.0 <= u <= 1.0 && 0.0 <= a
    ensures 0.0 <= u * a <= a
    ensures u < 1.0 && 0.0 < a ==> u * a < a
  {
    NonNegativeProduct(u, a);
    NonNegativeProduct(1.0 - u, a);
    assert a - u * a == (1.0 - u) * a;
    if u < 1.0 && 0.0 < a {
      PositiveProduct(1.0 - u, a);
    }
  }

  /** The value after `frames` frames that each ease `x` toward `target` by the fraction t. */
  function Eased(x: real, target: real, t: real, frames: nat): real
    decreases frames
  {
    if frames == 0 then x else Eased(Lerp(x, target, t), target, t, frames - 1)
  }

  /** (1 - t) to the power n: the share of the distance to the target still left after n frames. */
  function Remaining(t: real, frames: nat): real
  {
    if frames == 0 then 1.0 else (1.0 - t) * Remaining(t, frames - 1)
  }

  /**
   * Easing shrinks the distance to the target geometrically: after n frames the gap is
   * (1 - t)^n of the initial gap, and for 0 <= t <= 1 the value never overshoots the target.
   */
  lemma {:induction false} EasedGap(x: real, target: real, t: real, frames: nat)
    ensures Eased(x, target, t, frames) - target == Remaining(t, frames) * (x - target)
    ensures 0.0 <= t <= 1.0 && x <= target ==> x <= Eased(x, target, t, frames) <= target
    ensures 0.0 <= t <= 1.0 && target <= x ==> target <= Eased(x, target, t, frames) <= x
    decreases frames
  {
    if frames > 0 {
      var x' := Lerp(x, target, t);
      EasedGap(x', target, t, frames - 1);
      calc {
        Eased(x, target, t, frames) - target;
        Remaining(t, frames - 1) * (x' - target);
        { assert x' - target == (1.0 - t) * (x - target); }
        Remaining(t, frames - 1) * ((1.0 - t) * (x - target));
        Remaining(t, frames) * (x - target);
      }
    }
  }

  /**
   * For a rate 0 < t < 1 the share of the gap still left is positive and shrinks strictly
   * with every frame, so easing approaches the target without ever reaching it.
   */
  lemma {:induction false} RemainingShrinks(t: real, frames: nat)
    requires 0.0 < t < 1.0
    ensures 0.0 < Remaining(t, frames + 1) < Remaining(t, frames) <= 1.0
    decreases frames
  {
    if frames > 0 {
      RemainingShrinks(t, frames - 1);
    }
    var r := Remaining(t, frames);
    assert 0.0 < r <= 1.0;
    var keep := 1.0 - t;
    ShrinkStep(keep, r);
    assert Remaining(t, frames + 1) == keep * r;
  }

  /** Keeping a fraction strictly between 0 and 1 of a positive amount shrinks it, staying positive. */
  lemma ShrinkStep(keep: real, r: real)
    requires 0.0 < keep < 1.0 && 0.0 < r
    ensures 0.0 < keep * r < r
  {
    ScaledBelow(keep, r);
    PositiveProduct(keep, r);
  }

  /** The product of two positive reals is positive. */
  lemma PositiveProduct(a: real, b: real)
    requires 0.0 < a && 0.0 < b
    ensures 0.0 < a * b
  {
  }

  /** `sin` and `cos` stay in [-1, 1]. */
  ghost predicate BoundedTrig(sin: real -> real, cos: real -> real)
  {
    forall a :: -1.0 <= sin(a) <= 1.0 && -1.0 <= cos(a) <= 1.0
  }

  /** A value bounded by m, times a factor in [-1, 1], stays bounded by m. */
  lemma DampedProduct(u: real, c: real, m: real)
    requires -m <= u <= m && -1.0 <= c <= 1.0
    ensures -m <= u * c <= m
  {
    // 2(m + u c) and 2(m - u c) are sums of products of non-negative factors
    NonNegativeProduct(m + u, 1.0 + c);
    NonNegativeProduct(m - u, 1.0 - c);
    NonNegativeProduct(m - u, 1.0 + c);
    NonNegativeProduct(m + u, 1.0 - c);
    assert 2.0 * (m + u * c) == (m + u) * (1.0 + c) + (m - u) * (1.0 - c);
    assert 2.0 * (m - u * c) == (m - u) * (1.0 + c) + (m + u) * (1.0 - c);
  }

  /** The product of two non-negative reals is non-negative. */
  lemma NonNegativeProduct(a: real, b: real)
    requires 0.0 <= a && 0.0 <= b
    ensures 0.0 <= a * b
  {
  }
}
