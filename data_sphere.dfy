/**
 * The rotating point cloud (components/data-sphere.tsx): 100 points drawn in a spherical
 * shell with palette colours, 80 lines each joining two different points (the second end
 * is redrawn until it differs from the first), and the per-frame turn of the group.
 *
 * `Math.sin` and `Math.cos` are parameters: only their range [-1, 1] is used.
 */
module DataSphere {
  import opened Wrappers
  import opened Three

  /** The five point colours. */
  const Palette: seq<string> := ["#8b5cf6", "#6366f1", "#3b82f6", "#0ea5e9", "#06b6d4"]

  const PointCount: nat := 100
  const ConnectionCount: nat := 80
  const LineColor: string := "#6366f1"

  /** A point of the cloud. */
  datatype DataPoint = DataPoint(position: Vec3, color: string, size: real)

  /** A line between two point positions. */
  datatype Line = Line(start: Vec3, end: Vec3, color: string)

  /**
   * Point i of the cloud from draws k .. k+4: angles theta in [0, 2*pi] and phi in [0, pi],
   * a radius in [1.5, 2.5], a palette index `floor(random * 5)` and a size in [0.02, 0.08].
   * Its colour is a palette entry; with sin and cos in [-1, 1] every coordinate lies
   * within 2.5 of the centre.
   */
  function SpherePoint(sin: real -> real, cos: real -> real, rand: Random, k: nat): (point: DataPoint)
    requires IsUniformSource(rand)
    ensures point.color in Palette
    ensures 0.02 <= point.size <= 0.08
    ensures BoundedTrig(sin, cos) ==> InCube(point.position, 2.5)
  {
    var theta := RandFloat(0.0, Pi * 2.0, rand(k));
    var phi := RandFloat(0.0, Pi, rand(k + 1));
    var radius := RandFloat(1.5, 2.5, rand(k + 2));
    var colorIndex := RandomIndex(rand(k + 3), |Palette|);
    var position := Vec3(radius * sin(phi) * cos(theta), radius * sin(phi) * sin(theta), radius * cos(phi));
    assert BoundedTrig(sin, cos) ==> InCube(position, 2.5) by {
      if BoundedTrig(sin, cos) {
        DampedProduct(radius, sin(phi), 2.5);
        DampedProduct(radius * sin(phi), cos(theta), 2.5);
        DampedProduct(radius * sin(phi), sin(theta), 2.5);
        DampedProduct(radius, cos(phi), 2.5);
      }
    }
    DataPoint(position, Palette[colorIndex], RandFloat(0.02, 0.08, rand(k + 4)))
  }

  /** The `dataPoints` loop: 100 points, point i built from draws k0 + 5i .. k0 + 5i + 4. */
  method GeneratePoints(sin: real -> real, cos: real -> real, rand: Random, k0: nat)
    returns (points: seq<DataPoint>, k: nat)
    requires IsUniformSource(rand)
    ensures |points| == PointCount && k == k0 + 5 * PointCount
    ensures forall i :: 0 <= i < |points| ==> points[i] == SpherePoint(sin, cos, rand, k0 + 5 * i)
  {
    points, k := [], k0;
    for i := 0 to PointCount
      invariant |points| == i && k == k0 + 5 * i
      invariant forall j :: 0 <= j < i ==> points[j] == SpherePoint(sin, cos, rand, k0 + 5 * j)
    {
      points := points + [SpherePoint(sin, cos, rand, k)];
      k := k + 5;
    }
  }

  /**
   * The first draw j in [from, from + budget] whose index `floor(rand(j) * n)` differs from
   * `a`, or None when every draw of that window repeats `a`.
   */
  function Redraw(n: nat, a: int, rand: Random, from: nat, budget: nat): (r: Option<nat>)
    ensures r.Some? ==> from <= r.value <= from + budget && RandomIndex(rand(r.value), n) != a
    ensures r.Some? ==> forall j :: from <= j < r.value ==> RandomIndex(rand(j), n) == a
    ensures r.None? ==> forall j :: from <= j <= from + budget ==> RandomIndex(rand(j), n) == a
    decreases budget
  {
    if RandomIndex(rand(from), n) != a then Some(from)
    else if budget == 0 then None
    else Redraw(n, a, rand, from + 1, budget - 1)
  }

  /** With at most one point every draw gives index 0, so no redraw ever differs from 0. */
  lemma {:induction false} NoOtherPoint(n: nat, rand: Random, from: nat, budget: nat)
    requires n <= 1 && IsUniformSource(rand)
    ensures Redraw(n, 0, rand, from, budget) == None
    decreases budget
  {
    assert RandomIndex(rand(from), n) == 0;
    if budget > 0 {
      NoOtherPoint(n, rand, from + 1, budget - 1);
    }
  }

  /**
   * `pointB = floor(random * n)` followed by `while (pointB === pointA)` redraws, with at
   * most `maxRedraws` redraws: `found` holds when a differing index was drawn, and then the
   * result is the index of the first differing draw.
   */
  method DrawOther(n: nat, pointA: int, rand: Random, k0: nat, maxRedraws: nat)
    returns (pointB: int, k: nat, found: bool)
    ensures found <==> Redraw(n, pointA, rand, k0, maxRedraws).Some?
    ensures found ==> k == Redraw(n, pointA, rand, k0, maxRedraws).value + 1
    ensures found ==> pointB == RandomIndex(rand(k - 1), n) && pointB != pointA
    ensures !found ==> k == k0 + maxRedraws + 1
  {
    pointB := RandomIndex(rand(k0), n);
    k := k0 + 1;
    var redraws := 0;
    while pointB == pointA && redraws < maxRedraws
      invariant redraws <= maxRedraws && k == k0 + redraws + 1
      invariant pointB == RandomIndex(rand(k - 1), n)
      invariant forall j :: k0 <= j < k - 1 ==> RandomIndex(rand(j), n) == pointA
      invariant Redraw(n, pointA, rand, k0, maxRedraws) == Redraw(n, pointA, rand, k - 1, maxRedraws - redraws)
    {
      pointB := RandomIndex(rand(k), n);
      k := k + 1;
      redraws := redraws + 1;
    }
    found := pointB != pointA;
  }

  /** `line` joins the positions of two different points of `points`. */
  ghost predicate JoinsTwoPoints(line: Line, points: seq<DataPoint>)
  {
    exists a, b :: 0 <= a < |points| && 0 <= b < |points| && a != b
                   && line.start == points[a].position && line.end == points[b].position
  }

  /**
   * One connection made from draw k on: `pointA = floor(rand(k) * n)`, then `pointB` from the
   * first redraw after it whose index differs from `pointA`; the line joining their
   * positions and the draw after `pointB`'s, or None when the retry ran out of redraws.
   */
  function NextLine(points: seq<DataPoint>, rand: Random, k: nat, maxRedraws: nat): (r: Option<(Line, nat)>)
    requires IsUniformSource(rand)
    ensures r.Some? ==> r.value.0.color == LineColor && JoinsTwoPoints(r.value.0, points)
    ensures r.Some? ==> k + 2 <= r.value.1 <= k + maxRedraws + 2
    ensures r.None? <==> Redraw(|points|, RandomIndex(rand(k), |points|), rand, k + 1, maxRedraws).None?
    ensures |points| <= 1 ==> r.None?
  {
    var pointA := RandomIndex(rand(k), |points|);
    match Redraw(|points|, pointA, rand, k + 1, maxRedraws)
    case None => None
    case Some(j) =>
      var pointB := RandomIndex(rand(j), |points|);
      var line := Line(points[pointA].position, points[pointB].position, LineColor);
      assert JoinsTwoPoints(line, points);
      Some((line, j + 1))
  }

  /** What the `connections` loop produces: its lines, the next draw, and whether it made them all. */
  datatype Connections = Connections(lines: seq<Line>, next: nat, finished: bool)

  /**
   * The `remaining` connections made from draw k on, one `NextLine` after another; when a
   * retry runs out of its `maxRedraws` redraws the lines stop there, unfinished.
   */
  function ConnectSpec(points: seq<DataPoint>, rand: Random, k: nat, remaining: nat, maxRedraws: nat)
    : (r: Connections)
    requires IsUniformSource(rand)
    decreases remaining
  {
    if remaining == 0 then Connections([], k, true)
    else
      match NextLine(points, rand, k, maxRedraws)
      case None => Connections([], k + maxRedraws + 2, false)
      case Some((line, next)) =>
        var rest := ConnectSpec(points, rand, next, remaining - 1, maxRedraws);
        Connections([line] + rest.lines, rest.next, rest.finished)
  }

  /**
   * The specified connections: at most `remaining` lines, all of them when finished; every
   * line is "#6366f1" and joins the positions of two different points; with fewer than two
   * points nothing is made and the loop cannot finish.
   */
  lemma {:induction false} ConnectSpecShape(points: seq<DataPoint>, rand: Random, k: nat, remaining: nat, maxRedraws: nat)
    requires IsUniformSource(rand)
    ensures var r := ConnectSpec(points, rand, k, remaining, maxRedraws);
      && |r.lines| <= remaining
      && (r.finished ==> |r.lines| == remaining)
      && (forall i :: 0 <= i < |r.lines| ==> r.lines[i].color == LineColor && JoinsTwoPoints(r.lines[i], points))
      && (|points| <= 1 && remaining > 0 ==> r.lines == [] && !r.finished)
    decreases remaining
  {
    if remaining > 0 {
      match NextLine(points, rand, k, maxRedraws)
      case None =>
      case Some((line, next)) =>
        ConnectSpecShape(points, rand, next, remaining - 1, maxRedraws);
        var rest := ConnectSpec(points, rand, next, remaining - 1, maxRedraws);
        assert ConnectSpec(points, rand, k, remaining, maxRedraws).lines == [line] + rest.lines;
    }
  }

  /** Every retry window of `maxRedraws` redraws holds an index other than any given `pointA`. */
  ghost predicate RedrawsSucceed(n: nat, rand: Random, maxRedraws: nat)
  {
    forall j: nat, a :: 0 <= a < n ==> Redraw(n, a, rand, j, maxRedraws).Some?
  }

  /** With two or more points and retries that always succeed, all the connections are made. */
  lemma {:induction false} ConnectSpecFinishes(points: seq<DataPoint>, rand: Random, k: nat, remaining: nat, maxRedraws: nat)
    requires IsUniformSource(rand) && |points| >= 2 && RedrawsSucceed(|points|, rand, maxRedraws)
    ensures ConnectSpec(points, rand, k, remaining, maxRedraws).finished
    ensures |ConnectSpec(points, rand, k, remaining, maxRedraws).lines| == remaining
    decreases remaining
  {
    if remaining > 0 {
      var pointA := RandomIndex(rand(k), |points|);
      assert Redraw(|points|, pointA, rand, k + 1, maxRedraws).Some?;
      var next := NextLine(points, rand, k, maxRedraws).value.1;
      ConnectSpecFinishes(points, rand, next, remaining - 1, maxRedraws);
    }
  }

  /** The redraw loop's outcome for `pointA = floor(rand(k) * n)` is the specified `NextLine`. */
  lemma DrawnLine(points: seq<DataPoint>, rand: Random, k: nat, maxRedraws: nat,
                  pointA: int, pointB: int, next: nat, found: bool)
    requires IsUniformSource(rand)
    requires pointA == RandomIndex(rand(k), |points|)
    requires found <==> Redraw(|points|, pointA, rand, k + 1, maxRedraws).Some?
    requires found ==> next == Redraw(|points|, pointA, rand, k + 1, maxRedraws).value + 1
    requires found ==> pointB == RandomIndex(rand(next - 1), |points|)
    ensures found <==> NextLine(points, rand, k, maxRedraws).Some?
    ensures found ==> 0 <= pointA < |points| && 0 <= pointB < |points|
    ensures found ==> NextLine(points, rand, k, maxRedraws).value
                      == (Line(points[pointA].position, points[pointB].position, LineColor), next)
  {
  }

  /** `lines` made first, followed by the connections `c`. */
  function After(lines: seq<Line>, c: Connections): (r: Connections)
    ensures |r.lines| == |lines| + |c.lines|
    ensures r.lines[..|lines|] == lines && r.lines[|lines|..] == c.lines
    ensures r.next == c.next && r.finished == c.finished
  {
    Connections(lines + c.lines, c.next, c.finished)
  }

  /** Nothing made first leaves the connections as they are. */
  lemma AfterNothing(c: Connections)
    ensures After([], c) == c
  {
    assert [] + c.lines == c.lines;
  }

  /** A turn that makes `line` moves it from the specified rest to the lines made so far. */
  lemma AfterLine(spec: Connections, lines: seq<Line>, points: seq<DataPoint>, rand: Random, k: nat,
                  remaining: nat, maxRedraws: nat, line: Line, next: nat)
    requires IsUniformSource(rand) && remaining > 0
    requires NextLine(points, rand, k, maxRedraws) == Some((line, next))
    requires spec == After(lines, ConnectSpec(points, rand, k, remaining, maxRedraws))
    ensures spec == After(lines + [line], ConnectSpec(points, rand, next, remaining - 1, maxRedraws))
  {
    var rest := ConnectSpec(points, rand, next, remaining - 1, maxRedraws);
    assert lines + ([line] + rest.lines) == (lines + [line]) + rest.lines;
  }

  /** A turn whose retry runs out ends the specified connections with the lines made so far. */
  lemma AfterStop(spec: Connections, lines: seq<Line>, points: seq<DataPoint>, rand: Random, k: nat,
                  remaining: nat, maxRedraws: nat)
    requires IsUniformSource(rand) && remaining > 0
    requires NextLine(points, rand, k, maxRedraws).None?
    requires spec == After(lines, ConnectSpec(points, rand, k, remaining, maxRedraws))
    ensures spec == Connections(lines, k + maxRedraws + 2, false)
  {
    assert lines + [] == lines;
  }

  /**
   * The `connections` loop for `numConnections` lines: each turn picks `pointA`, then a
   * different `pointB`, and joins their positions with a "#6366f1" line. The source retries
   * without bound; here each retry has `maxRedraws` redraws, and `finished` is false when one
   * ran out, in which case the lines made so far are returned. The result is the specified
   * `ConnectSpec`.
   */
  method ConnectLines(points: seq<DataPoint>, rand: Random, k0: nat, maxRedraws: nat, numConnections: nat)
    returns (lines: seq<Line>, k: nat, finished: bool)
    requires IsUniformSource(rand)
    ensures Connections(lines, k, finished) == ConnectSpec(points, rand, k0, numConnections, maxRedraws)
  {
    ghost var spec := ConnectSpec(points, rand, k0, numConnections, maxRedraws);
    lines, k := [], k0;
    var i := 0;
    finished := true;
    AfterNothing(spec);
    while i < numConnections
      invariant i <= numConnections
      invariant spec == After(lines, ConnectSpec(points, rand, k, numConnections - i, maxRedraws))
    {
      var pointA := RandomIndex(rand(k), |points|);
      var pointB, k', found := DrawOther(|points|, pointA, rand, k + 1, maxRedraws);
      DrawnLine(points, rand, k, maxRedraws, pointA, pointB, k', found);
      if !found {
        AfterStop(spec, lines, points, rand, k, numConnections - i, maxRedraws);
        finished := false;
        k := k';
        return;
      }
      var line := Line(points[pointA].position, points[pointB].position, LineColor);
      AfterLine(spec, lines, points, rand, k, numConnections - i, maxRedraws, line, k');
      lines := lines + [line];
      k := k';
      i := i + 1;
    }
  }

  /**
   * The `connections` of the cloud: 80 lines as specified by `ConnectSpec`, so every line is
   * "#6366f1" and joins the positions of two different points, all 80 are made when
   * `finished`, and with fewer than two points the loop cannot finish.
   */
  method ConnectPoints(points: seq<DataPoint>, rand: Random, k0: nat, maxRedraws: nat)
    returns (lines: seq<Line>, k: nat, finished: bool)
    requires IsUniformSource(rand)
    ensures Connections(lines, k, finished) == ConnectSpec(points, rand, k0, ConnectionCount, maxRedraws)
    ensures |lines| <= ConnectionCount
    ensures finished ==> |lines| == ConnectionCount
    ensures forall i :: 0 <= i < |lines| ==> lines[i].color == LineColor && JoinsTwoPoints(lines[i], points)
    ensures |points| <= 1 ==> !finished
  {
    lines, k, finished := ConnectLines(points, rand, k0, maxRedraws, ConnectionCount);
    ConnectSpecShape(points, rand, k0, ConnectionCount, maxRedraws);
  }

  /** The `useFrame` of the cloud: while the group is mounted, turn it by delta * 0.05 about y. */
  method SphereFrame(group: Object3D?, delta: real)
    modifies group
    ensures group != null ==> group.rotation == old(group.rotation).(y := old(group.rotation.y) + delta * 0.05)
    ensures group != null ==> group.position == old(group.position) && group.scale == old(group.scale)
  {
    if group != null {
      group.rotation := group.rotation.(y := group.rotation.y + delta * 0.05);
    }
  }
}
