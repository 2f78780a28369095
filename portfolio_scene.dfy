/**
 * The project carousel (components/portfolio-scene.tsx): selecting a project turns it into
 * a camera request, projects sit evenly around a circle, the scene turns until something is
 * hovered, each project object eases its scale and height, and ambient particles rise and
 * restart at the floor.
 *
 * `Math.sin` and `Math.cos` are parameters (values, or functions for the placements); the
 * elapsed-time sines of the frame callbacks arrive as already evaluated values.
 */
module PortfolioScene {
  import opened Wrappers
  import opened Three
  import opened Ambient
  import opened Seqs
  import opened PortfolioContext

  /** Where project `index` of `count` sits around the circle, as a fraction of a full turn. */
  function AngleFraction(index: nat, count: nat): (f: real)
    requires index < count
    ensures 0.0 <= f < 1.0
    ensures f * count as real == index as real
  {
    index as real / count as real
  }

  /** Distinct slots get distinct fractions, increasing with the slot index. */
  lemma FractionsIncrease(i: nat, j: nat, count: nat)
    requires i < j < count
    ensures AngleFraction(i, count) < AngleFraction(j, count)
  {
    var fi, fj := AngleFraction(i, count), AngleFraction(j, count);
    assert (fj - fi) * count as real == (j - i) as real;
    if fj <= fi {
      NonNegativeProduct(fi - fj, count as real);
    }
  }

  /** `(index / length) * Math.PI * 2`. */
  function Angle(index: nat, count: nat): real
    requires index < count
  {
    AngleFraction(index, count) * Pi * 2.0
  }

  /** What `handleProjectSelect` asks of the page: the active project and, maybe, a camera move. */
  datatype Selection = Selection(activeProject: string, camera: Option<Vec3>)

  /** The callback `(p) => p.id === projectId`. */
  function HasId(projectId: string): PortfolioItem -> bool
  {
    (project: PortfolioItem) => project.id == projectId
  }

  /** Slot i holds the first project with id `projectId`. */
  predicate FirstWithId(projects: seq<PortfolioItem>, projectId: string, i: int)
  {
    0 <= i < |projects| && projects[i].id == projectId
    && forall j :: 0 <= j < i ==> projects[j].id != projectId
  }

  /**
   * `handleProjectSelect`: the id always becomes the active project; when `findIndex` finds
   * it at i, the camera is sent to (sin a * 8, 3, cos a * 8) for the angle a of slot i.
   */
  function HandleProjectSelect(projects: seq<PortfolioItem>, projectId: string, sin: real -> real, cos: real -> real)
    : (s: Selection)
    ensures s.activeProject == projectId
    ensures s.camera.None? <==> forall j :: 0 <= j < |projects| ==> projects[j].id != projectId
    ensures s.camera.Some? ==> s.camera.value.y == 3.0
    ensures s.camera.Some? ==>
              exists i :: FirstWithId(projects, projectId, i)
                 && s.camera.value.x == sin(Angle(i, |projects|)) * 8.0
                 && s.camera.value.z == cos(Angle(i, |projects|)) * 8.0
    ensures s.camera.Some? && BoundedTrig(sin, cos) ==> InCube(s.camera.value, 8.0)
  {
    var projectIndex := FindIndex(projects, HasId(projectId));
    if projectIndex != -1 then
      var angle := Angle(projectIndex, |projects|);
      var newPosition := Vec3(sin(angle) * 8.0, 3.0, cos(angle) * 8.0);
      assert BoundedTrig(sin, cos) ==> InCube(newPosition, 8.0) by {
        if BoundedTrig(sin, cos) {
          DampedProduct(8.0, sin(angle), 8.0);
          DampedProduct(8.0, cos(angle), 8.0);
          assert sin(angle) * 8.0 == 8.0 * sin(angle);
          assert cos(angle) * 8.0 == 8.0 * cos(angle);
        }
      }
      Selection(projectId, Some(newPosition))
    else
      Selection(projectId, None)
  }

  /** The transform a `ProjectObject` group is given. */
  datatype Placement = Placement(position: Vec3, rotation: Vec3)

  const CarouselRadius: real := 10.0

  /**
   * Slot `index` of `count`: on the ground plane at (sin a * 10, 0, cos a * 10) for its
   * angle a, each coordinate within 10, and turned about y by pi minus its angle (which faces
   * the centre only for a = 0 and a = pi).
   */
  function CarouselPlacement(index: nat, count: nat, sin: real -> real, cos: real -> real): (p: Placement)
    requires index < count
    ensures p.position.y == 0.0 && p.rotation.x == 0.0 && p.rotation.z == 0.0
    ensures p.rotation.y == Pi - Angle(index, count)
    ensures BoundedTrig(sin, cos) ==> InCube(p.position, CarouselRadius)
  {
    var angle := Angle(index, count);
    var position := Vec3(sin(angle) * CarouselRadius, 0.0, cos(angle) * CarouselRadius);
    assert BoundedTrig(sin, cos) ==> InCube(position, CarouselRadius) by {
      if BoundedTrig(sin, cos) {
        DampedProduct(CarouselRadius, sin(angle), CarouselRadius);
        DampedProduct(CarouselRadius, cos(angle), CarouselRadius);
        assert sin(angle) * CarouselRadius == CarouselRadius * sin(angle);
        assert cos(angle) * CarouselRadius == CarouselRadius * cos(angle);
      }
    }
    Placement(position, Vec3(0.0, -angle + Pi, 0.0))
  }

  /**
   * Selecting the project in slot i (its id not used by an earlier slot) sends the camera
   * to (8 sin a, 3, 8 cos a), where a is that slot's angle.
   */
  lemma SelectionCamera(projects: seq<PortfolioItem>, i: nat, sin: real -> real, cos: real -> real)
    requires i < |projects|
    requires forall j :: 0 <= j < i ==> projects[j].id != projects[i].id
    ensures HandleProjectSelect(projects, projects[i].id, sin, cos).camera
            == Some(Vec3(sin(Angle(i, |projects|)) * 8.0, 3.0, cos(Angle(i, |projects|)) * 8.0))
  {
    var id := projects[i].id;
    var selection := HandleProjectSelect(projects, id, sin, cos);
    assert projects[i].id == id;
    var w :| FirstWithId(projects, id, w)
             && selection.camera.value.x == sin(Angle(w, |projects|)) * 8.0
             && selection.camera.value.z == cos(Angle(w, |projects|)) * 8.0;
    assert w == i;
  }

  /**
   * That camera position has the x and z of the slot's placement scaled by 8/10, at
   * height 3.
   */
  lemma SelectionFacesSlot(projects: seq<PortfolioItem>, i: nat, sin: real -> real, cos: real -> real)
    requires i < |projects|
    requires forall j :: 0 <= j < i ==> projects[j].id != projects[i].id
    ensures HandleProjectSelect(projects, projects[i].id, sin, cos).camera
            == Some(Vec3(CarouselPlacement(i, |projects|, sin, cos).position.x * 0.8, 3.0,
                         CarouselPlacement(i, |projects|, sin, cos).position.z * 0.8))
  {
    SelectionCamera(projects, i, sin, cos);
    var angle := Angle(i, |projects|);
    assert CarouselPlacement(i, |projects|, sin, cos).position == Vec3(sin(angle) * 10.0, 0.0, cos(angle) * 10.0);
  }

  /**
   * Selecting "project3", third of the eight catalogue entries, turns the camera a quarter
   * turn: given sin(pi/2) = 1 and cos(pi/2) = 0 it is sent to (8, 3, 0).
   */
  lemma SelectThirdProject(sin: real -> real, cos: real -> real)
    requires sin(Pi / 2.0) == 1.0 && cos(Pi / 2.0) == 0.0
    ensures HandleProjectSelect(PortfolioData(), "project3", sin, cos).camera == Some(Vec3(8.0, 3.0, 0.0))
  {
    var projects := PortfolioData();
    DistinctIds();
    assert projects[2] == Entry(3);
    SelectionCamera(projects, 2, sin, cos);
    assert Angle(2, |projects|) == Pi / 2.0;
  }

  /** JavaScript truthiness of `hoveredProject`: null and the empty string are false. */
  predicate IsHovering(hoveredProject: Option<string>)
  {
    hoveredProject.Some? && hoveredProject.value != ""
  }

  /** The floor height for the sine of `elapsedTime * 0.2`: it bobs within 0.05 of -5. */
  function FloorHeight(clockSin: real): (y: real)
    ensures -1.0 <= clockSin <= 1.0 ==> -5.05 <= y <= -4.95
    ensures y + 5.0 == clockSin * 0.05
  {
    clockSin * 0.05 - 5.0
  }

  /** The state of `PortfolioScene` that its frame callback reads. */
  class Scene {
    var hoveredProject: Option<string>

    constructor ()
      ensures hoveredProject == None
    {
      hoveredProject := None;
    }

    /** The `onHover` handler a project object is given: its id while hovered, null after. */
    method OnHover(projectId: string, hovered: bool)
      modifies this
      ensures hoveredProject == if hovered then Some(projectId) else None
    {
      hoveredProject := if hovered then Some(projectId) else None;
    }

    /**
     * The scene `useFrame`: the group turns by delta * 0.05 about y only while nothing is
     * hovered, and the floor is set to its bobbing height.
     */
    method Frame(group: Object3D?, floor: Object3D?, delta: real, clockSin: real)
      requires group == null || group != floor
      modifies group, floor
      ensures group != null && !IsHovering(hoveredProject) ==>
                group.rotation == old(group.rotation).(y := old(group.rotation.y) + delta * 0.05)
      ensures group != null && IsHovering(hoveredProject) ==> group.rotation == old(group.rotation)
      ensures group != null ==> group.position == old(group.position) && group.scale == old(group.scale)
      ensures floor != null ==> floor.position == old(floor.position).(y := FloorHeight(clockSin))
      ensures floor != null ==> floor.rotation == old(floor.rotation) && floor.scale == old(floor.scale)
    {
      if group != null && !IsHovering(hoveredProject) {
        group.rotation := group.rotation.(y := group.rotation.y + delta * 0.05);
      }
      if floor != null {
        floor.position := floor.position.(y := clockSin * 0.05 - 5.0);
      }
    }
  }

  /** The scale every axis eases toward: 1.1 while hovered, 1 otherwise. */
  function ScaleTarget(hovered: bool): real
  {
    if hovered then 1.1 else 1.0
  }

  /** One frame of the hover scale: every axis closes 10% of its gap to the target. */
  function HoverScale(s: Vec3, hovered: bool): (r: Vec3)
    ensures r.x - ScaleTarget(hovered) == 0.9 * (s.x - ScaleTarget(hovered))
    ensures r.y - ScaleTarget(hovered) == 0.9 * (s.y - ScaleTarget(hovered))
    ensures r.z - ScaleTarget(hovered) == 0.9 * (s.z - ScaleTarget(hovered))
  {
    var target := ScaleTarget(hovered);
    Vec3(Lerp(s.x, target, 0.1), Lerp(s.y, target, 0.1), Lerp(s.z, target, 0.1))
  }

  /** The scale after `frames` frames with the hover state held. */
  function ScaleAfter(s: Vec3, hovered: bool, frames: nat): Vec3
    decreases frames
  {
    if frames == 0 then s else ScaleAfter(HoverScale(s, hovered), hovered, frames - 1)
  }

  /**
   * Holding the hover state, each axis follows the 10% easing toward the target: after n
   * frames its gap is 0.9^n of the first gap, and it never passes the target.
   */
  lemma {:induction false} ScaleSettles(s: Vec3, hovered: bool, frames: nat)
    ensures ScaleAfter(s, hovered, frames).x == Eased(s.x, ScaleTarget(hovered), 0.1, frames)
    ensures ScaleAfter(s, hovered, frames).y == Eased(s.y, ScaleTarget(hovered), 0.1, frames)
    ensures ScaleAfter(s, hovered, frames).z == Eased(s.z, ScaleTarget(hovered), 0.1, frames)
    ensures ScaleAfter(s, hovered, frames).x - ScaleTarget(hovered) == Remaining(0.1, frames) * (s.x - ScaleTarget(hovered))
    decreases frames
  {
    if frames > 0 {
      ScaleSettles(HoverScale(s, hovered), hovered, frames - 1);
    }
    EasedGap(s.x, ScaleTarget(hovered), 0.1, frames);
  }

  /** The mesh height: 0.5 above rest while hovered, otherwise bobbing within 0.2 of rest. */
  function HoverHeight(restY: real, hovered: bool, clockSin: real): (y: real)
    ensures hovered ==> y == restY + 0.5
    ensures !hovered ==> y - restY == clockSin * 0.2
    ensures !hovered && -1.0 <= clockSin <= 1.0 ==> restY - 0.2 <= y <= restY + 0.2
  {
    if !hovered then restY + clockSin * 0.2 else restY + 0.5
  }

  /** A `ProjectObject`: the project it shows, the position it was placed at and its hover flag. */
  class ProjectObject {
    const projectId: string
    const position: Vec3
    var hovered: bool

    constructor (projectId: string, position: Vec3)
      ensures this.projectId == projectId && this.position == position && !hovered
    {
      this.projectId := projectId;
      this.position := position;
      hovered := false;
    }

    /** `handlePointerOver`: hovered here and reported to the scene. */
    method PointerOver(scene: Scene)
      modifies this, scene
      ensures hovered && scene.hoveredProject == Some(projectId)
    {
      hovered := true;
      scene.OnHover(projectId, true);
    }

    /** `handlePointerOut`: no longer hovered, and the scene forgets the hover. */
    method PointerOut(scene: Scene)
      modifies this, scene
      ensures !hovered && scene.hoveredProject == None
    {
      hovered := false;
      scene.OnHover(projectId, false);
    }

    /**
     * The object's `useFrame`: ease the mesh scale toward the hover target, then set its
     * height from the placed position's height (`position[1]`).
     */
    method Frame(mesh: Object3D?, clockSin: real)
      modifies mesh
      ensures mesh != null ==> mesh.scale == HoverScale(old(mesh.scale), hovered)
      ensures mesh != null ==> mesh.position == old(mesh.position).(y := HoverHeight(position.y, hovered, clockSin))
      ensures mesh != null ==> mesh.rotation == old(mesh.rotation)
    {
      if mesh != null {
        var target := if hovered then 1.1 else 1.0;
        mesh.scale := mesh.scale.(x := Lerp(mesh.scale.x, target, 0.1));
        mesh.scale := mesh.scale.(y := Lerp(mesh.scale.y, target, 0.1));
        mesh.scale := mesh.scale.(z := Lerp(mesh.scale.z, target, 0.1));
        if !hovered {
          mesh.position := mesh.position.(y := position.y + clockSin * 0.2);
        } else {
          mesh.position := mesh.position.(y := position.y + 0.5);
        }
      }
    }
  }

  /** The `count` the scene passes to `Particles`. */
  const SceneParticleCount: nat := 200

  /** An ambient particle: its start position and the height it gains every frame. */
  datatype AmbientParticle = AmbientParticle(position: Vec3, speed: real)

  /** `(Math.random() - 0.5) * 30` for the draw u: a value in [-15, 15). */
  function Centred(u: real): (r: real)
    ensures 0.0 <= u < 1.0 ==> Floor <= r < Ceiling
  {
    (u - 0.5) * 30.0
  }

  /** x, z in [-15, 15) and y in [-15, 15]: where ambient particles live. */
  predicate InParticleSpace(p: Vec3)
  {
    Floor <= p.x < Ceiling && Floor <= p.y <= Ceiling && Floor <= p.z < Ceiling
  }

  /** One particle from draws k .. k+3: x, y and z, then the speed. */
  function MakeAmbientParticle(rand: Random, k: nat): (p: AmbientParticle)
    ensures 0.0 <= rand(k) < 1.0 && 0.0 <= rand(k + 1) < 1.0 && 0.0 <= rand(k + 2) < 1.0 ==>
              InParticleSpace(p.position) && p.position.y < Ceiling
    ensures 0.0 <= rand(k + 3) < 1.0 ==> 0.02 <= p.speed < 0.07
  {
    AmbientParticle(Vec3(Centred(rand(k)), Centred(rand(k + 1)), Centred(rand(k + 2))), rand(k + 3) * 0.05 + 0.02)
  }

  /**
   * `Particles({ count })`: exactly `count` particles, particle i from draws k + 4i ..
   * k + 4i + 3; with real draws every coordinate is in [-15, 15) and every speed in
   * [0.02, 0.07).
   */
  function Particles(count: nat, rand: Random, k: nat): (particles: seq<AmbientParticle>)
    ensures |particles| == count
    ensures IsUniformSource(rand) ==> forall i :: 0 <= i < |particles| ==>
              InParticleSpace(particles[i].position) && particles[i].position.y < Ceiling
              && 0.02 <= particles[i].speed < 0.07
  {
    seq(count, i requires 0 <= i < count => MakeAmbientParticle(rand, k + 4 * i))
  }

  /** The scene's `<Particles count={200} />`: 200 particles, each in the particle space. */
  function SceneParticles(rand: Random, k: nat): (particles: seq<AmbientParticle>)
    ensures |particles| == SceneParticleCount
    ensures IsUniformSource(rand) ==> forall i :: 0 <= i < |particles| ==>
              InParticleSpace(particles[i].position) && 0.02 <= particles[i].speed < 0.07
  {
    Particles(SceneParticleCount, rand, k)
  }

  /**
   * One frame of an ambient particle: rise by its speed, and once above 15 restart at -15
   * with fresh x and z from the draws u1, u2 (drawn only then). A particle in its space
   * with a non-negative speed stays in it.
   */
  function ParticleStep(p: Vec3, speed: real, u1: real, u2: real): (q: Vec3)
    ensures q.y == Rise(p.y, speed)
    ensures p.y + speed <= Ceiling ==> q.x == p.x && q.z == p.z
    ensures Ceiling < p.y + speed && 0.0 <= u1 < 1.0 && 0.0 <= u2 < 1.0 ==>
              Floor <= q.x < Ceiling && Floor <= q.z < Ceiling
    ensures InParticleSpace(p) && 0.0 <= speed && 0.0 <= u1 < 1.0 && 0.0 <= u2 < 1.0 ==> InParticleSpace(q)
  {
    var raised := p.y + speed;
    if raised > Ceiling then Vec3(Centred(u1), Floor, Centred(u2)) else p.(y := raised)
  }

  /** The `Particle` `useFrame`, updating the mounted mesh's position in place. */
  method ParticleFrame(mesh: Object3D?, speed: real, u1: real, u2: real)
    modifies mesh
    ensures mesh != null ==> mesh.position == ParticleStep(old(mesh.position), speed, u1, u2)
    ensures mesh != null ==> mesh.rotation == old(mesh.rotation) && mesh.scale == old(mesh.scale)
  {
    if mesh != null {
      mesh.position := mesh.position.(y := mesh.position.y + speed);
      if mesh.position.y > 15.0 {
        mesh.position := mesh.position.(y := -15.0);
        mesh.position := mesh.position.(x := (u1 - 0.5) * 30.0);
        mesh.position := mesh.position.(z := (u2 - 0.5) * 30.0);
      }
    }
  }
}
