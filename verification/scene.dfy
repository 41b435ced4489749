/**
  The mutable scene state of game.ts: the physics world's body list, the
  global goal list `holePositions`, and the balls with their attraction
  update.
 */
module Scene {
  import opened Wrappers
  import opened Geometry
  import opened Trimesh
  import opened Attraction

  /** `GRAVITY`: the world's initial gravity is (0, -9.8, 0). */
  const Gravity: real := -9.8

  /** The contact material `ballMaterial` every ball body uses: fully
      elastic, frictionless. */
  const BallRestitution: real := 1.0
  const BallFriction: real := 0.0

  /** `BALL_RADIUS`. */
  const BallRadius: real := 0.3

  /** Height at which every ball is spawned. */
  const SpawnHeight: real := 15.0

  /** A body added to the world: a level trimesh or a ball's sphere. */
  datatype Body =
    | StaticMesh(body: StaticBody)
    | BallSphere(owner: Ball)

  /** The physics world: only what this model tracks of it. */
  class World {
    var gravity: Vec3
    var bodies: seq<Body>

    constructor ()
      ensures gravity == Vec3(0.0, Gravity, 0.0) && bodies == []
    {
      gravity := Vec3(0.0, Gravity, 0.0);
      bodies := [];
    }

    /** `world.addBody`. */
    method AddBody(b: Body)
      modifies this`bodies
      ensures bodies == old(bodies) + [b]
    {
      bodies := bodies + [b];
    }
  }

  /** The global `holePositions`: appended to while levels load, never
      otherwise changed. */
  class GoalRegistry {
    var positions: seq<Vec3>

    constructor ()
      ensures positions == []
    {
      positions := [];
    }

    method Append(p: Vec3)
      modifies this
      ensures positions == old(positions) + [p]
    {
      positions := positions + [p];
    }
  }

  // -----------------------------------------------------------------------
  // Loading level geometry

  /** `sub` occurs in `url` starting at position `i`. */
  predicate OccursAt(url: string, sub: string, i: int) {
    0 <= i && i + |sub| <= |url| && url[i..i + |sub|] == sub
  }

  /** `url.includes(sub)`. */
  function Includes(url: string, sub: string): (b: bool)
    ensures b ==> |sub| <= |url|
    ensures |sub| <= |url| && url[..|sub|] == sub ==> b
    ensures |sub| <= |url| && url[|url| - |sub|..] == sub ==> b
  {
    assert |sub| <= |url| ==> OccursAt(url, sub, 0) == (url[..|sub|] == sub);
    assert |sub| <= |url| ==> OccursAt(url, sub, |url| - |sub|) == (url[|url| - |sub|..] == sub);
    exists i :: 0 <= i <= |url| - |sub| && OccursAt(url, sub, i)
  }

  /** Marker of the asset whose meshes are goals. */
  const HolesTag: string := "holes"

  /** The goal one node contributes: its position when it is a mesh of the
      holes asset. */
  function NodeGoals(holes: bool, node: SceneNode): seq<Vec3> {
    if node.Mesh? && holes then [node.position] else []
  }

  /** The static body one node contributes: one for a mesh, none for a group. */
  function NodeBodies(node: SceneNode, scale: Vec3): seq<Body> {
    match node
    case Mesh(p, q, g) => [StaticMesh(StaticBodyOf(p, q, g, scale))]
    case Group => []
  }

  /** The goals a load appends for the first `n` nodes: the position of each
      mesh node, in traversal order, when `holes` (the URL names the holes
      asset); nothing otherwise. */
  function GoalsFrom(holes: bool, nodes: seq<SceneNode>, n: nat): seq<Vec3>
    requires n <= |nodes|
  {
    if n == 0 then [] else GoalsFrom(holes, nodes, n - 1) + NodeGoals(holes, nodes[n - 1])
  }

  /** The static bodies a load adds for the first `n` nodes: one per mesh
      node, in traversal order. */
  function BodiesFrom(nodes: seq<SceneNode>, scale: Vec3, n: nat): seq<Body>
    requires n <= |nodes|
  {
    if n == 0 then [] else BodiesFrom(nodes, scale, n - 1) + NodeBodies(nodes[n - 1], scale)
  }

  /** The number of mesh nodes among the first `n`. */
  function MeshCount(nodes: seq<SceneNode>, n: nat): nat
    requires n <= |nodes|
  {
    if n == 0 then 0 else MeshCount(nodes, n - 1) + (if nodes[n - 1].Mesh? then 1 else 0)
  }

  /** The traverse callback on one node: a mesh of the holes asset registers
      its position as a goal, and every mesh becomes a static body. */
  method LoadNode(world: World, goals: GoalRegistry, holes: bool, scale: Vec3, node: SceneNode)
    modifies world`bodies, goals
    ensures goals.positions == old(goals.positions) + NodeGoals(holes, node)
    ensures world.bodies == old(world.bodies) + NodeBodies(node, scale)
  {
    match node {
      case Group =>
      case Mesh(p, q, g) =>
        if holes {
          goals.Append(p);
        }
        var body := BuildStaticBody(p, q, g, scale);
        world.AddBody(StaticMesh(body));
    }
  }

  /** Loading node i after the first i nodes gives what the first i + 1 load. */
  lemma LoadStep(goals0: seq<Vec3>, bodies0: seq<Body>, holes: bool, scale: Vec3, nodes: seq<SceneNode>, i: nat)
    requires i < |nodes|
    ensures goals0 + GoalsFrom(holes, nodes, i) + NodeGoals(holes, nodes[i])
      == goals0 + GoalsFrom(holes, nodes, i + 1)
    ensures bodies0 + BodiesFrom(nodes, scale, i) + NodeBodies(nodes[i], scale)
      == bodies0 + BodiesFrom(nodes, scale, i + 1)
  {
  }

  /** The traverse callback run over the nodes in traversal order. */
  method LoadNodes(world: World, goals: GoalRegistry, holes: bool, scale: Vec3, nodes: seq<SceneNode>)
    modifies world`bodies, goals
    ensures goals.positions == old(goals.positions) + GoalsFrom(holes, nodes, |nodes|)
    ensures world.bodies == old(world.bodies) + BodiesFrom(nodes, scale, |nodes|)
  {
    ghost var goals0, bodies0 := goals.positions, world.bodies;
    var i := 0;
    while i < |nodes|
      invariant i <= |nodes|
      invariant goals.positions == goals0 + GoalsFrom(holes, nodes, i)
      invariant world.bodies == bodies0 + BodiesFrom(nodes, scale, i)
    {
      LoadStep(goals0, bodies0, holes, scale, nodes, i);
      LoadNode(world, goals, holes, scale, nodes[i]);
      i := i + 1;
    }
  }

  /** `loadGLTFModelAndCreateTrimesh` once the model has loaded: every node
      is visited, and goals are registered only for the holes asset. */
  method LoadModel(world: World, goals: GoalRegistry, url: string, scale: Vec3, nodes: seq<SceneNode>)
    modifies world`bodies, goals
    ensures goals.positions == old(goals.positions) + GoalsFrom(Includes(url, HolesTag), nodes, |nodes|)
    ensures world.bodies == old(world.bodies) + BodiesFrom(nodes, scale, |nodes|)
  {
    LoadNodes(world, goals, Includes(url, HolesTag), scale, nodes);
  }

  /** A load adds exactly one static body per mesh node. */
  lemma {:induction false} BodiesPerMesh(nodes: seq<SceneNode>, scale: Vec3, n: nat)
    requires n <= |nodes|
    ensures |BodiesFrom(nodes, scale, n)| == MeshCount(nodes, n)
    ensures forall k :: 0 <= k < MeshCount(nodes, n) ==> BodiesFrom(nodes, scale, n)[k].StaticMesh?
  {
    if n > 0 {
      BodiesPerMesh(nodes, scale, n - 1);
    }
  }

  /** Goal counting: a load of the holes asset appends exactly one goal per
      mesh node, the k-th goal being the position of the k-th static body;
      any other asset appends none. */
  lemma {:induction false} GoalsMatchBodies(holes: bool, nodes: seq<SceneNode>, scale: Vec3, n: nat)
    requires n <= |nodes|
    ensures !holes ==> GoalsFrom(holes, nodes, n) == []
    ensures holes ==>
      && |GoalsFrom(holes, nodes, n)| == |BodiesFrom(nodes, scale, n)|
      && forall k :: 0 <= k < |GoalsFrom(holes, nodes, n)| ==>
           BodiesFrom(nodes, scale, n)[k].StaticMesh?
           && GoalsFrom(holes, nodes, n)[k] == BodiesFrom(nodes, scale, n)[k].body.position
  {
    if n > 0 {
      GoalsMatchBodies(holes, nodes, scale, n - 1);
    }
  }

  // -----------------------------------------------------------------------
  // Balls

  /** `Math.min(clock.getDelta(), 0.05)`: the elapsed time handed to the
      physics step is capped at 0.05 seconds. */
  function ClampDelta(elapsed: real): (d: real)
    ensures d <= 0.05 && d <= elapsed
    ensures d == elapsed || d == 0.05
  {
    if elapsed < 0.05 then elapsed else 0.05
  }

  /** A force handed to `applyForce`: `coefficient` times the unit vector
      along `direction` (normalisation itself is left to the physics engine). */
  datatype AppliedForce = AlongUnit(coefficient: real, direction: Vec3)

  class Ball {
    const name: string
    const priority: int
    const radius: real
    const mass: real
    const linearDamping: real
    const angularDamping: real
    const restitution: real
    const friction: real
    /** The body's position (the mesh is copied from it at each update). */
    var position: Vec3
    var isAttracted: bool
    /** The forces applied to the body, oldest first. */
    var forces: seq<AppliedForce>

    /** A sphere body of mass 1 with no damping and the ball material, added
        to the world. */
    constructor (world: World, r: real, spawn: Vec3, name: string, priority: int)
      modifies world`bodies
      ensures this.name == name && this.priority == priority
      ensures radius == r && mass == 1.0 && linearDamping == 0.0 && angularDamping == 0.0
      ensures restitution == BallRestitution && friction == BallFriction
      ensures position == spawn && !isAttracted && forces == []
      ensures world.bodies == old(world.bodies) + [BallSphere(this)]
    {
      this.name := name;
      this.priority := priority;
      radius, mass, linearDamping, angularDamping := r, 1.0, 0.0, 0.0;
      restitution, friction := BallRestitution, BallFriction;
      position := spawn;
      isAttracted := false;
      forces := [];
      new;
      world.AddBody(BallSphere(this));
    }

    /** `Ball.update`: with goals present, re-decide `isAttracted` from the
        nearest goal and, when attracted, apply `(priority - 1) * 0.1` along
        the direction to that goal. With no goals nothing changes. */
    method Update(goals: seq<Vec3>)
      modifies this`isAttracted, this`forces
      ensures UpdatedBy(goals, position, priority, old(isAttracted), old(forces), isAttracted, forces)
    {
      if |goals| > 0 {
        var nearest, minDist2 := NearestGoal(position, goals);
        var direction := Sub(goals[nearest], position);
        if minDist2 <= AttractionDistance * AttractionDistance && priority != ExcludedPriority {
          isAttracted := true;
        } else {
          isAttracted := false;
        }
        if isAttracted {
          forces := forces + [AlongUnit(ForceCoefficient(priority), direction)];
        }
      }
    }
  }

  /** A stored ball record `{name, priority}`. */
  datatype BallData = BallData(name: string, priority: int)

  /** `ballsDict ? JSON.parse(ballsDict) : []`, with the parsed list given:
      nothing stored means no balls. */
  function StoredBalls(stored: Option<seq<BallData>>): seq<BallData> {
    match stored
    case None => []
    case Some(list) => list
  }

  /** `parsedBalls.map(...)`: one new ball per record, in order, with its
      name and priority; `ring(index, count)` gives the spawn's x and z. */
  method CreateBalls(world: World, stored: Option<seq<BallData>>, ring: (nat, nat) -> (real, real))
    returns (balls: seq<Ball>)
    modifies world`bodies
    ensures var data := StoredBalls(stored);
      && |balls| == |data|
      && (forall i :: 0 <= i < |balls| ==>
            && fresh(balls[i])
            && balls[i].name == data[i].name && balls[i].priority == data[i].priority
            && balls[i].radius == BallRadius
            && balls[i].position == Vec3(ring(i, |data|).0, SpawnHeight, ring(i, |data|).1)
            && !balls[i].isAttracted && balls[i].forces == [])
      && (forall i, j :: 0 <= i < j < |balls| ==> balls[i] != balls[j])
      && world.bodies == old(world.bodies) + seq(|balls|, i requires 0 <= i < |balls| => BallSphere(balls[i]))
    ensures stored.None? ==> balls == [] && world.bodies == old(world.bodies)
  {
    var data := StoredBalls(stored);
    balls := [];
    var i := 0;
    while i < |data|
      invariant i <= |data| && |balls| == i
      invariant forall k :: 0 <= k < i ==>
            && fresh(balls[k])
            && balls[k].name == data[k].name && balls[k].priority == data[k].priority
            && balls[k].radius == BallRadius
            && balls[k].position == Vec3(ring(k, |data|).0, SpawnHeight, ring(k, |data|).1)
            && !balls[k].isAttracted && balls[k].forces == []
      invariant forall k, l :: 0 <= k < l < i ==> balls[k] != balls[l]
      invariant world.bodies == old(world.bodies) + seq(i, k requires 0 <= k < i => BallSphere(balls[k]))
    {
      var xz := ring(i, |data|);
      var b := new Ball(world, BallRadius, Vec3(xz.0, SpawnHeight, xz.1), data[i].name, data[i].priority);
      balls := balls + [b];
      i := i + 1;
    }
  }

  /** What `Ball.update` does to one ball, stated on the ball's state before
      and after: with no goals nothing changes; otherwise `isAttracted` is
      recomputed and an attracted ball receives one force toward its nearest goal. */
  ghost predicate UpdatedBy(goals: seq<Vec3>, position: Vec3, priority: int,
                            attracted0: bool, forces0: seq<AppliedForce>,
                            attracted: bool, forces: seq<AppliedForce>)
  {
    if |goals| == 0 then attracted == attracted0 && forces == forces0
    else
      var c := Nearest(position, goals);
      && c.index < |goals|
      && attracted == Attracts(c.dist2, priority)
      && forces == forces0
           + (if attracted then [AlongUnit(ForceCoefficient(priority), Sub(goals[c.index], position))] else [])
  }

  /** The per-frame loop `for (i = 0; i < balls.length; i++) balls[i].update()`:
      every ball is updated once against the same goals, and no ball moves. */
  method UpdateBalls(balls: seq<Ball>, goals: GoalRegistry)
    requires forall i, j :: 0 <= i < j < |balls| ==> balls[i] != balls[j]
    modifies set b | b in balls
    ensures forall i :: 0 <= i < |balls| ==> balls[i].position == old(balls[i].position)
    ensures forall i :: 0 <= i < |balls| ==>
      var b := balls[i];
      UpdatedBy(goals.positions, b.position, b.priority, old(b.isAttracted), old(b.forces), b.isAttracted, b.forces)
  {
    var i := 0;
    while i < |balls|
      invariant i <= |balls|
      invariant forall k :: 0 <= k < |balls| ==> balls[k].position == old(balls[k].position)
      invariant forall k :: 0 <= k < i ==>
        var b := balls[k];
        UpdatedBy(goals.positions, b.position, b.priority, old(b.isAttracted), old(b.forces), b.isAttracted, b.forces)
      invariant forall k :: i <= k < |balls| ==>
        balls[k].isAttracted == old(balls[k].isAttracted) && balls[k].forces == old(balls[k].forces)
    {
      balls[i].Update(goals.positions);
      i := i + 1;
    }
  }
}
