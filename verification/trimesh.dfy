/**
  Conversion of a renderable mesh's flat buffers into a static collision
  trimesh (the body of the traverse callback in `loadGLTFModelAndCreateTrimesh`).

  JavaScript reads past the end of an array yield `undefined`, modelled as
  `None`. Buffers whose length is not a multiple of 3 are not truncated: the
  last face keeps its `undefined` indices, while the last vertex, built with
  `new CANNON.Vec3(x, y, z)` whose parameters default to 0, gets 0 for each
  missing coordinate.
 */
module Trimesh {
  import opened Wrappers
  import opened Geometry

  /** Three consecutive reads `buf[i]`, `buf[i + 1]`, `buf[i + 2]`. */
  datatype Triple<T> = Triple(a: Option<T>, b: Option<T>, c: Option<T>)

  /** A mesh's geometry: the flat position buffer and the optional index buffer. */
  datatype MeshGeometry = MeshGeometry(positions: seq<real>, index: Option<seq<nat>>)

  /** A node met while traversing a loaded scene graph, in traversal order. */
  datatype SceneNode =
    | Group
    | Mesh(position: Vec3, quaternion: Quat, geometry: MeshGeometry)

  /** The collision shape handed to the physics engine: flat scaled
      coordinates and flat triangle indices (an undefined index stays undefined). */
  datatype TrimeshShape = TrimeshShape(vertices: seq<real>, indices: seq<Option<nat>>)

  /** A body of the physics world built from level geometry. */
  datatype StaticBody = StaticBody(mass: real, shape: TrimeshShape, position: Vec3, quaternion: Quat)

  /** `buf[i]` as JavaScript reads it. */
  function At<T>(buf: seq<T>, i: nat): Option<T> {
    if i < |buf| then Some(buf[i]) else None
  }

  /** Number of iterations of `for (i = 0; i < len; i += 3)`: the least
      count c with len <= 3 * c, i.e. the length divided by 3, rounded up. */
  function TripleCount(len: nat): (c: nat)
    ensures len <= 3 * c && (c == 0 || 3 * (c - 1) < len)
  {
    (len + 2) / 3
  }

  function Component<T>(t: Triple<T>, axis: nat): Option<T>
    requires axis < 3
  {
    if axis == 0 then t.a else if axis == 1 then t.b else t.c
  }

  // ---------------------------------------------------------------------
  // Sequential index synthesis

  /** The fallback index list for non-indexed geometry: 0, 1, 2, ... with one
      entry per vertex (per started triple of the position buffer). */
  function SequentialIndexList(len: nat): (r: seq<nat>)
    ensures |r| == TripleCount(len)
    ensures forall k :: 0 <= k < |r| ==> r[k] < TripleCount(len)
    ensures forall v :: 0 <= v < TripleCount(len) ==> v in r
    ensures forall j, k :: 0 <= j < k < |r| ==> r[j] != r[k]
  {
    var r := seq(TripleCount(len), k requires 0 <= k => k);
    forall v | 0 <= v < TripleCount(len) ensures v in r {
      assert r[v] == v;
    }
    r
  }

  /** The loop `for (i = 0; i < vertices.length / 3; i++) indices.push(i)`,
      with the division done over reals as in JavaScript. */
  method SequentialIndices(len: nat) returns (indices: seq<nat>)
    ensures indices == SequentialIndexList(len)
  {
    indices := [];
    var i := 0;
    while (i as real) < (len as real) / 3.0
      invariant i <= TripleCount(len)
      invariant indices == seq(i, k requires 0 <= k => k)
    {
      indices := indices + [i];
      i := i + 1;
    }
  }

  /** The index list the shape uses: the geometry's own, verbatim, or the
      sequential fallback. */
  function IndexList(g: MeshGeometry): (r: seq<nat>)
    ensures g.index.Some? ==> r == g.index.value
    ensures g.index.None? ==> |r| == TripleCount(|g.positions|)
  {
    match g.index
    case Some(idx) => idx
    case None => SequentialIndexList(|g.positions|)
  }

  // ---------------------------------------------------------------------
  // Chunking into triples

  /** `buf` read in steps of 3, one triple per started group of three. */
  function Triples<T>(buf: seq<T>): seq<Triple<T>> {
    seq(TripleCount(|buf|), k requires 0 <= k => Triple(At(buf, 3 * k), At(buf, 3 * k + 1), At(buf, 3 * k + 2)))
  }

  /** The loop building `cannonFaces`:
      `for (i = 0; i < buf.length; i += 3) out.push([buf[i], buf[i+1], buf[i+2]])`. */
  method ChunkTriples<T>(buf: seq<T>) returns (triples: seq<Triple<T>>)
    ensures triples == Triples(buf)
  {
    triples := [];
    var i := 0;
    while i < |buf|
      invariant i == 3 * |triples| && |triples| <= TripleCount(|buf|)
      invariant forall k :: 0 <= k < |triples| ==>
        triples[k] == Triple(At(buf, 3 * k), At(buf, 3 * k + 1), At(buf, 3 * k + 2))
    {
      triples := triples + [Triple(At(buf, i), At(buf, i + 1), At(buf, i + 2))];
      i := i + 3;
    }
  }

  lemma TriplesAt<T>(buf: seq<T>, i: nat)
    requires i < 3 * TripleCount(|buf|)
    ensures i / 3 < |Triples(buf)| && Component(Triples(buf)[i / 3], i % 3) == At(buf, i)
  {
  }

  /** A buffer of whole triples is chunked exactly: |buf| / 3 triples, triple k
      being (buf[3k], buf[3k+1], buf[3k+2]) with no undefined component. */
  lemma TriplesOfWholeBuffer<T>(buf: seq<T>)
    requires |buf| % 3 == 0
    ensures |Triples(buf)| == |buf| / 3
    ensures forall k :: 0 <= k < |buf| / 3 ==>
      Triples(buf)[k] == Triple(Some(buf[3 * k]), Some(buf[3 * k + 1]), Some(buf[3 * k + 2]))
  {
  }

  // ---------------------------------------------------------------------
  // Vertices

  /** A coordinate passed to `new CANNON.Vec3`: an undefined argument takes
      the parameter's default, 0. */
  function Coord(c: Option<real>): real {
    match c
    case Some(v) => v
    case None => 0.0
  }

  /** The vertex `new CANNON.Vec3(buf[i], buf[i + 1], buf[i + 2])` for a triple of reads. */
  function VertexOf(t: Triple<real>): Vec3 {
    Vec3(Coord(t.a), Coord(t.b), Coord(t.c))
  }

  /** `cannonVertices`: one vertex per started triple of the position buffer. */
  function Vertices(buf: seq<real>): seq<Vec3> {
    seq(TripleCount(|buf|), k requires 0 <= k => VertexOf(Triple(At(buf, 3 * k), At(buf, 3 * k + 1), At(buf, 3 * k + 2))))
  }

  /** Coordinate i of the vertex list is `buf[i]`, or 0 past the end of the buffer. */
  lemma VerticesAt(buf: seq<real>, i: nat)
    requires i < 3 * TripleCount(|buf|)
    ensures i / 3 < |Vertices(buf)|
    ensures Axis(Vertices(buf)[i / 3], i % 3) == if i < |buf| then buf[i] else 0.0
  {
    TriplesAt(buf, i);
  }

  /** The loop building `cannonVertices`:
      `for (i = 0; i < vertices.length; i += 3) cannonVertices.push(new CANNON.Vec3(...))`. */
  method ChunkVertices(buf: seq<real>) returns (vs: seq<Vec3>)
    ensures vs == Vertices(buf)
  {
    vs := [];
    var i := 0;
    while i < |buf|
      invariant i == 3 * |vs| && |vs| <= TripleCount(|buf|)
      invariant forall k :: 0 <= k < |vs| ==>
        vs[k] == VertexOf(Triple(At(buf, 3 * k), At(buf, 3 * k + 1), At(buf, 3 * k + 2)))
    {
      vs := vs + [Vec3(Coord(At(buf, i)), Coord(At(buf, i + 1)), Coord(At(buf, i + 2)))];
      i := i + 3;
    }
  }

  // ---------------------------------------------------------------------
  // Re-flattening

  /** `faces.flatMap((f) => f)`. */
  function Flatten<T>(ts: seq<Triple<T>>): (r: seq<Option<T>>)
    ensures |r| == 3 * |ts|
  {
    if ts == [] then [] else [ts[0].a, ts[0].b, ts[0].c] + Flatten(ts[1..])
  }

  /** Stepping back one triple keeps the position inside the triple. */
  lemma StepBack(i: nat)
    requires i >= 3
    ensures (i - 3) / 3 == i / 3 - 1 && (i - 3) % 3 == i % 3
  {
  }

  lemma {:induction false} FlattenAt<T>(ts: seq<Triple<T>>, i: nat)
    requires i < 3 * |ts|
    ensures Flatten(ts)[i] == Component(ts[i / 3], i % 3)
  {
    if i >= 3 {
      FlattenAt(ts[1..], i - 3);
      StepBack(i);
      assert ts[1..][(i - 3) / 3] == ts[i / 3];
    }
  }

  /** Chunking then flattening gives back the buffer, padded with `None` up
      to a whole triple. */
  lemma {:induction false} FlattenTriples<T>(buf: seq<T>)
    ensures |Flatten(Triples(buf))| == 3 * TripleCount(|buf|)
    ensures forall i :: 0 <= i < 3 * TripleCount(|buf|) ==> Flatten(Triples(buf))[i] == At(buf, i)
  {
    forall i | 0 <= i < 3 * TripleCount(|buf|)
      ensures Flatten(Triples(buf))[i] == At(buf, i)
    {
      FlattenAt(Triples(buf), i);
      TriplesAt(buf, i);
    }
  }

  /** Round trip for faces: with a whole number of triangles, the flattened
      faces are the index list itself. */
  lemma FacesRoundTrip(indices: seq<nat>)
    requires |indices| % 3 == 0
    ensures Flatten(Triples(indices)) == seq(|indices|, i requires 0 <= i < |indices| => Some(indices[i]))
  {
    FlattenTriples(indices);
  }

  /** One vertex scaled axis by axis: `[v.x * scale.x, v.y * scale.y, v.z * scale.z]`. */
  function ScaleVertex(v: Vec3, scale: Vec3): Vec3 {
    Vec3(v.x * scale.x, v.y * scale.y, v.z * scale.z)
  }

  lemma ScaleVertexAxis(v: Vec3, scale: Vec3, axis: nat)
    requires axis < 3
    ensures Axis(ScaleVertex(v, scale), axis) == Axis(v, axis) * Axis(scale, axis)
  {
  }

  /** `vertices.flatMap((v) => [v.x * scale.x, v.y * scale.y, v.z * scale.z])`. */
  function ScaleFlat(vs: seq<Vec3>, scale: Vec3): (r: seq<real>)
    ensures |r| == 3 * |vs|
  {
    if vs == [] then []
    else
      var w := ScaleVertex(vs[0], scale);
      [w.x, w.y, w.z] + ScaleFlat(vs[1..], scale)
  }

  lemma {:induction false} ScaleFlatAt(vs: seq<Vec3>, scale: Vec3, i: nat)
    requires i < 3 * |vs|
    ensures ScaleFlat(vs, scale)[i] == Axis(ScaleVertex(vs[i / 3], scale), i % 3)
  {
    if i >= 3 {
      ScaleFlatAt(vs[1..], scale, i - 3);
      StepBack(i);
      assert vs[1..][(i - 3) / 3] == vs[i / 3];
    }
  }

  /** Scaled coordinate i: buf[i] times its axis factor, or 0 for a
      coordinate past the end of the buffer. */
  lemma ScaledCoordinate(buf: seq<real>, scale: Vec3, i: nat)
    requires i < 3 * TripleCount(|buf|)
    ensures i < |ScaleFlat(Vertices(buf), scale)|
    ensures ScaleFlat(Vertices(buf), scale)[i] == if i < |buf| then buf[i] * Axis(scale, i % 3) else 0.0
  {
    var vs := Vertices(buf);
    var j, k := i / 3, i % 3;
    assert j < |vs| && k < 3 && Axis(vs[j], k) == (if i < |buf| then buf[i] else 0.0) by {
      VerticesAt(buf, i);
    }
    assert ScaleFlat(vs, scale)[i] == Axis(ScaleVertex(vs[j], scale), k) by {
      ScaleFlatAt(vs, scale, i);
    }
    ScaleVertexAxis(vs[j], scale, k);
    if i >= |buf| {
      assert Axis(vs[j], k) * Axis(scale, k) == 0.0;
    }
  }

  /** Every coordinate is multiplied by the factor of its own axis, and by
      nothing else: out[i] == buf[i] * scale[i % 3]; a partial last vertex is
      completed with zeros. */
  lemma {:induction false} ScaledVertices(buf: seq<real>, scale: Vec3)
    ensures |ScaleFlat(Vertices(buf), scale)| == 3 * TripleCount(|buf|)
    ensures forall i :: 0 <= i < |buf| ==> ScaleFlat(Vertices(buf), scale)[i] == buf[i] * Axis(scale, i % 3)
    ensures forall i :: |buf| <= i < 3 * TripleCount(|buf|) ==> ScaleFlat(Vertices(buf), scale)[i] == 0.0
  {
    forall i | 0 <= i < |buf|
      ensures ScaleFlat(Vertices(buf), scale)[i] == buf[i] * Axis(scale, i % 3)
    {
      ScaledCoordinate(buf, scale, i);
    }
    forall i | |buf| <= i < 3 * TripleCount(|buf|)
      ensures ScaleFlat(Vertices(buf), scale)[i] == 0.0
    {
      ScaledCoordinate(buf, scale, i);
    }
  }

  // ---------------------------------------------------------------------
  // The static body

  /** What the traverse callback builds for one mesh node. */
  function StaticBodyOf(position: Vec3, quaternion: Quat, g: MeshGeometry, scale: Vec3): (body: StaticBody)
    ensures |body.shape.vertices| == 3 * TripleCount(|g.positions|)
    ensures g.index.Some? ==> |body.shape.indices| == 3 * TripleCount(|g.index.value|)
  {
    StaticBody(0.0, TrimeshShape(ScaleFlat(Vertices(g.positions), scale), Flatten(Triples(IndexList(g)))),
               position, quaternion)
  }

  /** Builds the static body for one mesh: indices (given or synthesized),
      vertex triples, faces, the scaled shape, and a mass-0 body posed like the mesh. */
  method BuildStaticBody(position: Vec3, quaternion: Quat, g: MeshGeometry, scale: Vec3) returns (body: StaticBody)
    ensures body == StaticBodyOf(position, quaternion, g, scale)
  {
    var indices: seq<nat>;
    if g.index.Some? {
      indices := g.index.value;
    } else {
      indices := SequentialIndices(|g.positions|);
    }
    var cannonVertices := ChunkVertices(g.positions);
    var cannonFaces := ChunkTriples(indices);
    var shape := TrimeshShape(ScaleFlat(cannonVertices, scale), Flatten(cannonFaces));
    body := StaticBody(0.0, shape, position, quaternion);
  }

  /** The body is static (mass 0), takes the mesh's pose, and its shape
      depends on the buffers and the scale only: the pose is never baked
      into the vertices. */
  lemma {:induction false} StaticBodyFacts(position: Vec3, quaternion: Quat, g: MeshGeometry, scale: Vec3,
                                           position': Vec3, quaternion': Quat)
    ensures var body := StaticBodyOf(position, quaternion, g, scale);
      && body.mass == 0.0
      && body.position == position && body.quaternion == quaternion
      && body.shape == StaticBodyOf(position', quaternion', g, scale).shape
      && (forall i :: 0 <= i < |g.positions| ==>
            body.shape.vertices[i] == g.positions[i] * Axis(scale, i % 3))
      && (forall i :: |g.positions| <= i < |body.shape.vertices| ==> body.shape.vertices[i] == 0.0)
  {
    ScaledVertices(g.positions, scale);
  }

  /** Faces of a non-indexed mesh: the shape's index list is 0, 1, ...,
      n - 1 for the n started vertex triples, each vertex once, padded with
      undefined entries when n is not itself a multiple of 3. */
  lemma {:induction false} NonIndexedFaces(position: Vec3, quaternion: Quat, g: MeshGeometry, scale: Vec3)
    requires g.index.None?
    ensures var idx := StaticBodyOf(position, quaternion, g, scale).shape.indices;
      && |idx| == 3 * TripleCount(TripleCount(|g.positions|))
      && forall k :: 0 <= k < |idx| ==> idx[k] == if k < TripleCount(|g.positions|) then Some(k) else None
  {
    FlattenTriples(IndexList(g));
  }
}
