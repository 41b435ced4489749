# Ball-drop scene: a Dafny model of the game's physics-scene core

This project models the decision and data-handling logic of `src/game.ts`.
That file is a three.js and cannon-es scene. Balls drop into a level built
from glTF meshes. They are pulled toward the nearest "hole" and watched
through one main viewport and three observer viewports. A mouse click
selects a ball by name.

The modules follow the parts of the file:

- `Trimesh` (trimesh.dfy) covers the traverse callback of `loadGLTFModelAndCreateTrimesh`.
  - It synthesises sequential indices when the mesh has no index buffer.
  - It chunks the position and index buffers into triples.
  - It re-flattens them, scaling every coordinate by its own axis factor.
  - It builds a mass-0 body that takes the mesh's position and quaternion.
  - JavaScript reads past the end of a buffer give `undefined`, written
    `None`. A buffer whose length is not a multiple of 3 is not truncated.
    The last face keeps its `undefined` indices. The last vertex is built by
    `new CANNON.Vec3(x, y, z)`, whose parameters default to 0, so each
    missing coordinate becomes 0 and scales to 0.
- `Scene` (scene.dfy) holds the mutable globals: the world's body list, the
  append-only goal list `holePositions`, and the `Ball` class with its
  constructor and `update`. It also holds the per-frame update loop, the
  `parsedBalls` → `balls` construction and the 0.05 s clamp on the frame delta.
- `Attraction` (attraction.dfy) is the pure side of `Ball.update`. It scans
  the goals for the first nearest one, using strict `<` from
  `Number.MAX_VALUE`. It also gives the activation rule
  `minDistance <= 1.5 && priority != 1` and the force coefficient
  `(priority - 1) * 0.1`. Distances are compared squared. The square root
  is monotone, so the comparisons and the 1.5 threshold (2.25 squared)
  decide the same way.
- `Viewports` (viewports.dfy) covers the `render` rectangles, the aspect
  ratios set by `onWindowResize`, and the four cameras. It also covers the
  `changeMainCamera` preset cycle `num = (num + 1) % 4`.
- `Picking` (picking.dfy) covers `onMouseDown`. It computes the main-viewport
  normalized device coordinates and casts a ray from the main camera. The
  first ball in list order that the ray hits is selected.
- `Geometry` and `Wrappers` (geometry.dfy) hold the vector values and `Option`.

Behaviours of the code that the model keeps:

- A buffer that is not a multiple of 3 is not truncated. A partial last
  face holds `undefined` indices, and a partial last vertex holds zeros.
- A goal is the hole mesh's `position`, which is local to its parent, not
  a world-space position.
- Picking always uses the main camera and the main viewport's coordinate
  formula, whatever viewport the pointer is over. It selects the first ball
  in `balls` order, not the one nearest along the ray. A miss keeps the
  previous selection.
- `changeMainCamera` moves the main camera but does not re-aim it.
- The three observer viewports are each 0.33 of the height. Stacked from
  y = 0 they reach 0.99 of the height (`ViewportsTile`), leaving the top 1%
  of the left strip undrawn.

## Model

| member | source | states |
|---|---|---|
| `Trimesh.TripleCount` | src/game.ts:100-102 | the loop stepping by 3 over a buffer of length n runs the least c times with n <= 3c (n / 3 rounded up) |
| `Trimesh.SequentialIndexList` | src/game.ts:92-97 | the fallback index list has one entry per vertex; every entry is a valid vertex index; every vertex occurs; no vertex occurs twice |
| `Trimesh.SequentialIndices` | src/game.ts:93-96 | the push loop, with its guard `i < length / 3` read over reals, yields exactly that fallback list |
| `Trimesh.IndexList` | src/game.ts:88-97 | an index buffer, when present, is used verbatim; otherwise the fallback has one entry per vertex |
| `Trimesh.ChunkTriples` | src/game.ts:104-107 | the faces loop produces triple k = (buf[3k], buf[3k+1], buf[3k+2]), reading past the end as undefined |
| `Trimesh.VerticesAt` | src/game.ts:99-102 | coordinate i of the vertex list is buf[i], or 0 past the end of the buffer |
| `Trimesh.ChunkVertices` | src/game.ts:99-102 | the vertex loop produces one `CANNON.Vec3` per started triple of the position buffer, exactly the vertex list |
| `Trimesh.TriplesOfWholeBuffer` | src/game.ts:104-107 | a buffer whose length is a multiple of 3 gives exactly length / 3 triples, each fully defined and equal to the k-th three entries |
| `Trimesh.FlattenAt` | src/game.ts:111 | element i of the flattened faces is component i mod 3 of face i / 3 |
| `Trimesh.FlattenTriples` | src/game.ts:104-111 | chunking then flattening gives the buffer back, padded with undefined to a whole triple |
| `Trimesh.FacesRoundTrip` | src/game.ts:104-111 | with a whole number of triangles the flattened faces equal the index list |
| `Trimesh.ScaleFlat` | src/game.ts:110 | the scaled coordinate list has three entries per vertex |
| `Trimesh.Flatten` | src/game.ts:111 | the flattened face list has three entries per face |
| `Trimesh.ScaleFlatAt` | src/game.ts:110 | output coordinate i is component i mod 3 of vertex i / 3 after that vertex is scaled axis by axis |
| `Trimesh.ScaledCoordinate` | src/game.ts:99-110 | scaled coordinate i is buf[i] times the factor of axis i mod 3, or 0 for a coordinate past the end of the buffer |
| `Trimesh.ScaledVertices` | src/game.ts:99-112 | for any position buffer the scaled output has three entries per started triple, out[i] = buf[i] * scale[i mod 3] within the buffer, and 0 for the zero-filled rest of a partial last vertex |
| `Trimesh.StaticBodyOf` | src/game.ts:109-117 | the body built for a mesh has three vertex coordinates per started position triple and, for an indexed mesh, three face entries per started index triple |
| `Trimesh.BuildStaticBody` | src/game.ts:85-117 | the per-mesh conversion builds exactly the static body of the geometry, the scale and the mesh pose |
| `Trimesh.StaticBodyFacts` | src/game.ts:109-118 | for any geometry the body has mass 0 and the mesh's position and quaternion; its shape does not depend on the pose, so vertices are scaled and never moved or rotated; coordinates past the buffer are 0 |
| `Trimesh.NonIndexedFaces` | src/game.ts:90-111 | for any position buffer, a non-indexed mesh's faces are 0, 1, ..., n - 1 in order for its n started vertex triples, padded with undefined to a whole triangle |
| `Scene.World.constructor` | src/game.ts:18-19 | the world starts with gravity (0, -9.8, 0) and no bodies |
| `Scene.World.AddBody` | src/game.ts:118 | adding a body appends it to the world's bodies |
| `Scene.GoalRegistry.constructor` | src/game.ts:33 | the goal list starts empty |
| `Scene.GoalRegistry.Append` | src/game.ts:82 | a goal is appended at the end; earlier goals are unchanged |
| `Scene.LoadNode` | src/game.ts:80-118 | on one node: a mesh of the holes asset appends its position to the goals; every mesh appends its static body to the world; a non-mesh node changes nothing |
| `Scene.LoadNodes` | src/game.ts:79-120 | the traverse over the nodes appends the goals and the static bodies of every node, in traversal order, after the existing ones |
| `Scene.Includes` | src/game.ts:81 | `url.includes(sub)`: true only when sub fits in url, and true whenever url starts or ends with sub |
| `Scene.LoadModel` | src/game.ts:79-120 | a load appends one static body per mesh node in traversal order, and that mesh's position to the goals exactly when the URL contains "holes"; existing goals and bodies are kept as a prefix |
| `Scene.BodiesPerMesh` | src/game.ts:80-118 | a load adds exactly as many bodies as there are mesh nodes, all of them static meshes |
| `Scene.GoalsMatchBodies` | src/game.ts:79-119 | a non-holes load appends no goal; a holes load appends as many goals as bodies, and goal k is the position of the k-th body added |
| `Scene.ClampDelta` | src/game.ts:347 | the frame delta handed to the physics step is at most 0.05 and at most the elapsed time, and equals one of them |
| `Scene.Ball.constructor` | src/game.ts:167-195 | a ball gets its name and priority, radius r, mass 1, no damping, the ball material (restitution 1, friction 0), is not attracted, and its sphere body is appended to the world |
| `Scene.Ball.Update` | src/game.ts:197-234 | with goals, `isAttracted` is recomputed from the nearest goal on every call, so it is never sticky. An attracted ball gets one force of coefficient (priority - 1) * 0.1 toward that goal. With no goals neither `isAttracted` nor the forces change |
| `Scene.CreateBalls` | src/game.ts:249-255 | one new ball per stored record, in order, with that record's name and priority, radius 0.3 and spawn height 15; the balls are pairwise distinct objects; each ball's body is added to the world in the same order; with nothing stored there are no balls and the world is unchanged |
| `Scene.UpdateBalls` | src/game.ts:350-352 | the update loop moves no ball, and every ball has had exactly one update: with goals its `isAttracted` follows the activation rule at its position and an attracted ball gains one force toward its nearest goal; with no goals nothing changes |
| `Geometry.Dist2` | src/game.ts:206 | the squared distance compared by the scan is never negative |
| `Attraction.ScanIsFirstMinimum` | src/game.ts:201-211 | after any prefix the scan's minimum is at most every visited distance. When it is below `Number.MAX_VALUE` it is the distance of the chosen goal, and every earlier goal is strictly farther. Otherwise goal 0 is kept |
| `Attraction.ScanGoals` | src/game.ts:202-211 | the scan's minimum never exceeds the `Number.MAX_VALUE` start, and its index is a visited goal or the initial goal 0 |
| `Attraction.Nearest` | src/game.ts:201-211 | on a non-empty goal list the chosen index is a valid goal |
| `Attraction.NearestIsFirstMinimum` | src/game.ts:201-211 | on a non-empty list the chosen index is valid and its minimum is at most every goal's distance; when some goal is nearer than `Number.MAX_VALUE`, the choice is a nearest goal and the first nearest one (ties go to the earliest goal), otherwise goal 0 is kept |
| `Attraction.NearestGoal` | src/game.ts:202-211 | the `forEach` loop computes exactly that scan: a valid index and its minimum |
| `Attraction.Attracts` | src/game.ts:219-225 | a ball of priority 1 is never attracted, nor one whose nearest goal is farther than 1.5; any other ball sitting on a goal is |
| `Attraction.AttractedIffGoalInReach` | src/game.ts:219-225 | the activation rule holds exactly when the priority is not 1 and some goal lies within distance 1.5 |
| `Attraction.ForceCoefficient` | src/game.ts:227-231 | the coefficient pulls toward the goal for priority above 1, pushes away below 1, and is zero exactly for priority 1 |
| `Attraction.NearbyGoalExample` | src/game.ts:201-231 | a priority-3 ball at (0,0,1) with goals (0,0,0) and (10,0,0) chooses the first goal at distance 1, is attracted, and gets coefficient 0.2 |
| `Viewports.ViewportRect` | src/game.ts:362-376 | every viewport lies inside the window; the main one spans the right part to the window's right edge at full height; the observers sit at the left edge |
| `Viewports.ViewportsTile` | src/game.ts:362-376 | the observer strip is as wide as the main viewport's offset; the observers stack with no gap from y = 0; no two viewports overlap |
| `Viewports.Aspect` | src/game.ts:259-268 | every aspect set on resize is positive |
| `Viewports.AspectMatchesViewport` | src/game.ts:259-268 | the aspect set on resize equals the width over the height of the rectangle that view is drawn into |
| `Viewports.RenderPasses` | src/game.ts:359-379 | render draws main, sub1, sub2, sub3 in that order. Each pass's viewport is the `render` rectangle of its view, its scissor equals that viewport, it lies inside the window, and no two passes overlap |
| `Viewports.Camera.constructor` | src/game.ts:42-44 | a camera keeps the aspect, position and look target it is created with |
| `Viewports.NextPreset` | src/game.ts:293 | the counter stays in 0..3, advances by one, and wraps from 3 to 0 |
| `Viewports.CycleAdvances` | src/game.ts:289-296 | after k triggers the counter is (start + k) mod 4 |
| `Viewports.FourTriggersReturn` | src/game.ts:289-296 | four more triggers always return the counter to its value |
| `Viewports.Cameras.constructor` | src/game.ts:35-56 | camera i starts at preset i with its own look target and the aspect of its viewport; the counter starts at 0, matching the main camera's start at preset 0 |
| `Viewports.Cameras.ChangeMainCamera` | src/game.ts:291-296 | the counter advances by one modulo 4 and the main camera moves to that preset; no other camera changes and nothing is re-aimed |
| `Viewports.Cameras.OnWindowResize` | src/game.ts:258-273 | every camera gets the aspect of its new viewport; no camera moves |
| `Picking.MainViewportNdc` | src/game.ts:315-317 | the main viewport's left and right edges map to x = -1 and 1, the window's top and bottom to y = 1 and -1 |
| `Picking.NdcRoundTrip` | src/game.ts:315-317 | the main-viewport device coordinates determine the client point: mapping back gives the point |
| `Picking.ClientRoundTrip` | src/game.ts:315-317 | conversely, device coordinates mapped to a client point and back are unchanged |
| `Picking.InMainViewportIffNdcInRange` | src/game.ts:315-317 | a pointer over the main viewport is exactly one whose device coordinates lie in [-1, 1] on both axes |
| `Picking.FirstHit` | src/game.ts:324-336 | the result, if any, is a ball the ray hits with no hit ball before it in list order; no result means no ball is hit |
| `Picking.BallInfo.constructor` | src/game.ts:285-287 | the selection starts as the empty name |
| `Picking.PickedName` | src/game.ts:324-336 | the name left selected is the previous one or the name of a ball the ray hits |
| `Picking.PickedNameFacts` | src/game.ts:324-336 | a pick that hits nothing keeps the previous name; any hit selects the name of a hit ball; the first ball in list order that the ray hits is the one whose name is selected, even when later balls share its name |
| `Picking.OnMouseDown` | src/game.ts:314-337 | a click casts the ray from the main camera at the main-viewport coordinates. The selection becomes the first hit ball's name, or stays as it was |

## Left out

- Rigid-body dynamics is not modelled: `world.step`, contact resolution,
  force integration and sub-stepping (src/game.ts:348). These belong to the
  physics library and are floating-point dynamics. Only the delta clamp
  before the step is modelled.
- Floating-point arithmetic is not modelled. Coordinates, distances,
  aspects and device coordinates are exact reals, so rounding, NaN
  comparisons and infinities are absent.
- Vector normalisation and `applyForce` are not modelled. A force is
  recorded as its coefficient and the unnormalised direction it is taken
  along.
- Scene.Ball.Update does not model the torque that `applyForce` derives from
  its application-point argument (`this.body.position`). That is physics
  library behaviour that is not part of this model.
- Copying the body pose to the render mesh (src/game.ts:198-199) is not
  modelled. A ball has one position, the body's.
- Ray casting is an abstract predicate `intersects(ray, ball)`.
  `Ball.isIntersected` (src/game.ts:236-239) is that predicate. A ray is its
  device coordinates and the main camera's position. The camera's
  orientation and projection are not modelled.
- Picking.OnMouseDown: requires a window of positive width and height. A
  zero-size window divides by zero in JavaScript, giving infinities or NaN,
  and that is not modelled.
- Picking.NdcRoundTrip: requires a positive window size, for the same reason.
- Picking.MainViewportNdc: requires a positive window size, for the same reason.
- Viewports.Aspect: requires a positive window size, for the same reason.
- Viewports.Cameras.constructor: requires a positive window size, for the
  same reason.
- Viewports.Cameras.OnWindowResize: requires a positive window size, for the
  same reason.
- Picking.OnMouseDown does not model the updates it makes to the shared
  `mouse` vector and raycaster, or the panel refresh (src/game.ts:319-322,
  328-332).
- Asynchronous loading is not modelled: the glTF and HDR loaders,
  callbacks and `animate` start-up. A finished load is given to
  `Scene.LoadModel` as its nodes in traversal order.
- The level asset list and scale table (src/game.ts:125-158) are not
  modelled. Only the scale passed to a load is modelled.
- Random colours and the cos/sin spawn ring (src/game.ts:250-253) are not
  modelled. The spawn x and z come from a given `ring(index, count)`
  function.
- Reading and parsing session storage is not modelled. The parsed list is
  given, and absent or empty storage is `None`.
- The lil-gui panel, Stats, the reset button and live gravity tuning are
  not modelled (src/game.ts:275-306). Only the initial gravity is kept.
- OrbitControls damping, lights, environment maps and renderer settings are
  not modelled. Neither is `controls.update()`, which moves the main camera
  between frames.
- src/main.ts is not part of this model: it is the form that writes the
  ball list to storage.
