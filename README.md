# Spawn core of trash-ducks, in Dafny

trash-ducks is a small browser scene. A duck swims round a pond. Clicking the
water (in `script.js`, tapping it) drops a can at that point. In `src/main.ts`
the can is a physics body that falls under gravity; in `script.js` a gsap tween
animates its drop. A pool tracks the 49 most recent cans;
a 50th push shifts the oldest record out of the pool. Almost all of the repository
configures three.js (rendering) and cannon-es (physics). This project models
the spawn logic that sits between those library calls, in both revisions:
`src/main.ts` (TypeScript, with physics) and `script.js` (JavaScript, with
a gsap drop animation).

Modules, one concern each:

- `Coords` (coords.dfy): vectors, quaternions, bounding boxes, and
  `updateMousePosition`'s map from client pixels to normalized device
  coordinates (NDC), plus its inverse.
- `Placement` (placement.dfy): the spawn position `(point.x, 0.5, point.z)`,
  the constants of a can body, the can cylinder and the duck box derived from
  bounding boxes.
- `Raycast` (raycast.dfy): `checkRaycastIntersection`'s scan of the hit list
  (`ScanHits`, a loop), with reference functions `AnyCan`, `LastWater` and
  `Classify` and the lemmas that characterise them.
- `FifoPool` (fifo.dfy): the `push` followed by at most one `shift` when the
  length exceeds 49, used by both revisions, with lemmas about runs of pushes.
- `SceneGraph` (scenegraph.dfy) and `Physics` (physics.dfy): stand-ins for the
  few three.js and cannon-es objects the core mutates. These are meshes that
  share geometry and material buffers with the template they were cloned
  from, the scene's child list, bodies, and the world's body list.
- `MainApp` (mainapp.dfy): `src/main.ts`. It has the `cannery` pool of
  `{mesh, body}` records, the loader callback, `createNewCan`, the
  per-frame copy of each body's pose onto its mesh, and the click handler.
- `ScriptApp` (scriptapp.dfy): `script.js`. It has the pointer-handler state
  machine (`prevMouse`, `drag`) as a pure `Step` function, the class whose
  handlers follow it, `createNewCan`, and the tween's `onComplete`.

Real numbers stand for JavaScript doubles. Inputs the code gets from libraries
or the browser become parameters: the viewport size, the pointer position,
the raycaster's hit list (a sequence of `(name, point)` in ray order), the
loaded meshes, and the ground's orientation.

### Behaviour of the code worth knowing

- The pool's capacity is 49: both revisions shift when the length is over 49.
- The last Water hit in ray order wins: every Water hit overwrites `plane`
  (`Raycast.ClassifySpec`).
- In `src/main.ts` an eviction does not remove the body from the world. It
  calls `scene.remove` on the `{mesh, body}` record, which was never a child
  of the scene, so the evicted mesh also stays in the scene. Only the
  geometry and material are disposed, and a three.js clone shares these with
  the template and every other can. `MainScene.CreateNewCan` states all of
  this: the world's body list only grows, and the scene's children only grow.
- `src/main.ts` spawns on `click` with no tap/drag test. The tap/drag test
  exists only in `script.js`.
- Nothing checks for a degenerate bounding box. `Placement.CanCylinderFitsBox`
  states when the shape is non-degenerate.

## Model

| member | source | states |
|---|---|---|
| Coords.ToNdc | script.js:166-171 | `updateMousePosition` maps client pixels to NDC, x to the right and y upwards; mapping the result back with `FromNdc` returns the original pixel position |
| Coords.NdcRoundTripInverse | src/main.ts:373-378 | mapping NDC to pixels and back returns the original NDC point, so the map is a bijection |
| Coords.NdcCorners | script.js:167-168 | the top-left corner (0,0) maps to (-1,1) and (width,height) maps to (1,-1) |
| Coords.NdcSquareIffViewport | script.js:166-171 | a pointer lands in [-1,1]² exactly when it is inside the viewport, in both directions |
| Coords.NdcDelta | script.js:247-248 | an NDC delta is 2·dx/width horizontally and -2·dy/height vertically, so the tap thresholds are fractions of the viewport size |
| Placement.SpawnPositionIgnoresHeight | src/main.ts:169-176 | `SpawnPosition`, the drop point `(x, 0.5, z)` above a hit: two hit points give the same spawn position iff they agree on x and z; the spawn height is 0.5 and the hit's y plays no part (as in script.js:207) |
| Placement.CanCylinderFitsBox | src/main.ts:157-167 | `CanCylinder`, the body shape made from the can's bounding box: the can cylinder has equal top and bottom radii, twice the radius is the box's x-extent, its height is the y-extent, it has 12 segments, and it is non-degenerate when the box is |
| Placement.ShapesIgnoreTranslation | src/main.ts:157-167 | the can cylinder and the duck box depend only on the bounding box's extents, not on its position |
| Placement.DuckBoxReconstructsBounds | src/main.ts:222-228 | `DuckBox`, the duck's box of half the bounding-box extents: the duck box's half-extents, centred on the bounding box, give back exactly its min and max corners |
| Raycast.ScanHits | src/main.ts:337-351 | the forEach loop ends with `plane` equal to the last Water hit and `canOverlap` true iff some hit is a can |
| Raycast.AnyCanIff | src/main.ts:345-347 | the can flag is set iff some hit, at any position, is named "can" |
| Raycast.LastWaterNone | src/main.ts:342-344 | no Water hit is found iff no hit is named "Water" |
| Raycast.LastWaterAt | src/main.ts:340-351 | a Water hit with no Water hit after it is the one the scan returns |
| Raycast.LastWaterIsLast | src/main.ts:340-351 | whatever the scan returns is a Water hit with no Water hit after it |
| Raycast.ClassifySpec | src/main.ts:334-357 | `Classify`, the verdict of `checkRaycastIntersection`: the result is a rejection iff some hit is a can; it is nothing iff there is neither a can nor Water; otherwise it is exactly the last Water hit in ray order |
| Raycast.ClassifyIgnoresOtherNames | src/main.ts:348-349 | inserting a hit named anything other than "Water" or "can" (such as "Soil") anywhere never changes the result |
| Raycast.IgnoresOther | src/main.ts:341-350 | the can flag and the last Water hit are both unaffected by a hit of any other name |
| Raycast.OverlapIgnoresOrder | script.js:179-194 | whether a placement is rejected does not depend on the order of the hits |
| Raycast.NamesDecide | src/main.ts:341-350 | two hit lists with the same names in the same order have the same can flag, both or neither have a Water result, and a Water result is at the same index in both |
| FifoPool.Push | src/main.ts:187-194 | `push` followed by the conditional `shift` leaves the new entry last and, from a pool within capacity, exactly the 49 newest of the old pool followed by the new entry |
| FifoPool.PushSpec | src/main.ts:187-194 | from at most 49 entries, one push leaves at most 49, with the new entry last; below 49 it appends and evicts nothing; at 49 it evicts exactly the head and keeps the rest in order |
| FifoPool.PushConserves | script.js:214-218 | the evicted entry, if any, followed by the new pool is exactly the old pool plus the new entry, so nothing is lost or reordered |
| FifoPool.PushAllKeepsNewest | src/main.ts:187-194 | after any sequence of pushes, the pool holds exactly the 49 most recent entries, in insertion order |
| FifoPool.EvictionOrder | script.js:213-218 | over any sequence of pushes, the evicted entries followed by the final pool are the initial entries followed by the pushed ones, so eviction is oldest first |
| FifoPool.FiftySpawns | src/main.ts:187-194 | 50 spawns into an empty pool leave spawns 2..50 and evict only spawn 1 |
| SceneGraph.IndexOf | script.js:217 | the `indexOf` that `scene.remove` looks the object up with: the first position holding it |
| SceneGraph.RemoveFirstNoDup | script.js:217 | removing an object from a child list without duplicates leaves a list without duplicates that no longer contains the object |
| SceneGraph.AddNoDup | script.js:208 | `scene.add` keeps a child list without duplicates free of them |
| SceneGraph.RemoveFirst | script.js:217 | `scene.remove` of an object that is not a child leaves the children as they are; otherwise exactly the entry at its first position goes and all others stay, in order |
| SceneGraph.BufferGeometry.Dispose | src/main.ts:191 | `geometry.dispose()` marks the geometry disposed and changes nothing else |
| SceneGraph.MeshMaterial.Dispose | src/main.ts:192 | `material.dispose()` marks the material disposed and changes nothing else |
| SceneGraph.Mesh.Clone | src/main.ts:182 | a clone is a new mesh with the template's name and transform, sharing its geometry and material |
| SceneGraph.Scene.Add | src/main.ts:185 | `scene.add` puts the object last among the children after taking it out of its earlier place, if any |
| SceneGraph.Scene.Remove | src/main.ts:193 | `scene.remove` takes out the first occurrence of the object and leaves the children unchanged when it is not one of them |
| Physics.World.AddBody | src/main.ts:178 | `addBody` appends a body that is not yet in the world, and nothing else changes |
| Physics.World.AddContactMaterial | src/main.ts:74 | `addContactMaterial` appends the contact material; bodies and gravity are unchanged |
| MainApp.CheckRaycastIntersection | src/main.ts:334-358 | returns `false` (Overlap) if a can was hit, otherwise the last Water hit or `undefined`, as `Classify` specifies |
| MainApp.GrowKeepsPaired | src/main.ts:178-185 | adding a body to the world and a mesh to the scene keeps every existing record paired with a world body and a scene mesh |
| MainApp.AppendKeepsPaired | src/main.ts:187 | appending a record whose body is in the world, whose mesh is in the scene and new to the pool keeps every record paired and the meshes distinct |
| MainApp.TailKeepsPaired | src/main.ts:189-190 | shifting out the head keeps the remaining records paired |
| MainApp.PushKeepsPoolInvariant | src/main.ts:187-194 | a push with its eviction keeps the pool at 49 records or fewer, with distinct meshes, every body in the world, every mesh in the scene and sharing the template's buffers |
| MainApp.MainScene.constructor | src/main.ts:44-140 | the world has gravity (0,-9.82,0), the static ground plane at (0,-0.075,0) and one registered contact material, ground/duck with friction 0.7 and restitution 0.1; the pool is empty and no assets have loaded |
| MainApp.MainScene.OnGltfLoaded | src/main.ts:211-245 | the duck body is a box of half the bounding-box extents, mass 1, at the duck mesh's position, and is added to the world; the "can" mesh becomes the template |
| MainApp.MainScene.CreateNewCan | src/main.ts:153-195 | one new body (cylinder, mass 0.04, sleep limit 1.0, can material, at (x,0.5,z)) is appended to the world and one new mesh to the scene; the pool becomes `Push(old, record)`; an eviction disposes the shared geometry and material and removes nothing from the world or the scene |
| MainApp.MainScene.PushRecord | src/main.ts:187-194 | the pool becomes `Push(old, record)` and keeps its invariant; the scene's children are unchanged (the remove is handed the record, not its mesh); geometry and material are disposed exactly when the pool was full |
| MainApp.MainScene.SyncCans | src/main.ts:274-277 | afterwards every pooled mesh has its body's position and quaternion; bodies, the pool and its order are unchanged |
| MainApp.MainScene.OnClick | src/main.ts:360-371 | mouse becomes the click's NDC point; a can is spawned iff the assets are loaded and the ray meets Water and no can, with the body and mesh `CreateNewCan` describes and the shared buffers disposed exactly when the pool was full; otherwise the pool, the world's bodies, the scene and the template's buffers are unchanged; in both cases the world's gravity and contact materials and the duck and its body are unchanged |
| ScriptApp.MovesDrag | script.js:240-242 | after a press, k moves leave `drag` set iff k > 0, and `prevMouse` unchanged |
| ScriptApp.MovesDragged | script.js:240-242 | once `drag` is set, further moves keep it set |
| ScriptApp.PressMovesRelease | script.js:244-255 | after a press at p and k moves, a release at q attempts a spawn iff k = 0 or both NDC deltas are strictly below 0.04 and 0.03 |
| ScriptApp.NoPressNoSpawn | script.js:224-248 | before the first press, `prevMouse` is undefined and no release ever attempts a spawn |
| ScriptApp.NoPressKeepsUnpressed | script.js:224-248 | events without a press never set `prevMouse` |
| ScriptApp.PressAndMove | script.js:234-242 | `Step`, one pointer handler's effect on (`prevMouse`, `drag`): a press records its position and clears `drag` whatever came before; a move sets `drag` wherever the pointer is |
| ScriptApp.ThresholdExamples | script.js:250 | after a move, releases at (0.04,0), (0.05,0.02) and (0,0.03) from the press are drags and a release at (0.03,0.02) is a tap: the comparisons are strict |
| ScriptApp.EvictKeepsTracked | script.js:216-218 | removing the shifted-out can from the scene keeps every other can a child of the scene |
| ScriptApp.CheckRaycastIntersection | script.js:173-195 | returns a hit iff the classification is Water, and that hit is the last Water hit; `undefined` on any can overlap |
| ScriptApp.ScriptScene.constructor | script.js:78-152 | `mouse` is (0,0), `prevMouse` and `drag` are unset, no cans, no assets |
| ScriptApp.ScriptScene.OnGltfLoaded | script.js:136-140 | the loaded "can" mesh becomes the template; nothing else changes |
| ScriptApp.ScriptScene.PointerDown | script.js:234-238 | mouse and `prevMouse` become the press's NDC point and `drag` is cleared, as `Step` says |
| ScriptApp.ScriptScene.PointerMove | script.js:240-242 | `drag` is set and nothing else changes |
| ScriptApp.ScriptScene.CreateNewCan | script.js:197-221 | a new clone of the template (same name, geometry, material and quaternion) at (x,0.5,z) joins the scene and the running drops; `cans` is unchanged until its drop completes |
| ScriptApp.ScriptScene.PointerUp | script.js:244-261 | the gesture follows `Step`; a can is placed iff the assets are loaded, the release attempts a spawn and the ray meets Water and no can; otherwise nothing but the gesture and mouse changes |
| ScriptApp.ScriptScene.OnTweenComplete | script.js:213-219 | the oldest running drop lands at height 0, its x, z and quaternion unchanged, and `cans` becomes `Push(old, can)`; the evicted can, if any, and only it, leaves the scene, and no copy of it remains there because the scene's children stay free of duplicates; at most 49 cans remain |

## Left out

- Rendering, the Water shader surface, fog, lights, the camera, OrbitControls, lil-gui and the resize handlers: these are library configuration with no logic of the core.
- GLTF and audio loading: asynchronous I/O. The loader callback is modelled as a method that receives the loaded meshes. The group's own `scene.add` is not modelled. An asset without a "can" or duck mesh, which makes the source throw, is not modelled.
- The duck's scripted path and heading in `animate` use trigonometry on doubles, so they are not modelled. The ground body's orientation is `setFromAxisAngle` of a quarter turn, computed with trigonometry; it is a constructor parameter.
- `world.step` (fixed step 1/60, at most 10 sub-steps), the broadphase, the solver and sleeping are the cannon-es engine and are not modelled. Bodies are only created and added here.
- The contact material for cans against the ground is built but never registered; the model records only the registered ground/duck pair.
- gsap's easing and timing: only the effect of `onComplete` is modelled. All drops last one second, so they complete in the order they started. `OnTweenComplete` therefore completes the oldest running drop and leaves the can at height 0, the value the tween ends on.
- `script.js` rotates the first child of the loaded group a little each frame (`gltfCollection.children[0]`). This is decoration, not modelled.
- `console.log` calls. The copy that `updateMousePosition` returns is modelled: `pointerdown` keeps it as `prevMouse`, which the model holds as the value `Some(mouse)`, so later changes to `mouse` do not reach it.
- Scene children other than cans (the camera, the Water and Soil meshes, the lights, the loaded group) are not modelled: the constructors start from an empty child list, so `scene.children` holds only the cans the core adds.
- The three.js ray geometry: the hit list is an input.
- Floating point: coordinates are exact reals. A zero-sized viewport, where the division yields an infinity or, at coordinate 0, NaN, is excluded by requiring width and height to be positive.
- The library stand-ins for `addBody` and `add` stand for the library calls and cover only what the core relies on. `addBody` ignores a body already present; `add` moves an object to the end of the children.
