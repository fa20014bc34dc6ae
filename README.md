# WebGL path tracer: a Dafny model of its CPU-side bookkeeping

This project models the TypeScript code that drives a progressive WebGL path
tracer, and proves properties of that model. The GPU work is not modelled.
Every WebGL call the code makes becomes an event appended to a log, and
every uniform upload becomes an `Upload(location, value)` event. What the
shader program sees is the `Store` (uniform name to value) that the uploads
build up.

What is modelled:

- **Compositor** (`Compositors`, `Reduction`). The accumulation state
  machine has three counters, a pool of 16 render targets, a preview target
  and an accumulator.
  - One call of `render` is specified on values by `Tick`. The method is
    proved equal to it, and the counters' schedule is proved from it.
  - `Reduction` follows which rendered frames the pairwise reduction lets
    through to the accumulator.
  - `dispose` is checked against `createResources` as a set of live GL
    objects.
- **Scene registry** (`Scenes`). The capacity checks of the three `add*`
  methods and the dirty flag are modelled. So is the per-slot uniform pass
  of `applyUniforms`, specified on values by `Prefix`/`FullPass`, together
  with the store that pass leaves behind.
- **Quadric surfaces** (`Surfaces`). `QuadraticSurfaceMatrix` keeps a
  cumulative transform and a cache `MT = T⁻¹·M·(T⁻¹)ᵀ`; the cache is proved
  never stale. `Surface` pairs a shape and a clip quadric with a material
  slot. The factory matrices are exact constants.
- **Camera** (`Cameras`). Position and Euler angles, the pitch clamp, the
  walk in the camera's basis, the projection parameters, and the derived
  fields that `update` recomputes.
- **Example scene** (`ExampleScenes`). The demo room is proved to stay within
  capacity and to pass the material-id check.
- **Material and point-light packing** (`Materials`, `PointLights`). The
  upload order, the value layout, and a round trip through the store.
- **Legacy renderer** (`Renderers`). The ping-pong targets, framebuffer
  creation with its error path, and `dispose`.
- **Application shell** (`Application`). The drop, pause and recreate flags
  and the order of work in one animation frame.
- **Input, timer and image loading** (`InputHandling`, `Timers`,
  `ImageLoading`). Key-axis state, mouse dragging, the movement gate, the
  millisecond clock and the two image maps.

What is abstract or supplied by the caller:

- Matrix products and inverses: a `MatrixLibrary` value.
- Sine and cosine: a `Trig` value.
- The perspective matrix: a `Perspective` function.
- The clock reading: an integer parameter.
- The length that `Math.sqrt` returns: a parameter `norm` with
  `norm >= 0` and `norm * norm` equal to the squared length.
- The framebuffer status answers: a `complete` predicate.

## Model

| member | source | states |
|---|---|---|
| Compositors.Compositor.constructor | source/Compositor.ts:34-48 | a new compositor has index 0, batch count 1, no finished accumulation, 16 pool targets, and has created exactly the pool, preview, accumulator and both programs |
| Compositors.Compositor.CreateResources | source/Compositor.ts:91-102 | the pool holds targets 0..n-1 in order; the calls create those targets, then preview, accumulator, blend program and average program |
| Compositors.Compositor.Dispose | source/Compositor.ts:104-123 | the pool is emptied; the calls delete each pool target, the preview, the accumulator, and the blend program, but not the average program (see Findings) |
| Compositors.LiveAfterDispose | source/Compositor.ts:91-123 | after `createResources` followed by `dispose`, exactly one GL object is still allocated: the average program |
| Compositors.Compositor.RenderToCurrent | source/Compositor.ts:125-130 | the scene is rendered into the current pool slot, with no other call |
| Compositors.Compositor.PresentPreview | source/Compositor.ts:132-170 | the screen shows the accumulator once an accumulation has finished, and the current pool slot before that |
| Compositors.Compositor.AccumulateInto | source/Compositor.ts:172-189 | one blend of `a` and `b` into the destination |
| Compositors.Compositor.AvgInto | source/Compositor.ts:191-213 | one average of `a` and `b` into the destination, weighted by the current batch count |
| Compositors.Compositor.ReducePool | source/Compositor.ts:226-250 | the `while (half > 1)` loop emits exactly the rounds half = n/2, n/4, …, 2 of `ReductionOps`, and not the round for half = 1 (see Findings) |
| Compositors.Compositor.BlendRound | source/Compositor.ts:231-247 | one round pairs slot i with slot i + step/2 into the accumulator and copies the result back to slot i, for every multiple i of step below n |
| Compositors.Compositor.AccumulateTargets | source/Compositor.ts:215-275 | the calls save the accumulator, run the rounds of `ReductionOps`, restore it into pool[1] and merge; afterwards the index is 0, the batch count is one higher and the accumulation is finished |
| Compositors.Compositor.DropResults | source/Compositor.ts:277-297 | the counters return to their initial values; every pool target is cleared, then the accumulator |
| Compositors.Compositor.Render | source/Compositor.ts:299-314 | one frame is exactly `Tick`: drop first, then fill or reduce, then advance; the index stays within 1..n and the batch count at least 1 |
| Compositors.Tick | source/Compositor.ts:299-314 | after a tick the index is within 1..n and the batch count never drops below 1 |
| Compositors.DroppedTick | source/Compositor.ts:277-314 | a dropped tick clears pool and accumulator, renders into pool[0], shows pool[0] and ends in state (1, 1, unfinished) |
| Compositors.DropsCollapse | source/Compositor.ts:277-302 | a dropped tick gives the same state and calls whatever the state before it was, so repeated drops collapse into one |
| Compositors.DropClears | source/Compositor.ts:277-292 | `dropResults` clears a target if and only if it is a pool slot or the accumulator; the preview target is never cleared |
| Compositors.FillTick | source/Compositor.ts:125-170 | a fill tick renders into the current slot, then presents the accumulator if finished and that same slot otherwise, and advances the index by one |
| Compositors.ReductionTick | source/Compositor.ts:272-274 | a reduction tick adds exactly one to the batch count, marks the accumulation finished and leaves the index at 1 |
| Compositors.RunFills | source/Compositor.ts:306-313 | ticks without a drop from index i fill consecutive slots, advancing the index by one each |
| Compositors.FirstReduction | source/Compositor.ts:299-314 | from index 0 the first n calls fill and call n + 1 is the first reduction |
| Compositors.ReductionPeriod | source/Compositor.ts:299-314 | after a reduction the next one comes exactly n calls later |
| Compositors.RunAppend | source/Compositor.ts:299-314 | a run of a + b ticks is a run of a ticks followed by a run of b ticks |
| Compositors.RunOpsAppend | source/Compositor.ts:299-314 | the calls of a + b ticks are the calls of a ticks followed by those of the next b ticks |
| Compositors.MergeWeights | source/Compositor.ts:258-270 | the merge reads only pool[0] and pool[1], writes the accumulator, and gives the average program a frame count of at least 2 |
| Compositors.RoundWellFormed | source/Compositor.ts:231-247 | in one round every index read or written is a pool slot, and each pair is two different slots |
| Compositors.RoundsWellFormed | source/Compositor.ts:226-250 | every round from `half` down stays inside the pool with distinct pairs |
| Compositors.ReductionWellFormed | source/Compositor.ts:226-250 | for a pool whose size is a power of two, the reduction as written stays inside the pool and every pair is two distinct slots |
| Compositors.CompleteReductionExtends | source/Compositor.ts:226-250 | the corrected reduction is the one as written followed by the single round for half = 1, which blends pool[0] with pool[n/2] |
| Compositors.CompleteReductionWellFormed | source/Compositor.ts:226-250 | the corrected reduction also stays inside the pool with distinct pairs |
| Compositors.PoolSizeIsPow2 | source/Compositor.ts:38 | the pool size 16 is a power of two, at least 2 |
| Compositors.AccumulationWellFormed | source/Compositor.ts:215-275 | every call of a reduction tick stays inside the pool, and the average program only runs on pool[1] and pool[0] with a frame count of at least 2 |
| Compositors.CompleteAccumulationWellFormed | source/Compositor.ts:215-275 | the same holds with the corrected reduction that runs down to half = 1 |
| Compositors.CompleteDisposeFreesAll | source/Compositor.ts:104-123 | with the average program deleted as well, creating then disposing leaves nothing allocated |
| Reduction.ReductionHalves | source/Compositor.ts:226-250 | after the rounds as written, pool[0] holds frames 0..n/2-1 and pool[n/2] holds frames n/2..n-1 |
| Reduction.MergeFlow | source/Compositor.ts:252-270 | the restore and merge steps put into the accumulator exactly the frames held by pool[0] |
| Reduction.AccumulatorMissesUpperHalf | source/Compositor.ts:215-275 | as written, the accumulator receives exactly frames 0..n/2-1 of a batch in which every pool slot holds its own frame (the first batch after construction or a drop) |
| Reduction.AccumulatorGathersLowerHalf | source/Compositor.ts:215-275 | as written, whatever the pool holds, the accumulator receives exactly what slots 0..n/2-1 hold, when no target outside the pool holds a frame of the batch |
| Reduction.FillsFlow | source/Compositor.ts:125-170 | k fill ticks from index j put frame i into slot i for j ≤ i < j + k and leave every other target alone |
| Reduction.BatchOps | source/Compositor.ts:299-314 | a batch from index j ≤ 1 is n − j fill ticks followed by the reduction tick |
| Reduction.BatchMissesUpperHalf | source/Compositor.ts:215-314 | as written, a batch starting at index j (0 after construction or a drop, 1 for every later batch) hands the accumulator frames j..n/2-1 of it and never frames n/2..n-1 |
| Reduction.CompleteAccumulationMergesAll | source/Compositor.ts:215-275 | with the round for half = 1 added, the accumulator receives every frame of a batch in which every pool slot holds its own frame (the first batch after construction or a drop) |
| Reduction.CompleteAccumulatorGathersAll | source/Compositor.ts:215-275 | with the round for half = 1 added, whatever the pool holds, the accumulator receives what all n slots hold, when no target outside the pool holds a frame of the batch |
| Reduction.CompleteBatchMergesAll | source/Compositor.ts:215-314 | with the round for half = 1 added, a batch starting at index j (0 after construction or a drop, 1 for every later batch) hands the accumulator every frame it rendered, frames j..n-1 |
| Scenes.Scene.constructor | source/Scene.ts:6-21 | the capacities are as given, all lists are empty and the dirty flag is set |
| Scenes.Scene.IntrospectPathtracer | source/Scene.ts:23-78 | exactly one location record per slot of each capacity, however many slots are occupied; the flag is set |
| Scenes.Scene.AddSurface | source/Scene.ts:80-92 | if the arguments fit, all are appended in order and the flag is set; otherwise the ones that fit are appended, the call fails with the capacity and the flag is untouched; capacity is never exceeded |
| Scenes.Scene.AddMaterial | source/Scene.ts:94-106 | the same append, fail-midway and flag behaviour for materials |
| Scenes.Scene.AddPointLight | source/Scene.ts:108-120 | the same append, fail-midway and flag behaviour for point lights |
| Scenes.Scene.ApplyUniforms | source/Scene.ts:122-171 | with the flag clear nothing is uploaded; otherwise the calls and outcome are those of the full pass, and the flag is cleared exactly when the pass completes |
| Scenes.Scene.SurfaceUniforms | source/Scene.ts:124-144 | the surface loop produces the calls and outcome of the surface section of the pass |
| Scenes.Scene.MaterialUniforms | source/Scene.ts:146-154 | the material loop produces the calls of the material section |
| Scenes.Scene.LightUniforms | source/Scene.ts:156-167 | the light loop produces the calls of the light section |
| Scenes.FailSticks | source/Scene.ts:122-167 | once a loop has thrown, later iterations change neither the calls nor the outcome |
| Scenes.SurfaceLoopPasses | source/Scene.ts:124-144 | the surface loop passes if and only if every surface in range names a material slot in [0, maxMaterialCount) |
| Scenes.OtherLoopsPass | source/Scene.ts:146-167 | the material and light loops never throw |
| Scenes.PassSucceedsIff | source/Scene.ts:122-171 | within capacity, the whole pass succeeds if and only if every surface's material id is below the material capacity (not the number of materials added) |
| Scenes.FirstInvalidIdThrows | source/Scene.ts:129-140 | the first bad id throws with that id; the earlier slots' calls are kept and no material or light call follows |
| Scenes.SlotTargets | source/Scene.ts:124-167 | each iteration writes only names of its own slot and loop |
| Scenes.PrefixTargets | source/Scene.ts:124-167 | the first n iterations of a loop write only names of that loop |
| Scenes.RunIsPrefix | source/Scene.ts:124-167 | applying the iterations one at a time gives the same store as applying all their calls at once |
| Scenes.SurfaceLoopStores | source/Scene.ts:124-144 | after the surface loop, an occupied slot reads back as its surface and an empty slot has material id -1 |
| Scenes.MaterialLoopStores | source/Scene.ts:146-154 | after the material loop, each occupied slot holds diffuse, specular with shininess, and emission |
| Scenes.LightLoopStores | source/Scene.ts:156-167 | after the light loop, an occupied slot has enabled 1 and reads back as its light; an empty one has enabled 0 |
| Scenes.PassStoresSurfaces | source/Scene.ts:122-171 | after a successful pass, every surface slot still holds what the surface loop stored |
| Scenes.PassStoresMaterials | source/Scene.ts:122-171 | after a successful pass, every occupied material slot holds its material |
| Scenes.PassStoresLights | source/Scene.ts:122-171 | after a successful pass, every light slot holds its light and enabled flag |
| Scenes.PassTargets | source/Scene.ts:122-171 | every name a successful pass writes belongs to one of the three loops |
| Scenes.PassSkipsMaterialFields | source/Scene.ts:40-53 | an empty material slot gets no call; reflectivity, refractivity and ior are never written, since introspection never looks them up |
| Surfaces.QuadraticSurfaceMatrix.constructor | source/Surface.ts:9-11 | the quadric is as given, the transform is the identity and the cache is consistent |
| Surfaces.QuadraticSurfaceMatrix.Transform | source/Surface.ts:13-17 | T becomes old T · Δ, the cache is consistent again, and the object itself is returned for chaining |
| Surfaces.QuadraticSurfaceMatrix.TransformTo | source/Surface.ts:19-23 | T becomes t, the cache is consistent again, and the object itself is returned |
| Surfaces.QuadraticSurfaceMatrix.Update | source/Surface.ts:25-35 | T is unchanged and every cache agrees with it |
| Surfaces.QuadraticSurfaceMatrix.Matrix | source/Surface.ts:37-39 | the cached matrix is M seen through the current transform, never stale |
| Surfaces.Surface.constructor | source/Surface.ts:49-53 | the shape and clip quadrics are the objects given, shared and not copied, and the material slot is as given |
| Surfaces.Surface.Uploads | source/Surface.ts:78-85 | three calls in order: the material id as an integer, then the shape's cached matrix, then the clip's |
| Surfaces.Surface.Q | source/Surface.ts:55-59 | the shape matrix is the shape quadric seen through the current transform |
| Surfaces.Surface.C | source/Surface.ts:60-63 | the clip matrix is the clip quadric seen through the current transform |
| Surfaces.Surface.TransformQ | source/Surface.ts:65-67 | only the shape's transform changes; a distinct clip quadric is untouched |
| Surfaces.Surface.TransformC | source/Surface.ts:68-70 | only the clip's transform changes; a distinct shape quadric is untouched |
| Surfaces.Surface.TransformQTo | source/Surface.ts:71-73 | the shape's transform is set; a distinct clip quadric is untouched |
| Surfaces.Surface.TransformCTo | source/Surface.ts:74-76 | the clip's transform is set; a distinct shape quadric is untouched |
| Surfaces.UploadsOf | source/Surface.ts:78-85 | three calls: the material id as an integer, then the Q matrix, then the C matrix |
| Surfaces.UploadsCurrent | source/Surface.ts:78-85 | the matrices a surface uploads are its quadrics seen through the current transforms |
| Surfaces.SurfaceRoundTrip | source/Surface.ts:78-85 | the three calls read back from the store as that surface |
| Surfaces.UnitPlane | source/Surface.ts:88-98 | the quadric form at (x, y, z, 1) is y, so the surface is the plane y = 0 |
| Surfaces.UnitSphere | source/Surface.ts:100-110 | the quadric form is x² + y² + z² − 1 |
| Surfaces.Everywhere | source/Surface.ts:112-122 | the only non-zero entry is -1 at index 15, so every point is inside |
| Surfaces.UnitHyperboloid | source/Surface.ts:124-134 | the quadric form is x² + y² − z² − 1 |
| Surfaces.Ellipsoid | source/Surface.ts:136-146 | the quadric form is a·x² + b·y² + c·z² − 1 |
| Surfaces.Hyperboloid | source/Surface.ts:148-158 | the quadric form is a·x² + b·y² − c·z² − 1 |
| Surfaces.CreateUnitPlane | source/Surface.ts:88-98 | a new quadric object holding `UnitPlane` with the identity transform and a consistent cache |
| Surfaces.CreateUnitSphere | source/Surface.ts:100-110 | a new quadric object holding `UnitSphere` with the identity transform and a consistent cache |
| Surfaces.CreateEverywhere | source/Surface.ts:112-122 | a new quadric object holding `Everywhere` with the identity transform and a consistent cache |
| Surfaces.CreateUnitHyperboloid | source/Surface.ts:124-134 | a new quadric object holding `UnitHyperboloid` with the identity transform and a consistent cache |
| Surfaces.CreateEllipsoid | source/Surface.ts:136-146 | a new quadric object holding `Ellipsoid(a, b, c)` with the identity transform and a consistent cache |
| Surfaces.CreateHyperboloid | source/Surface.ts:148-158 | a new quadric object holding `Hyperboloid(a, b, c)` with the identity transform and a consistent cache |
| Cameras.ClampPitch | source/Camera.ts:128-140 | the stored pitch lies strictly inside (−π/2, π/2): unchanged inside, π/2 − 0.01 at or above π/2, −π/2 + 0.01 at or below −π/2 |
| Cameras.ClampIdempotent | source/Camera.ts:128-140 | clamping a clamped pitch changes nothing |
| Cameras.AlongAdditive | source/Camera.ts:86-115 | two walks in one basis add up to one walk by the sum of the deltas |
| Cameras.AlongLevel | source/Camera.ts:86-115 | with a level basis, the height changes by the up delta alone |
| Cameras.BasisEntries | source/Camera.ts:167-207 | forward is −(m2, m6, m10), right is (m0, m4, m8) and up is (m1, m5, m9) of the rotation |
| Cameras.YawBasis | source/Camera.ts:49-59 | under yaw alone the right vector is level at every yaw, and the camera looks down −z at yaw 0 |
| Cameras.Camera.constructor | source/Camera.ts:11-47 | the camera starts at the origin with zero angles, a 75° field of view, aspect 1 and clip planes 0.01 and 100, with every derived field consistent |
| Cameras.Camera.Update | source/Camera.ts:142-208 | the pose and projection are kept and every derived field agrees with them |
| Cameras.Camera.Rescale | source/Camera.ts:69-72 | only the aspect ratio changes |
| Cameras.Camera.Configure | source/Camera.ts:74-79 | only the field of view (converted to radians) and the clip planes change |
| Cameras.Camera.Move | source/Camera.ts:81-84 | the position moves by the delta; the angles and the projection stay |
| Cameras.Camera.MoveAlong | source/Camera.ts:86-115 | the position moves by d0·right + d1·(0,1,0) + d2·forward in the basis from before the call, and the basis is unchanged |
| Cameras.Camera.MoveTo | source/Camera.ts:117-120 | the position is set exactly; nothing else changes |
| Cameras.Camera.Rotate | source/Camera.ts:122-126 | yaw and pitch grow by the deltas with no clamp; roll never changes |
| Cameras.Camera.RotateTo | source/Camera.ts:128-140 | yaw as given, pitch clamped by `ClampPitch`; roll never changes |
| Cameras.Camera.Uploads | source/Camera.ts:210-213 | the uploads are the position with w = 1 and the ray matrix of the current pose and projection |
| Cameras.CameraRoundTrip | source/Camera.ts:210-213 | the program reads back the camera's position with w = 1 and its ray matrix |
| ExampleScenes.CreateScene | source/ExampleScene.ts:15-113 | capacities (16, 8, 8); the eight materials and three lights are added as listed, ten surfaces with ids 6, 3, 6, 6, 0, 0, 1, 1, 2, 2; no add call throws, capacity holds and every id is a valid slot |
| ExampleScenes.ExampleScenePasses | source/ExampleScene.ts:56-113 | once the program is introspected, the uniform pass over the example scene cannot throw |
| ExampleScenes.RoomWalls | source/ExampleScene.ts:15-54 | six walls: floor and ceiling with material 0, back and front with 1, right and left with 2 |
| ExampleScenes.CreatedScenePasses | source/ExampleScene.ts:56-113 | a scene holding what `createScene` adds, with resolved locations, passes its uniform pass |
| ExampleScenes.CreateAndApplyScene | source/ExampleScene.ts:56-113 | building the example scene, introspecting and applying its uniforms does not throw, clears the dirty flag, and uploads the full pass over that scene |
| Materials.Uploads | source/Material.ts:23-61 | six calls in the order diffuse, specular, emissive, reflectivity, refractivity, ior; the specular 4-vector carries shininess as its 4th component |
| Materials.UploadsTargets | source/Material.ts:23-61 | a name is written if and only if it is one of the six resolved locations |
| Materials.MaterialRoundTrip | source/Material.ts:13-61 | with every location resolved, the program reads back exactly the material |
| PointLights.Uploads | source/PointLight.ts:17-39 | three calls in the order position, intensity, falloff, each a 3-vector |
| PointLights.PointLightRoundTrip | source/PointLight.ts:17-39 | the light reads back intact and its `enabled` flag is never written |
| Renderers.FirstIncomplete | source/Renderer.ts:222-271 | the first target whose framebuffer is incomplete; all earlier ones are complete |
| Renderers.CreationOutcome | source/Renderer.ts:222-271 | creation succeeds if and only if both framebuffers are complete, storing targets 0 and 1; on failure the error names the first incomplete target, which was created but not stored |
| Renderers.NextTarget | source/Renderer.ts:350-351 | the next write target is a real slot and differs from the current one |
| Renderers.NextTwice | source/Renderer.ts:350-351 | two switches bring the write target back |
| Renderers.RenderSeparatesTargets | source/Renderer.ts:297-352 | the tracer never samples the target it writes, the target shown is the one just written, and `unsignalDrop` is called exactly on a drop |
| Renderers.AlternatingFrames | source/Renderer.ts:297-352 | consecutive frames swap the written and the sampled slot, and a drop clears both targets |
| Renderers.DisposeMatchesCreation | source/Renderer.ts:222-295 | after a complete creation, `dispose` deletes exactly the two targets created |
| Renderers.Renderer.CreateFramebuffers | source/Renderer.ts:222-271 | creates each target up to the first incomplete one, stores only the complete ones, and throws exactly when one is incomplete |
| Renderers.Renderer.constructor | source/Renderer.ts:42-43 | no targets stored, write index 0 and nothing logged, before `createFramebuffers` runs |
| Renderers.Renderer.Dispose | source/Renderer.ts:280-295 | every stored target is deleted |
| Renderers.Renderer.Render | source/Renderer.ts:297-352 | on a drop both targets are cleared and the drop is unsignalled without resetting the index; then trace, show, and switch to the other target |
| Application.App.constructor | source/App.ts:22-43 | no drop, not paused, a recreate pending, no renderer or compositor yet; the timer, camera and input are shared |
| Application.App.SignalDrop | source/App.ts:85-87 | the drop flag is set |
| Application.App.UnsignalDrop | source/App.ts:88-90 | the drop flag is cleared |
| Application.App.TogglePause | source/App.ts:91-94 | the pause flag is flipped |
| Application.TogglePairsCancel | source/App.ts:91-94 | toggling twice restores the pause flag |
| Application.App.HandleRequests | source/App.ts:85-94 | the drop flag is set if any request asked for it, however often; the pause flag flips once per pause request |
| Application.App.OnWindowResized | source/App.ts:108-115 | the canvas takes the window size, the camera the new aspect ratio, and a recreate is pending |
| Application.App.Recreate | source/App.ts:126-139 | the recreate flag is cleared and the old renderer's targets are deleted; a new renderer is built; if that succeeds, the old compositor is disposed and a fresh one is built, otherwise the error is reported and the compositor is left alone |
| Application.App.RecreateAndRender | source/App.ts:126-144 | the compositor renders one `Tick` with the drop flag as it stands, after any recreate; then the flag is cleared |
| Application.App.UpdateTimerAndInput | source/App.ts:117-124 | the loading text goes once, the timer ticks at `now`, and the input's movement signals a drop exactly when it moves |
| Application.App.OnAnimationFrame | source/App.ts:117-147 | a frame ticks the timer, updates the input, recreates if pending and renders one `Tick` that sees any drop the input raised; the pause flag is never read |
| InputHandling.Input.constructor | source/Input.ts:18-32 | no key held, a zero movement vector, not dragging, and the given camera and timer |
| InputHandling.KeysKeepUnitAxes | source/Input.ts:49-97 | key handling keeps every axis in {-1, 0, 1}, and keys outside the table change nothing |
| InputHandling.ReleaseStopsAxis | source/Input.ts:74-97 | releasing either key of an axis stops that axis and leaves the other two alone |
| InputHandling.KeysIgnoreCase | source/Input.ts:49-97 | key names match regardless of case |
| InputHandling.Input.OnKeyDown | source/Input.ts:49-72 | w/s set forward ±1, d/a right ±1, e/q up ±1, case-insensitively; other keys change nothing |
| InputHandling.Input.OnKeyUp | source/Input.ts:74-97 | releasing an axis key stops that axis; space asks for a pause toggle and p for a screenshot |
| InputHandling.Input.OnMouseDown | source/Input.ts:99-101 | dragging starts |
| InputHandling.Input.OnMouseUp | source/Input.ts:103-105 | dragging stops |
| InputHandling.Input.OnMouseMove | source/Input.ts:107-118 | while dragging, yaw and pitch turn by −dx·0.005 and −dy·0.005 and a drop is requested; otherwise nothing happens |
| InputHandling.Input.Update | source/Input.ts:120-138 | the step is the normalised axes scaled by 4·dt; the camera walks along it and a drop is requested exactly when some axis is set and dt is non-zero |
| InputHandling.NormalizeUnit | source/Input.ts:120-138 | a non-zero vector normalises to unit length |
| InputHandling.AxesVectorNonZero | source/Input.ts:120-138 | the axes vector is non-zero if and only if some axis is set |
| InputHandling.MovementLength | source/Input.ts:120-138 | the step's squared length is (4·dt)² when some axis is set and 0 otherwise |
| InputHandling.MovementGate | source/Input.ts:120-138 | the step is non-zero if and only if some axis is set and dt is non-zero |
| Timers.Tick | source/Timer.ts:17-24 | the start time is kept, the last frame time becomes `now`, dt is the span since the last frame and t the span since the start, in seconds |
| Timers.Timer.constructor | source/Timer.ts:6-15 | start and last frame times are the two clock readings; dt and t are 0 |
| Timers.Timer.Update | source/Timer.ts:17-24 | the new state is one `Tick` at `now` |
| Timers.Timer.T | source/Timer.ts:26-28 | the `t` getter reports the span since the start, in seconds |
| Timers.Timer.Dt | source/Timer.ts:29-31 | the `dt` getter reports the span of the last frame, in seconds |
| Timers.Timer.Uploads | source/Timer.ts:33-35 | one call: the app time, as a float, at the time location |
| Timers.TicksTelescope | source/Timer.ts:17-24 | over any updates the start time is kept and the frame times sum to the span from the first last-frame time to the latest reading |
| Timers.TicksPointwise | source/Timer.ts:17-24 | update i keeps the start time, records reading i, and reports the spans since reading i−1 and since the start |
| Timers.TicksMonotone | source/Timer.ts:9-24 | with a clock that never runs backwards, every dt and t is non-negative and t never decreases |
| ImageLoading.Images.constructor | source/Images.ts:7-26 | every given image is pending, none is loaded and no listener has fired |
| ImageLoading.Images.OnImageLoaded | source/Images.ts:32-39 | the image moves from pending to loaded, and the finish listener fires exactly when nothing is left pending |
| ImageLoading.Images.OnImageError | source/Images.ts:28-30 | the error listener receives the name and both maps are unchanged |
| ImageLoading.Images.GetImage | source/Images.ts:41-43 | the loaded image when it has loaded, and nothing before |
| ImageLoading.AllLoadedWhenNonePending | source/Images.ts:32-39 | nothing is pending exactly when every queued image has loaded |
| ImageLoading.MovePreservesPartition | source/Images.ts:32-35 | moving a name from pending to loaded keeps the queued names split between the two maps |
| ImageLoading.NothingQueuedNothingLoaded | source/Images.ts:15-26 | with nothing to load, both maps stay empty and the finish listener cannot fire |

The `Material` datatype gives its fields the constructor's defaults
(`source/Material.ts:13-21`): black specular and emission, shininess 1, no
reflection or refraction, and index of refraction 1.

## Left out

- Matrix numerics: `multiply` and `invert` are an abstract `MatrixLibrary`, and sine and cosine an abstract `Trig`. `perspectiveProjection`, which needs `Math.tan`, is a `Perspective` function. `source/MatrixMath.ts` is modelled only as the constant matrices `Translation`, `Scaling` and the three rotations built from `Trig`.
- Floating point: numbers are exact reals. The float32 storage of gl-matrix and of the uniforms is not modelled.
- The GLSL programs (pathtracer, blend, average, textured) are not part of this model. `Blend` and `Avg` are events, and `Reduction` follows only which frames an image is made from, not the values.
- `source/Shader.ts`, `source/RenderTarget.ts` and `source/Messenger.ts` are not part of this model. Program linking, uniform-location lookup, and texture and framebuffer allocation become named locations and target identifiers.
- `createUnitCylinder` is not part of this model, because `source/Surface.ts` does not define it. `ExampleScenes.CreateScene` takes its quadric as a parameter.
- `ExampleScenes.CreateScene`: source/ExampleScene.ts:4 imports `createUnitCylinder`, which `source/Surface.ts` does not export. As written, the call at source/ExampleScene.ts:94 therefore throws a TypeError after the materials and lights are added, and `createScene` never returns. The model assumes the cylinder exists, as a parameter, and its `r == Pass` is about that scene.
- `renderer.renderScene()` and `drawFullScreenQuad()`, which the compositor calls, are events: `RenderScene` and the drawing inside `Present`/`Blend`/`Avg`. `source/Renderer.ts` defines neither method; the next four lines say what that means for each caller.
- `Compositors.Compositor.RenderToCurrent`: source/Compositor.ts:129 calls `host.renderer.renderScene()`, which `source/Renderer.ts` does not define. As written it throws a TypeError, so every `Compositor.render` throws at its first rendering call and never reaches the state update. The model assumes a renderer that has the method and logs a `RenderScene` event.
- `Compositors.Compositor.PresentPreview`: source/Compositor.ts:169 calls the undefined `drawFullScreenQuad()`, which as written throws a TypeError after the program and textures are bound. The model assumes the method exists and logs a `Present` event.
- `Compositors.Compositor.AccumulateInto`: source/Compositor.ts:188 calls the undefined `drawFullScreenQuad()`, which as written throws a TypeError. The model assumes the method exists and logs a `Blend` event.
- `Compositors.Compositor.AvgInto`: source/Compositor.ts:212 calls the undefined `drawFullScreenQuad()`, which as written throws a TypeError. The model assumes the method exists and logs an `Avg` event.
- `Renderers.Renderer`: shader and geometry creation and the order of GL state calls are left out; only the ping-pong logic, framebuffer creation and `dispose` are modelled.
- `Cameras.Camera.Update`: the view, projection and view-projection matrices and the homogeneous basis vectors are locals, since no other method reads them; their values come from the abstract library.
- `InputHandling.Input.Update`: `Math.sqrt` is the caller's `norm`. The "length > 0" test on the float32 vector is modelled as "the vector is non-zero", which is the same over exact reals.
- `InputHandling.Lower`: `toLowerCase` folds only ASCII letters. That suffices for the key names the handlers compare against.
- `InputHandling.Input.OnMouseMove`: source/Input.ts:44-46 also route `touchstart`, `touchend` and `touchmove` to the mouse handlers. A touch event has no `movementX`/`movementY`, so while dragging `rotate` receives NaN and yaw and pitch stay NaN from then on, since `rotate` does not clamp. The model's real-valued `dx` and `dy` cannot express this: it covers mouse events only.
- The DOM, the canvas, `requestAnimationFrame`, `addEventListener` registration, the loading and paused texts and `console.log` are the host's.
- `Application.App.HandleRequests`: a screenshot request changes nothing. In the source the keyup handler calls `host.takeScreenshot()` (source/Input.ts:94), which App.ts does not define, so pressing that key throws a TypeError.
- `Application.App.OnWindowResized`: requires a non-zero window height. Division by zero in JavaScript gives Infinity or NaN, which exact reals cannot represent.
- `Application.App.OnAnimationFrame`: a throw from framebuffer creation ends the frame and is returned. The next `requestAnimationFrame`, which the throw skips, is the host's.
- `Date.now()` is a parameter: the timer's constructor takes two readings and `Update` takes one.
- `ImageLoading.Images`: the browser creating one image element per entry in `startLoading` is modelled as the set of queued names. The order in which load events arrive is the caller's.
- `Application.App.constructor`: source/App.ts:8 imports `createImagesToLoad`, which `source/ExampleScene.ts` does not export. As written, the call at source/App.ts:39 throws a TypeError, and the `createScene()` call at source/App.ts:34 already throws before it (see `ExampleScenes.CreateScene`), so the constructor never completes. The model assumes a scene and an image list that exist.
- `Application.App.constructor`: the scene (`createScene()`, source/App.ts:34) and the image loader (source/App.ts:38-42) are not fields of the model. `onImagesLoaded` and `onImageError` (source/App.ts:149-159) are left out, so the model does not capture that the first resize and frame wait for every image to load. `ImageLoading.Images` and `ExampleScenes.CreateScene` model those two parts on their own.
- `Application.App.Recreate`: building the compositor is assumed to succeed. In the source `createResources` can throw, from a framebuffer check (source/RenderTarget.ts:48-50, once per target) or from shader compilation and linking (source/Shader.ts:26-93); neither is modelled.
- `ExampleScenes.CreateScene`: `ROOM_WALLS` (source/ExampleScene.ts:15) is a module constant, so every scene built by `createScene` shares the same six wall objects. The model builds fresh walls on each call, and does not capture that transforming a wall of one scene would change it in every other scene.
- `Compositors.Compositor.Dispose`: only the calls and the emptied pool are stated. Wrong use after dispose (rendering into deleted targets) is not modelled.

## Findings

| source | as written | input that shows it | evidently intended | confidence | as-written member | corrected member |
|---|---|---|---|---|---|---|
| source/Compositor.ts:230 | the reduction loop runs `while (half > 1)`, so the round with half = 1, whose only pair is (0, n/2), never runs | any full batch of 16 frames: pool slots 8..15 are reduced into pool[8], which is never merged, so the accumulator receives frames 0..7 of the first batch, and frames 1..7 of every later batch | run the rounds down to half = 1, so that every frame the batch rendered reaches the accumulator: all 16 in the first batch, frames 1..15 in later ones, since pool[0] then holds the previous reduction | not executed | Reduction.BatchMissesUpperHalf | Reduction.CompleteBatchMergesAll |
| source/Compositor.ts:104-123 | `dispose` deletes the blend program but not the average program that `createResources` created | `createResources` then `dispose`: the average program is still allocated, and each window resize leaks one more | delete the average program as well | not executed | Compositors.LiveAfterDispose | Compositors.CompleteDisposeFreesAll |

The `Compositor` class, `Tick` and everything built on them follow the
source as written: `ReducePool` stops at `half > 1`, and `Dispose` leaves the
average program allocated. Their calls are `ReductionOps`, `AccumulateOps`
and `DisposeOps`. The corrected definitions are the functions
`CompleteReductionOps`, `CompleteAccumulateOps` and `CompleteDisposeOps`. The
lemmas in the corrected column, with `CompleteReductionExtends`,
`CompleteReductionWellFormed` and `CompleteAccumulationWellFormed`, are
proved about those functions.
