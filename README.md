# Clustered renderer core: grid resolution, camera payload, renderer switching

A Dafny model of the sequential part of a WebGPU renderer with Forward+ and
Clustered Deferred light culling. The model covers three things:

- **Cluster grid** (`ClusterGrid`, `cluster_grid.dfy`). The canvas is cut into
  `clusterSize`-pixel tiles and the view frustum into depth slices. The model covers
  the minimum-cluster-size tiers, ceiling division, and the depth-slice count
  `max(8, round(28·√(32/s)))`.
- **Camera** (`CameraState`, `camera.dfy`). This covers:
  - the 40-slot float view and the 8-slot int view of the per-frame uniform payload;
  - the setters that write into those views;
  - the camera-wide settings, which are static members in the source;
  - the clamped pitch;
  - the uniform filling done on every frame.
- **Renderer lifecycle** (`RenderLoop`, `render_loop.dfy`, and `AppDriver`,
  `app_driver.dfy`). A renderer requests a frame when it is built, requests the
  next one from inside each frame, and cancels the pending one when stopped.
  The application driver always stops the active renderer before it builds a
  new one. The result is that at most one renderer has a frame pending.

Key modelling points:

- The browser's frame request is a `scheduled` flag on the renderer.
- The `Driver` object stands for the module-level `renderer` and `paused`
  variables of `src/main.ts`.
- The driver's ghost set `built` records every renderer it has constructed.
  `Driver.Valid()` says that only the active renderer can be scheduled, and
  every driver method preserves it.
- Canvas width and height, the render-mode drop-down value, and the matrices
  from the matrix library are parameters.
- `Renderer.OnFrame` and `Driver.AnimationFrame` require a pending frame
  request. The browser invokes the frame callback only for a request that has
  not been cancelled.

`round(28·√(32/s))` is modelled exactly over the reals, using integers only.
In the source, `Math.round` rounds half up. So for `n ≥ 1` we have
`n ≤ round(28·√(32/s))` exactly when `s·(2n − 1)² ≤ 4·28²·32 = 100352`
(`AtMostRounded`). `RoundedDepthTerm` is the largest such `n`, found by a
bounded search.

Three behaviours of the code that are easy to get wrong:

- An 800×600 canvas with 32-pixel clusters gets 28 depth slices, not 19:
  `round(28·√1) = 28`. The grid is 25 × 19 × 28 (`Grid800x600`).
- The minimum-cluster-size tiers use strict `<`. So 800×600 is already in the
  32 tier, not the 16 tier, and 1920×1080 is in the 64 tier, not the 32 tier
  (`MinClusterSizeAtTierBoundaries`).
- A cluster-size change does not rebuild the whole session. `changeClusterSize`
  stops the renderer, updates the camera's static grid, and builds a new
  renderer. The camera and the light set are kept (`ChangeClusterSize` keeps
  the other camera settings).

## Model

| member | source | states |
|---|---|---|
| `ClusterGrid.MinClusterSize` | src/renderer.ts:110-115 | the result is one of 16, 32, 64 or 128; it is 16 exactly when the area is below 800·600, 32 exactly when it is in [800·600, 1920·1080), 64 exactly when it is in [1920·1080, 2560·1440), and 128 otherwise |
| `ClusterGrid.MinClusterSizeMonotone` | src/renderer.ts:112-115 | a canvas of larger area never gets a smaller minimum cluster size |
| `ClusterGrid.MinClusterSizeAtTierBoundaries` | src/renderer.ts:112-115 | the tier bounds are strict: 799×600 → 16, 800×600 → 32, 1920×1080 → 64, 2560×1440 → 128 |
| `ClusterGrid.DivUp` | src/renderer.ts:133-134 | ceiling division: `r·b ≥ a > (r − 1)·b`, so `r` tiles of size `b` cover `a` pixels and `r − 1` tiles do not |
| `ClusterGrid.TilesUnique` | src/renderer.ts:133-134 | only one tile count covers an extent in that sense |
| `ClusterGrid.DivUpAntitone` | src/renderer.ts:133-134 | a smaller tile size never needs fewer tiles |
| `ClusterGrid.RoundedSearch` | src/renderer.ts:129 | returns the largest candidate in `[0, n]` that is at most `round(28·√(32/s))` |
| `ClusterGrid.RoundedDepthTerm` | src/renderer.ts:129 | the result `r` satisfies `r − ½ ≤ 28·√(32/s) < r + ½`, i.e. `r` is the half-up rounding |
| `ClusterGrid.RoundedDepthTermUnique` | src/renderer.ts:129 | those two bounds determine the rounded value uniquely |
| `ClusterGrid.RoundedDepthTermAntitone` | src/renderer.ts:129 | a smaller cluster size never gives a smaller rounded term |
| `ClusterGrid.NumDepthSlices` | src/renderer.ts:127-130 | the depth-slice count is at least 8 and at least the rounded term, and equals one of the two |
| `ClusterGrid.GetClusterParams` | src/renderer.ts:118-139 | numX and numY tile the canvas width and height; numZ ≥ 8; the result echoes the cluster size and the canvas width and height; the result is `WellFormed` |
| `ClusterGrid.WellFormedIffComputed` | src/renderer.ts:127-139 | a record is `WellFormed` if and only if it equals what getClusterParams returns for its own cluster size and canvas |
| `ClusterGrid.DefaultClusterParamsNotWellFormed` | src/renderer.ts:30-32 | the placeholder record (16×16×16 for 800×600 at size 32) is not a computed grid |
| `ClusterGrid.GridAntitone` | src/renderer.ts:127-134 | shrinking the cluster size never decreases numX, numY, numZ or the total cluster count |
| `ClusterGrid.ReferenceSizeDepthSlices` | src/renderer.ts:127-130 | cluster size 32 gives exactly 28 depth slices |
| `ClusterGrid.Grid800x600` | src/renderer.ts:127-139 | an 800×600 canvas at size 32 gives the grid 25 × 19 × 28 |
| `ClusterGrid.DepthSlicesAtOtherSizes` | src/renderer.ts:127-130 | sizes 8, 64 and 128 give 56, 20 and 14 depth slices |
| `CameraState.PayloadSizes` | src/stage/camera.ts:14-20 | the float payload is 40 slots (160 bytes) and the int payload is 8 slots (32 bytes) |
| `CameraState.FloatLayoutDisjoint` | src/stage/camera.ts:23-54 | the float setters' slot ranges are pairwise disjoint; they run contiguously from slot 0; they end where the padding slots 37..39 begin |
| `CameraState.IntLayoutDisjoint` | src/stage/camera.ts:57-65 | the grid parameters fill int slots 0..6, and slot 7 is padding |
| `CameraState.ToInt32` | src/stage/camera.ts:21 | an Int32Array element holds the 32-bit value congruent to the integer stored; in-range values are kept unchanged |
| `CameraState.ToInt32Unique` | src/stage/camera.ts:21 | that 32-bit value is the only one congruent to the input |
| `CameraState.CameraUniforms.constructor` | src/stage/camera.ts:13-21 | both views start at their layout sizes and all zeros |
| `CameraState.CameraUniforms.SetViewProjMat` | src/stage/camera.ts:23-28 | slots 0..15 get `mat[0..15]`; every other slot is unchanged; the padding stays zero |
| `CameraState.CameraUniforms.SetViewMat` | src/stage/camera.ts:32-36 | slots 16..31 get `mat[0..15]`; every other slot is unchanged |
| `CameraState.CameraUniforms.SetNearFar` | src/stage/camera.ts:38-41 | slots 32 and 33 get the two values; every other slot is unchanged |
| `CameraState.CameraUniforms.SetFrustumSlopeX` | src/stage/camera.ts:43-45 | slot 34 gets the slope; every other slot is unchanged |
| `CameraState.CameraUniforms.SetFrustumSlopeY` | src/stage/camera.ts:47-49 | slot 35 gets the slope; every other slot is unchanged |
| `CameraState.CameraUniforms.SetExposureOffset` | src/stage/camera.ts:51-54 | slot 36 gets the exposure offset; every other slot is unchanged |
| `CameraState.CameraUniforms.SetDevClusterParams` | src/stage/camera.ts:57-65 | int slots 0..6 get numX, numY, numZ, clusterSize, canvasSizeX, canvasSizeY and the light search radius, as 32-bit values; slot 7 is unchanged |
| `CameraState.IntPayload` | src/stage/camera.ts:57-65 | the int payload is 7 slots, each one a 32-bit value |
| `CameraState.IntPayloadExact` | src/stage/camera.ts:57-65 | a computed grid for a canvas below 2³¹ pixels a side reaches the int payload field for field, with no wrap-around |
| `CameraState.CameraSettings.constructor` | src/stage/camera.ts:83-95 | the static settings start at cluster size 32, the placeholder grid, exposure 0, faux far plane 15 and light search radius 2 |
| `CameraState.CameraSettings.UpdateClusterSize` | src/stage/camera.ts:141-146 | sets the cluster size to the new value and the grid to getClusterParams of that value and the canvas; the other settings are unchanged |
| `CameraState.ClampPitch` | src/stage/camera.ts:176-181 | the result is in [−89, 89]; an in-range pitch is kept; a pitch outside the range goes to the nearer bound |
| `CameraState.ClampPitchNearest` | src/stage/camera.ts:176-181 | the clamped pitch is the allowed pitch closest to the requested one |
| `CameraState.Camera.constructor` | src/stage/camera.ts:99-124 | builds a payload whose float and int slots are all zero; recomputes the grid for the current cluster size and canvas; keeps the cluster size, exposure, faux far plane and light search radius; starts at yaw 0 and pitch 0 |
| `CameraState.Camera.RotateCamera` | src/stage/camera.ts:172-181 | yaw becomes old yaw + dx; pitch becomes clamp(old pitch − dy, −89, 89); so pitch always stays within ±89 |
| `CameraState.Camera.OnFrame` | src/stage/camera.ts:244-271 | the payload gets: the view-projection and view matrices; near plane 0.1 and the faux-far-plane setting; the two slopes, with X = aspect·Y; the exposure; the current grid and light search radius in the int view; padding untouched |
| `RenderLoop.FrameDelta` | src/renderer.ts:193-197 | on the first frame (previous time 0) the step is 0; otherwise previous time + step = time |
| `RenderLoop.FrameDeltas` | src/renderer.ts:192-207 | a run of frames reports one step per frame: the first measured from the starting previous time, every later one from the frame before it |
| `RenderLoop.FrameDeltasTelescope` | src/renderer.ts:192-207 | with positive timestamps, the steps of a run of frames add up to the time elapsed since the first frame (or since the earlier frame, if one had run) |
| `RenderLoop.Renderer.constructor` | src/renderer.ts:176-183 | a new renderer has a frame scheduled and previous time 0 |
| `RenderLoop.Renderer.Stop` | src/renderer.ts:185-187 | the pending frame is cancelled; the timing state is kept |
| `RenderLoop.Renderer.OnFrame` | src/renderer.ts:192-209 | reports `FrameDelta(old prevTime, time)`; records the time; schedules the next frame |
| `AppDriver.ParseMode` | src/main.ts:45-56 | a drop-down value selects the mode whose label it equals; a value equal to no label selects nothing |
| `AppDriver.ParseModeName` | src/main.ts:59-63 | "naive", "forward+" and "clustered deferred" select Naive, Forward+ and Clustered Deferred; the labels are distinct |
| `AppDriver.ParseModeRejects` | src/main.ts:45-56 | the empty string, "Naive" and "forward" select nothing (there is no default branch) |
| `AppDriver.Driver.constructor` | src/main.ts:20-40 | starts with no renderer, not paused, nothing built |
| `AppDriver.Driver.ValidAtMostOneScheduled` | src/main.ts:42-57 | the driver invariant implies that at most one of the renderers built has a frame pending |
| `AppDriver.Driver.SetRenderer` | src/main.ts:42-57 | stops the previous renderer (if any); a known mode builds a fresh renderer of that mode, scheduled and holding the current grid; an unknown mode leaves the stopped renderer in place; the invariant is kept |
| `AppDriver.Driver.ToggleRenderer` | src/main.ts:74-82 | sets `paused` to the value; true does what `SetRenderer` does (a known mode adds one fresh scheduled renderer holding the current grid to `built`; an unknown mode leaves renderer and `built` as they were); false stops the active one and leaves nothing scheduled; earlier renderers keep their timing; the invariant is kept |
| `AppDriver.Driver.ToggleRendererAsIntended` | src/main.ts:74-82 | corrected handler: pausing leaves nothing scheduled; resuming does what `SetRenderer` does, with the same `built`, grid and unknown-mode clauses; the invariant is kept |
| `AppDriver.Driver.ChangeClusterSize` | src/main.ts:92-98 | stops the renderer, sets the cluster size and the recomputed grid, then builds the selected renderer, which holds the new grid and starts with previous time 0; an unknown mode leaves renderer and `built` as they were; exposure, faux far plane, light search radius and earlier renderers' timing are kept; at most one renderer stays scheduled |
| `AppDriver.Driver.AnimationFrame` | src/renderer.ts:182-208 | a pending frame can only belong to the active renderer; it reports the frame step and re-arms |
| `AppDriver.PauseAsWrittenKeepsRendering` | src/main.ts:74-84 | with the handler as written, checking "paused" leaves the driver paused with a renderer still scheduled |
| `AppDriver.PauseAsIntendedStopsRendering` | src/main.ts:74-84 | with the corrected handler, a paused driver keeps its invariant and none of the renderers it built has a frame pending |

## Findings

| source | as written | input that shows it | evidently intended | confidence | as-written member | corrected member |
|---|---|---|---|---|---|---|
| src/main.ts:74-82 | `toggleRenderer(true)` rebuilds and starts the selected renderer, and `toggleRenderer(false)` stops it; the checkbox bound to it is labelled "paused" | tick "paused" while Forward+ runs: `paused` becomes true and a fresh renderer is scheduled | ticking "paused" stops rendering and unticking rebuilds the renderer | medium, not executed | `AppDriver.PauseAsWrittenKeepsRendering` | `AppDriver.Driver.ToggleRendererAsIntended` |

## Left out

- The Clustered Deferred renderer's GPU textures, pipelines, bind groups and pass encoding are not modelled. They are calls into the WebGPU API. The light-clustering compute pass and the shaders are not part of this model.
- Matrix and vector math is not modelled: `perspective`, `lookAt`, the multiplication, the front/right/up vectors computed from yaw and pitch, and the movement in `processInput`. This is floating-point work done by the matrix library. Its results enter `Camera.OnFrame` as parameters.
- `CameraState.Camera.OnFrame`: this does not model `processInput` or the calls that upload the two buffers to the device (`writeBuffer`). The slope `tan(fov/2)` is a parameter, because it is trigonometric. The real far plane (1000) enters only the projection matrix, which is not modelled.
- `CameraState.CameraUniforms.SetViewProjMat`: slots hold real numbers, so rounding to 32-bit floats is not modelled. This applies to every float setter. A matrix argument with fewer than 16 entries would write NaN in JavaScript; it is excluded by the precondition.
- `ClusterGrid.RoundedDepthTerm`: this is the exact real-number rounding of `28·√(32/s)`. The IEEE-754 rounding of `Math.pow` and of the product is not modelled. The two could differ only where the real value lies within one floating-point rounding error of a half-integer.
- `ClusterGrid.GetClusterParams`: this does not model the lazy `initWebGPU` call or the reads of canvas size from the page. The canvas size is a parameter. Cluster sizes are taken to be positive integers. The slider at src/main.ts:100 has the fixed bounds 8 and 64 and sets no step, so fractional sizes are possible in the source; they are not modelled (with one, int slot 3 would hold the truncated size while numX, numY and numZ use the fractional one). The slider's lower bound is the constant 8, not `getMinClusterSize`. Nothing in src/main.ts calls `getMinClusterSize`.
- `ClusterGrid.DivUp`: `divUp` comes from `math_util`, which is not part of this model. It is taken to be ceiling division, `(a + b - 1) / b` for positive `b`.
- `ClusterGrid.MinClusterSize`: this does not model the writes of the device-pixel-scaled canvas size. Width and height are parameters.
- `RenderLoop.Renderer.OnFrame`: this covers only timing and re-arming. The calls it makes to `camera.onFrame`, `lights.onFrame`, the statistics panel and `draw` are not part of it. `Camera.OnFrame` models the camera's part separately.
- `CameraState.CameraSettings.UpdateClusterSize`: the `console.log` calls are logging and are not modelled.
- `CameraState.CameraUniforms.SetDevClusterParams`: the light search radius is taken to be an integer. A fractional radius would be truncated by the Int32Array, and that is not modelled.
- `initWebGPU` is not modelled. The GUI construction, scene loading and statistics panel are not modelled either. The same goes for the light-count slider and the far-plane slider. The far-plane slider calls a camera method that the camera does not define. All of this is page, GPU or asset I/O.
- The camera's `updateExposureOffset`, `updateLightRadius` and `updateFauxFarPlane` are not modelled. Each is a one-line assignment to a static setting, outside the modelled operations. `OnFrame` reads the settings they write.
- The light-count plotting script is not modelled; it is benchmark plotting only.
