# Volumetric fog grid, modelled in Dafny

The fog demo fills a box with translucent cubes (the `VolumetricGrid`). Each
frame, every visible cube is pushed away from its rest position by a smooth
noise field. Its translucency is also set from the noise and from its distance
to the camera. The grid can be reconfigured while running: a layout change
erases the tracked cubes and requests a new population. A cosmetic change only
stores the new values.

This project models that core:

- `Noise` (`noise.dfy`) is the `PerlinNoise` value noise. It has the 32-bit
  integer hash with explicit two's-complement wrap-around, the smoothstep fade
  curve, and the blend of two neighbouring lattice values.
- `CubeMotion` (`motion.dfy`) is the per-frame arithmetic of
  `updateCubePosition`, `updateCubeAlpha` and `lerp`.
- `Lattice` (`lattice.dfy`) is the loop nest of `initializeCubes`: which
  counters it visits, how many, and in which order.
- `Grid` (`grid.dfy`) is the `VolumetricGrid` state machine over an abstract
  engine world:
  - the constructor;
  - `updateGrid`;
  - `initializeCubes`;
  - the asynchronous load-completion callback of `createCube`, as its own event
    `Complete`;
  - `update`.
- `GridFacts` (`grid_facts.dfy`) proves properties of the events taken
  together. `GridScenarios` (`grid_scenarios.dfy`) works through small
  two-cube runs.

Helpers for real arithmetic live in `Reals` (`reals.dfy`).

The model follows the code as written. Three consequences are worth stating:

- **The alpha is not confined to `[alphaMin, alphaMax]`.** The noise lies in
  (-1, 1], and it is used directly as the interpolation factor, so the alpha
  can fall below `alphaMin`. `CubeMotion.AlphaBelowMinimum` shows this at
  noise coordinate 0 with the default range. `CubeMotion.AlphaInRangeForNarrowBand`
  proves the bound `[0, alphaMax]` that does hold when `alphaMax <= 2 alphaMin`.
  With the full slider range `alphaMin = 0`, `alphaMax = 1` the alpha can even be
  negative (`CubeMotion.AlphaNegativeForFullRange`).
- **`cubes` and `cubeOrigins` are not in one-to-one correspondence.**
  - An origin is recorded when a cube is requested, but the cube joins `cubes`
    only when its completion callback fires.
  - `cubeOrigins` is never cleared, so the entries of erased cubes stay.
  - What does hold is kept in `Grid.WellFormed`: every tracked cube has an origin.
- **There is no generation counter.** A rebuild erases only the cubes already
  in `cubes`. A cube still loading stays in the scene, and when it completes it
  joins the new `cubes` with its old origin
  (`GridFacts.LateCompletionJoins`). It can then share a rest position with a
  cube of the new population (`GridScenarios.RebuildWhileLoading`).

## Model

| member | source | states |
|---|---|---|
| `Noise.Mix` | GLViewNewModule.h:39-40 | The shift-xor-multiply step on the 32-bit pattern stays a 32-bit pattern. Its wrap-around is exercised by `Noise.HashAtZero`, `Noise.HashAtOne` and `Noise.HashAtMinusOne`. |
| `Noise.Masked` | GLViewNewModule.h:39-40 | The mixed 32-bit value with its sign bit cleared lies in [0, 2^31). |
| `Noise.Hash` | GLViewNewModule.h:38-41 | Every lattice value lies in (-1, 1]. |
| `Noise.HashWraps` | GLViewNewModule.h:38-40 | The hash sees its `int` argument only modulo 2^32: shifting by 2^32 either way gives the same value. |
| `Noise.HashAtZero` | GLViewNewModule.h:38-41 | At 0 the masked value is 1376312589, so the lattice value and the noise at 0 are negative. |
| `Noise.HashAtOne` | GLViewNewModule.h:38-41 | At 1, where `(x << 13) ^ x` is 8193, the masked value is 1316808037 and the lattice value is negative. |
| `Noise.HashAtMinusOne` | GLViewNewModule.h:38-41 | At -1, where the shift wraps and `(x << 13) ^ x` is 8191, the masked value is 107238581 and the lattice value is positive. |
| `Noise.Fraction` | GLViewNewModule.h:25-28 | The blend parameter `x - x0` lies in [0, 1), and `x` is `x0` plus it. |
| `Noise.Smoothstep` | GLViewNewModule.h:34-36 | The fade curve `t^2 (3 - 2t)`. Its end points, range, monotonicity and symmetry are the four `Noise.Smoothstep*` lemmas. |
| `Noise.SmoothstepEnds` | GLViewNewModule.h:34-36 | The fade curve maps 0 to 0, 1 to 1 and 1/2 to 1/2. |
| `Noise.SmoothstepInUnit` | GLViewNewModule.h:34-36 | The fade curve maps [0, 1] into [0, 1]. |
| `Noise.SmoothstepMonotone` | GLViewNewModule.h:34-36 | The fade curve does not decrease on [0, 1]. |
| `Noise.SmoothstepSymmetric` | GLViewNewModule.h:34-36 | The fade curve is point-symmetric: `s(1 - t) = 1 - s(t)`. |
| `Noise.Blend` | GLViewNewModule.h:28-31 | The weighted sum `w0 h0 + w1 h1` with `w1 = smoothstep(t)`. It is a convex combination (`Noise.BlendIsConvex`), lies between its inputs (`Noise.BlendBetween`) and meets them at t = 0 and 1 (`Noise.BlendEnds`). |
| `Noise.BlendIsConvex` | GLViewNewModule.h:28-31 | Both weights lie in [0, 1] and sum to 1, so the blend is a convex combination of the two lattice values. |
| `Noise.BlendBetween` | GLViewNewModule.h:28-31 | The blend lies between the smaller and the larger lattice value. |
| `Noise.BlendEnds` | GLViewNewModule.h:28-31 | At t = 0 the blend is the left value and at t = 1 the right one. |
| `Noise.Sample` | GLViewNewModule.h:24-32 | The noise lies in (-1, 1]. |
| `Noise.SampleAtInteger` | GLViewNewModule.h:24-32 | At an integer the noise equals the lattice value there. |
| `Noise.SampleBetweenNeighbours` | GLViewNewModule.h:24-32 | The noise lies between the lattice values of `floor(x)` and `floor(x) + 1`. |
| `Noise.SampleIsConvexCombination` | GLViewNewModule.h:24-32 | The noise is the convex combination of the neighbours' values, with weight `smoothstep(x - floor(x))` on the right one. |
| `Noise.SampleContinuousAtLattice` | GLViewNewModule.h:24-32 | The blend of each cell meets the noise values at both of its lattice points, so the pieces join continuously. |
| `CubeMotion.ScaledNoiseBounded` | GLViewNewModule.cpp:263-265 | A noise value scaled by `m` is at most `m` in magnitude. |
| `CubeMotion.MaxDisplacement` | GLViewNewModule.cpp:229 | `spacing * displacement`, the bound on each axis's offset stated by `CubeMotion.AxisOffset`, `CubeMotion.Displaced` and `Grid.AnimateNearOrigin`. |
| `CubeMotion.AxisOffset` | GLViewNewModule.cpp:262-265 | The offset along one axis is at most the maximal displacement in magnitude. |
| `CubeMotion.Displaced` | GLViewNewModule.cpp:261-268 | The new position is within the maximal displacement of the origin along each axis. |
| `CubeMotion.DisplacedAtZeroIsOrigin` | GLViewNewModule.cpp:263-267 | With zero maximal displacement the cube sits exactly at its origin. |
| `CubeMotion.DepthCue` | GLViewNewModule.cpp:272-273 | The depth-cueing factor lies in (0, 1] for every camera distance. |
| `CubeMotion.DepthCueDecreasing` | GLViewNewModule.cpp:273 | The depth-cueing factor does not increase with the distance. |
| `CubeMotion.Lerp` | GLViewNewModule.cpp:179-181 | `lerp`. Its end points and ranges are `CubeMotion.LerpEnds`, `CubeMotion.LerpBetween` and `CubeMotion.LerpOfNoiseRange`. |
| `CubeMotion.LerpEnds` | GLViewNewModule.cpp:179-181 | The interpolation gives `start` at factor 0 and `end` at factor 1. |
| `CubeMotion.LerpBetween` | GLViewNewModule.cpp:179-181 | For a factor in [0, 1] the interpolation stays within [start, end]. |
| `CubeMotion.LerpOfNoiseRange` | GLViewNewModule.cpp:179-181 | For a factor in [-1, 1] the interpolation stays within [2 start - end, end]. |
| `CubeMotion.AlphaArgument` | GLViewNewModule.cpp:274 | The noise coordinate `frequency (t + ox + oy + oz)` of the alpha sample. It depends only on the origin and the clock, so `Grid.AnimateForgetsPosition` holds. |
| `CubeMotion.Alpha` | GLViewNewModule.cpp:271-275 | The alpha of `updateCubeAlpha`. Its shape and bounds are `CubeMotion.AlphaShape`, `CubeMotion.AlphaInRangeForNarrowBand`, `CubeMotion.AlphaBelowMinimum` and `CubeMotion.AlphaNegativeForFullRange`. |
| `CubeMotion.AlphaShape` | GLViewNewModule.cpp:273-275 | The alpha is the interpolated value times the depth-cueing factor. It keeps the interpolated value's sign and does not exceed it in magnitude. |
| `CubeMotion.AlphaInRangeForNarrowBand` | GLViewNewModule.cpp:274-275 | When `0 <= alphaMin <= alphaMax <= 2 alphaMin`, the alpha lies in [0, alphaMax] for every noise value. |
| `CubeMotion.AlphaBelowMinimum` | GLViewNewModule.cpp:274-275 | With the default range 0.95 to 1.0, the interpolated alpha and the alpha at the camera fall below `alphaMin`. |
| `CubeMotion.AlphaNegativeForFullRange` | GLViewNewModule.cpp:271-275 | With `alphaMin = 0` and `alphaMax = 1`, both allowed by the sliders, the alpha of a cube at the camera is the noise value itself. At noise coordinate 0 that value is negative. |
| `Lattice.Indices` | GLViewNewModule.cpp:247-249 | The counter triples of the loop nest, in visiting order. The loop nest is characterised by `Lattice.IndicesLength`, `Lattice.IndicesMembers`, `Lattice.IndicesOrdered` and `Lattice.IndicesDistinct`. |
| `Lattice.IndicesLength` | GLViewNewModule.cpp:247-249 | The loop nest runs `length * width * depth` times, and not at all when a dimension is zero or negative. |
| `Lattice.IndicesMembers` | GLViewNewModule.cpp:247-249 | A counter triple is visited exactly when it lies in the box `[0, length) x [0, width) x [0, depth)`. |
| `Lattice.IndicesOrdered` | GLViewNewModule.cpp:247-249 | The triples are visited in strictly increasing lexicographic order, `x` outermost. |
| `Lattice.IndicesDistinct` | GLViewNewModule.cpp:247-249 | No triple is visited twice. |
| `Grid.Spacing` | GLViewNewModule.cpp:218-220 | The centre-to-centre distance `gap + 4 scale`, shared by the constructor and `updateGrid` (cpp:201-203). Its use is stated by `Grid.Construct` and `Grid.UpdateGrid`, which ensure `spacing == gap + 4.0 * scale`. |
| `Grid.GridPosition` | GLViewNewModule.cpp:250-252 | The rest position `(i, j, k) * spacing` of the loop counters. `GridFacts.InitializeCubesRecords` and `GridFacts.InitializeCubesCoversBox` state that every box position gets a cube there. |
| `Grid.NewCube` | GLViewNewModule.cpp:282-288 | A cube just returned by `createCube`: visible, in the scene, not finalized, at `pos` with the given size. `Grid.PopulateRecords` and `Grid.Request` state that each request creates exactly this object. |
| `Grid.OriginOf` | GLViewNewModule.cpp:237 | `cubeOrigins[cube]`, a zero vector for a missing key. `Grid.AnimateCubes` states that the loop's lookups leave every `OriginOf` value unchanged and add keys only for tracked cubes. |
| `Grid.ResizeNeeded` | GLViewNewModule.cpp:188 | A rebuild is needed exactly when length, width, depth, scale or gap differ. |
| `Grid.Request` | GLViewNewModule.cpp:254-255 | One `createCube` call plus the `cubeOrigins` write. Handle `next` and nothing else joins `pending`. It gets origin `pos` and a new visible cube at `pos` of the grid scale. Every other origin and object is kept, `next` advances by one, and the parameters and `cubes` are unchanged. It keeps well-formedness (`GridFacts.RequestWellFormed`). |
| `Grid.InitializeCubes` | GLViewNewModule.cpp:246-259 | `initializeCubes`: one request per loop position. What each request records is `GridFacts.InitializeCubesRecords`, and that every box position is covered is `GridFacts.InitializeCubesCoversBox`. |
| `Grid.Populate` | GLViewNewModule.cpp:246-259 | The requests use the next run of fresh handles. Exactly those handles become pending and gain an origin and an object. `cubes` is unchanged. |
| `Grid.PopulateKeepsOlder` | GLViewNewModule.cpp:254-255 | Requests leave every earlier origin and object unchanged. |
| `Grid.PopulateRecords` | GLViewNewModule.cpp:250-255 | The n-th request creates handle `next + n` as a new visible cube at the n-th position, with that position as its origin. |
| `Grid.Hide` | GLViewNewModule.cpp:206-209 | Every tracked cube becomes invisible and leaves the scene, and its position, size, tint and finalization are kept. Every other object is unchanged. |
| `Grid.Construct` | GLViewNewModule.cpp:215-223 | The constructor stores the layout with the declared defaults 0.15, 0.04, 0.95 and 1.0. It sets spacing to `gap + 4 scale` and tracks no cube yet. It requests one cube per box position: exactly the `length * width * depth` handles from `next` on are pending and have an origin, and each has an object. |
| `Grid.UpdateGrid` | GLViewNewModule.cpp:183-213 | All nine parameters and the spacing are stored. Without a layout change nothing else changes. With one, `cubes` is emptied and exactly `Count` fresh handles become pending with origins. |
| `Grid.Complete` | GLViewNewModule.cpp:290-296 | A pending cube's completion appends it to `cubes` and finalizes it. The cube's visibility, place in the scene, position, size and tint are unchanged. Any other handle changes nothing. Origins and other objects are untouched. |
| `Grid.Animate` | GLViewNewModule.cpp:239-241 | Animating a cube changes only its position and tint, and always sets a fog tint. |
| `Grid.AnimateNearOrigin` | GLViewNewModule.cpp:261-268 | An animated cube is within `spacing * displacement` of its origin along each axis. |
| `Grid.AnimateForgetsPosition` | GLViewNewModule.cpp:261-268 | Displacement does not accumulate: the result ignores the cube's previous position, and animating twice in one frame equals animating once. |
| `Grid.FrameStepSettles` | GLViewNewModule.cpp:239-242 | The per-cube step of a frame keeps visibility and is idempotent. |
| `Grid.AnimateRun` | GLViewNewModule.cpp:236-243 | The loop of `update` over `cubes` in order. It keeps the set of objects, and `Grid.AnimateRunPointwise` states its effect object by object. |
| `Grid.AnimateRunPointwise` | GLViewNewModule.cpp:236-243 | After the loop, each visible tracked object has been stepped once from its origin, even when listed twice. Every other object is unchanged. |
| `Grid.AnimateCubes` | GLViewNewModule.cpp:236-243 | The loop computes the stepped objects. Reading the origins inserts a zero origin for every tracked cube without one and changes no other lookup. |
| `Grid.Update` | GLViewNewModule.cpp:225-244 | The clock advances by 0.07. Each visible tracked cube is animated from its origin at the new time, and every other object stays as it was. `cubes`, parameters and lookups are unchanged, and well-formedness is kept. |
| `GridFacts.ConstructRecords` | GLViewNewModule.cpp:215-223 | The constructor's n-th request is handle `next + n`. It is pending, and its origin and its new visible cube of the given scale are at `(i, j, k) * (gap + 4 scale)` for the n-th loop counters `(i, j, k)`. |
| `GridFacts.InitializeCubesRecords` | GLViewNewModule.cpp:246-258 | The n-th request of `initializeCubes` is handle `next + n`. Its origin and its new visible cube are at the n-th loop position. |
| `GridFacts.InitializeCubesCoversBox` | GLViewNewModule.cpp:246-258 | Every position of the box gets a freshly requested cube with origin `(i spacing, j spacing, k spacing)`. |
| `GridFacts.ResizeRetiresTrackedOnly` | GLViewNewModule.cpp:205-211 | A rebuild hides and erases exactly the tracked cubes. Cubes still loading stay as they were. |
| `GridFacts.ResizeKeepsOrigins` | GLViewNewModule.cpp:205-211 | A rebuild keeps every old origin, including those of the erased cubes. |
| `GridFacts.ResizeRequestsNewLattice` | GLViewNewModule.cpp:205-211 | After a rebuild `cubes` is empty, and handle `next + n` is pending at the n-th position of the new lattice. |
| `GridFacts.CosmeticChangeKeepsPopulation` | GLViewNewModule.cpp:188-199 | Changing only frequency, displacement or the alpha range stores the values and changes no cube, origin or object. |
| `GridFacts.UpdateGridIdempotent` | GLViewNewModule.cpp:183-213 | Repeating `updateGrid` with the same parameters changes nothing. |
| `GridFacts.LateCompletionJoins` | GLViewNewModule.cpp:290-296 | A cube pending across a rebuild still joins the new `cubes` on completion, with its old origin. |
| `GridFacts.CompleteOnce` | GLViewNewModule.cpp:290-296 | A second completion of the same handle changes nothing. |
| `GridFacts.ConstructWellFormed` | GLViewNewModule.cpp:215-223 | Construction gives a well-formed grid. |
| `GridFacts.UpdateGridWellFormed` | GLViewNewModule.cpp:183-213 | `updateGrid` keeps the grid well-formed. |
| `GridFacts.CompleteWellFormed` | GLViewNewModule.cpp:290-296 | Completion keeps the grid well-formed, and the cube it appends has an origin. |
| `GridFacts.PopulateWellFormed` | GLViewNewModule.cpp:246-259 | Creation requests keep the grid well-formed. |
| `GridFacts.RetireWellFormed` | GLViewNewModule.cpp:206-210 | Hiding the tracked cubes and clearing `cubes` keeps the grid well-formed. |
| `GridFacts.RequestWellFormed` | GLViewNewModule.cpp:254-255 | One creation request keeps the grid well-formed. |
| `GridScenarios.TwoCubesIndices` | GLViewNewModule.cpp:247-249 | A 2 x 1 x 1 loop nest visits (0,0,0) and then (1,0,0). |
| `GridScenarios.DeeperIndices` | GLViewNewModule.cpp:247-249 | A 2 x 1 x 2 loop nest visits (0,0,0), (0,0,1), (1,0,0), (1,0,1). |
| `GridScenarios.ConstructRequestsTwo` | GLViewNewModule.cpp:215-223 | Constructing a 2 x 1 x 1 grid requests two cubes, at x = 0 and x = spacing, and tracks neither yet. |
| `GridScenarios.LoadedTracksBoth` | GLViewNewModule.cpp:290-296 | After both completions, both cubes are tracked in request order and nothing is pending. |
| `GridScenarios.DepthChangeErasesTracked` | GLViewNewModule.cpp:205-211 | Doubling the depth of a loaded two-cube grid hides and erases both cubes. |
| `GridScenarios.DepthChangeRequestsFour` | GLViewNewModule.cpp:246-258 | Doubling the depth requests four new cubes, the second at z = spacing. |
| `GridScenarios.AlphaChangeKeepsCubes` | GLViewNewModule.cpp:188-198 | Changing only `alphaMin` to 0.5 keeps the cubes and the world and stores the new value. |
| `GridScenarios.RebuildWhileLoading` | GLViewNewModule.cpp:205-211 | A cube loading across a rebuild stays in the scene and joins `cubes` with its old origin. The first new cube shares that origin. |

## Left out

- Floating point is not modelled. Every `float`/`double` computation is exact `real` arithmetic: the fade curve, the blend, the displacement, the alpha, the spacing and the clock.
- Noise.Sample: the `int x0 = std::floor(x)` conversion is undefined in C++ when `floor(x)` is outside the `int` range. The model keeps the exact floor and lets the hash wrap it modulo 2^32.
- Noise.Hash: the lower bound `-1 < h` holds for exact arithmetic only. The source returns a `float`, and for a masked value just below 2^31 the rounded result is exactly -1. The bound `|h| <= 1` that the displacement bound needs is unaffected.
- Noise.Mix: the signed `int` overflow in the hash is undefined behaviour in C++. It is modelled as two's-complement wrap-around, which is what the usual compilers do.
- `sin(timeCounter)` and `Vector::magnitude` are not computed. They are inputs of `Grid.Update`, and the only fact assumed of a magnitude is that it is not negative.
- The camera position is an input of `Grid.Update`.
- The function-local `static` time counter is passed in and returned.
- Engine calls are abstract. `WO::New` hands out a fresh handle. `push_back` puts the object in the scene, and `eraseViaWOptr` takes it out. The model path, render order, label, default arguments and skin lookups of `createCube` are left out.
- Grid.Construct takes `scale` and `gap` as explicit arguments. The declared defaults `scale = 1`, `gap = 0` of the constructor are the call `Construct(length, width, depth, 1.0, 0.0, world)` and are not a separate member.
- The skin finalization of the callback (texture repeats, specular colour and coefficient) is one `finalized` flag. The RGB channels of the fog colour are fixed and not kept, only the alpha.
- Handles are never reused. In the engine an erased object's address could be handed out again and meet its stale `cubeOrigins` entry; that reuse is not modelled.
- Grid.Animate: every cube keeps its own tint. The source writes the fog colour into the skin reached through `getModelDataShared()`, which all cubes loaded from the same model file may share. If they do share it, what is drawn uses the alpha of the last visible cube animated in the frame, so per-cube depth cueing would be lost. Whether the engine shares that data is not part of this model.
- Grid.Update: its "every other object stays as it was" is about the per-cube state of the model. If the skin is shared, each cube's alpha write also changes what every other cube looks like.
- Grid.Complete: the finalization flag is per cube. With a shared skin, the first completion would already set the texture and specular values seen by every cube.
- The asynchronous loading is modelled as the separate event `Grid.Complete`, which may happen at any point between other events. Threads and timing are left out.
- The `GLViewNewModule` class, its ImGui control panel that calls `updateGrid`, and the window, mouse and keyboard handlers are outside this model.
