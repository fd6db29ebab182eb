# Progressive ray tracing controller: a Dafny model

This project models the host-side core of a progressive GPU ray tracer, the
engine component in `RayTracing/Assets/Scripts/RayTracingController.cs`. It
covers three pieces of sequential logic:

- **Scene generation by rejection** (`SetupScene`). Each of `_maxSpheres`
  iterations draws a candidate sphere: a radius in the configured range and
  a centre in the placement disk, lifted so the sphere rests on the plane
  y = 0. The candidate is kept only if it overlaps none of the spheres kept
  so far. Overlap means squared centre distance below the squared sum of
  the radii. A rejected candidate uses up its iteration; there is no retry.
  Each kept sphere gets a metal or dielectric material from a coin flip.
- **The sample-counter / render-target state machine** (`OnEnable`,
  `Update`, `InitRenderTexture`, `Render`). The counter restarts on enable,
  when the camera or light transform has moved, and when the render target
  is (re)allocated to match the screen. Each rendered frame hands the
  counter to the blend shader and then increments it.
- **Dispatch-grid sizing**: the ceiling of each screen dimension divided by
  the 8-pixel tile.

Modules:

- `Wrappers`: `Option`.
- `Ints`: the 32-bit unsigned `uint` type.
- `Vectors`: `Vector3` over the reals.
- `Scene`: the sphere record, the configuration, the generation loop
  (`GenerateScene`) and the function it computes (`Generate`), with the
  lemmas about it.
- `Dispatch`: the thread-group arithmetic.
- `Session`: the controller's fields as a value and each hook as a function
  of the state before it, with lemmas about sequences of frames.
- `Controller`: the class `RayTracingController`. Its fields are those of the
  component. Its methods mirror the hooks, and each one's `ensures` ties the
  new state to the matching `Session` function.

Inputs from the engine are parameters. The random draws are a sequence of
`Draw` values, one per loop iteration. The screen size is passed to `Render`
and `InitRenderTexture`. The transforms' `hasChanged` flags are fields the
engine sets.

Two facts about the code are worth stating directly:

- A dielectric's specular is 0.04 and never zero; its albedo is its colour,
  so it is zero only for black. A metal's albedo is zero and its specular is
  its colour, so a black metal has both zero. `MaterialDistinguishesMetal`
  and `BlackMetalHasNoColour` state this.
- `SetupScene` validates none of its settings; `RadiusInRange` bounds the
  radius whichever way round the range is.

## Model

| member | source | states |
|---|---|---|
| Scene.Place | RayTracing/Assets/Scripts/RayTracingController.cs:46-50 | a candidate's centre height equals its radius: it rests on the ground plane |
| Scene.RadiusInRange | RayTracing/Assets/Scripts/RayTracingController.cs:48 | for a draw in [0, 1] the radius lies between `_sphereRadius.x` and `_sphereRadius.y`, whichever order they are in |
| Scene.PlacementInDisk | RayTracing/Assets/Scripts/RayTracingController.cs:49-50 | a point of the unit disk scaled by the placement radius puts the centre inside the placement disk |
| Scene.AcceptWellPlaced | RayTracing/Assets/Scripts/RayTracingController.cs:48-50 | a sphere built from a draw the random source can produce is on the ground, in the radius range and in the disk |
| Scene.WithMaterial | RayTracing/Assets/Scripts/RayTracingController.cs:65-68 | the material step keeps position and radius; a metal gets zero albedo and the colour as specular, a dielectric the colour as albedo and (0.04, 0.04, 0.04) as specular |
| Scene.MaterialDistinguishesMetal | RayTracing/Assets/Scripts/RayTracingController.cs:66-68 | for a non-black colour the albedo is zero exactly for metals and the specular is never zero; a dielectric's specular is never zero |
| Scene.BlackMetalHasNoColour | RayTracing/Assets/Scripts/RayTracingController.cs:65-68 | a black metal has both albedo and specular zero |
| Scene.Generate | RayTracing/Assets/Scripts/RayTracingController.cs:44-71 | the loop keeps at most one sphere per iteration |
| Scene.AppendSeparated | RayTracing/Assets/Scripts/RayTracingController.cs:52-70 | adding a candidate that passed the overlap test to a pairwise separated list keeps it pairwise separated |
| Scene.GenerateSeparated | RayTracing/Assets/Scripts/RayTracingController.cs:52-70 | every two kept spheres satisfy squared centre distance >= squared sum of radii |
| Scene.AcceptedInOrder | RayTracing/Assets/Scripts/RayTracingController.cs:44-71 | the kept spheres are the spheres of a strictly increasing selection of the draws, in draw order, each draw used at most once |
| Scene.AcceptanceRule | RayTracing/Assets/Scripts/RayTracingController.cs:52-63 | draw i is kept if and only if its candidate overlaps none of the spheres kept from draws 0..i-1 |
| Scene.GenerateExtends | RayTracing/Assets/Scripts/RayTracingController.cs:44-71 | spheres kept after n iterations are a prefix of those kept at the end: nothing is removed or reordered |
| Scene.GeneratedPlacement | RayTracing/Assets/Scripts/RayTracingController.cs:44-70 | every kept sphere rests on the ground, has its radius in the configured range when the range is ordered, and its centre in the placement disk |
| Scene.GeneratedMaterial | RayTracing/Assets/Scripts/RayTracingController.cs:65-70 | every kept sphere carries the material its own draw's metal coin selects |
| Scene.NoAttemptsNoSpheres | RayTracing/Assets/Scripts/RayTracingController.cs:44 | with no iterations the scene is empty |
| Scene.SingleSphereAtOrigin | RayTracing/Assets/Scripts/RayTracingController.cs:44-70 | one attempt, radius range [3, 3], placement radius 0: exactly one sphere, at (0, 3, 0) with radius 3 |
| Scene.CloseSecondCandidateRejected | RayTracing/Assets/Scripts/RayTracingController.cs:52-63 | two attempts of radius 5 in a disk of radius 1: the second always overlaps the first and is dropped without retry |
| Scene.GenerateScene | RayTracing/Assets/Scripts/RayTracingController.cs:40-71 | the nested loop with its skip flag and early break computes `Generate` over the first `_maxSpheres` draws: at most that many spheres, pairwise separated |
| Dispatch.ThreadGroups | RayTracing/Assets/Scripts/RayTracingController.cs:98-99 | the group count g along an axis satisfies g*8 >= dim and (g-1)*8 < dim |
| Dispatch.ThreadGroupsIsCeiling | RayTracing/Assets/Scripts/RayTracingController.cs:98-99 | any count meeting those two bounds equals the computed one: it is the ceiling of dim / 8 |
| Dispatch.GridCoversPixels | RayTracing/Assets/Scripts/RayTracingController.cs:98-100 | every pixel column or row falls in a dispatched tile |
| Dispatch.Grid801By601 | RayTracing/Assets/Scripts/RayTracingController.cs:6-7 | an 801 by 601 screen gives 101 by 76 groups |
| Session.Increment | RayTracing/Assets/Scripts/RayTracingController.cs:107 | the unsigned 32-bit `++` of the counter, i.e. (n + 1) modulo 2^32 |
| Session.Enable | RayTracing/Assets/Scripts/RayTracingController.cs:28-32 | enabling zeroes the counter and installs the generated scene, which has at most `_maxSpheres` pairwise separated spheres; target and flags are untouched |
| Session.Update | RayTracing/Assets/Scripts/RayTracingController.cs:82-90 | afterwards both flags are clear; the counter is 0 if either flag was set and unchanged otherwise; nothing else changes |
| Session.InitRenderTexture | RayTracing/Assets/Scripts/RayTracingController.cs:113-130 | afterwards a target of exactly the screen's size exists; the counter is 0 if the target was missing or differently sized and unchanged otherwise |
| Session.Render | RayTracing/Assets/Scripts/RayTracingController.cs:92-108 | the blend gets the counter as it is after the fit; the counter then advances by one; the grid covers the screen; the target equals the screen size |
| Session.SteadyRendering | RayTracing/Assets/Scripts/RayTracingController.cs:92-108 | over k frames at one screen size, frame j blends with the counter as the first frame's fit leaves it (0 if that fit reallocates the target) plus j, and the counter ends k above that value (modulo 2^32) |
| Session.CounterCountsFrames | RayTracing/Assets/Scripts/RayTracingController.cs:92-108 | from a counter of 0, frame j blends with j and after k frames the counter equals k (modulo 2^32) |
| Session.AccumulationRestarts | RayTracing/Assets/Scripts/RayTracingController.cs:82-130 | after a moved camera or light, or on a resized screen, the next frame blends with sample 0 |
| Session.UpdateIdempotent | RayTracing/Assets/Scripts/RayTracingController.cs:82-90 | acknowledging the transform flags twice equals doing it once |
| Session.InitRenderTextureIdempotent | RayTracing/Assets/Scripts/RayTracingController.cs:113-130 | a second fit to the same size keeps target and counter |
| Controller.RayTracingController.constructor | RayTracing/Assets/Scripts/RayTracingController.cs:17-21 | a new component has counter 0, no render target and no scene |
| Controller.RayTracingController.OnEnable | RayTracing/Assets/Scripts/RayTracingController.cs:28-32 | the new state is `Session.Enable` of the old one: counter 0 and a separated scene |
| Controller.RayTracingController.SetupScene | RayTracing/Assets/Scripts/RayTracingController.cs:40-75 | the uploaded sphere list is the generated scene: at most `_maxSpheres` spheres, pairwise separated |
| Controller.RayTracingController.Update | RayTracing/Assets/Scripts/RayTracingController.cs:82-90 | the new state is `Session.Update` of the old one, so both flags end clear |
| Controller.RayTracingController.InitRenderTexture | RayTracing/Assets/Scripts/RayTracingController.cs:113-130 | the new state is `Session.InitRenderTexture` of the old one, so the target matches the screen |
| Controller.RayTracingController.Render | RayTracing/Assets/Scripts/RayTracingController.cs:92-108 | new state and returned frame are `Session.Render` of the old state; the counter ends one above the blended sample |

## Left out

- GPU work: the kernel dispatch, the texture, buffer, matrix and vector bindings of `SetShaderParameters`, `Graphics.Blit`, and the `Hidden/AddShader` blend with its lazily created material. These are engine and GPU calls. The tracing kernel and the blend shader are not part of this model. `Render` returns the grid size and the `_sample` value it would pass instead.
- The camera and light matrices, the light direction and intensity, the skybox, and the per-frame jitter offset (`_pixelOffset`). They are engine data bound to the shader, with no logic of their own here.
- Resource lifecycle: allocating and releasing the `ComputeBuffer` and the `RenderTexture`, `OnDisable`, and a failed allocation. A render target is modelled only as "a target of size w by h exists". The sphere buffer is modelled as the list uploaded to it.
- `Awake` (looking up the camera component) and `OnRenderImage` (which only forwards to `Render`). The destination texture is not modelled.
- `Sphere.StructSize`, the byte layout of the uploaded record.
- Randomness: `Random.value`, `Random.insideUnitCircle` and `Random.ColorHSV` become the fields of a supplied `Draw`. Their distributions are not modelled, and neither is the HSV to RGB conversion. Each `Draw` carries a colour and a metal value even for a rejected candidate, where the code would not consume those draws. So the model fixes the values drawn, not their position in the engine's random stream.
- Floating point: positions, radii and colours are exact reals. `Mathf.CeilToInt(Screen.width / 8f)` is exact integer ceiling division, and the float constant 0.04 is the real 0.04.
- Session.Render: does not model the conversion of the 32-bit counter to a float in `SetFloat("_sample", …)`, which loses precision above 2^24. The frame carries the exact counter.
- Scene.GenerateScene: does not model the wrap-around of the C# loop index. The source compares an `int` index with the `uint` `_maxSpheres`. For `_maxSpheres >= 2^31` the index wraps to a negative value before reaching the bound, so the loop never ends. The model stops after `maxSpheres` iterations. `maxSpheres` itself is a 32-bit unsigned value, as in the source.
