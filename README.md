# Night street: a verified model of the scene's core

This project models the parts of `main.js` that hold logic rather than
rendering calls. That file is a three.js scene of a rainy night street with a
walker, neon signs, steam, rain and street lamps. The modelled parts are:

- **Generator.** `mulberry32`, the seeded generator behind every procedural
  fill. Its mixing step is 32-bit arithmetic: `Math.imul` is bv32
  multiplication and the counter's low 32 bits are the state.
- **Seeded fills.** Each one creates its own generator and draws in element
  order:
  - the asphalt albedo texture, stored through a `Uint8Array`, so values wrap;
  - the normal map, where `& 255` is applied after ToInt32;
  - the steam sprite's alpha, stored through `ImageData`, so values clamp and
    round;
  - the 12000 rain particles;
  - the puddle displacement of the street's vertices.
- **Scene step.** `updateScene(delta)` as a step on the scene's state:
  - the camera-drift clock, with the camera's target and look point as
    separate functions of the drift and of the walker's position;
  - the walker on its treadmill and its walk cycle;
  - the rain's spin and shader clock;
  - the steam plumes, the neon pulse and the three scrolling street textures;
  - the street-lamp flicker.
- **Frame loop.** `animate()`, the fixed-timestep loop. It adds each frame's
  clock delta to an accumulator, runs one step of exactly 1/24 s for each whole
  interval held, then renders once.

The modules follow the program's structure:

- `JsNumbers` holds the ECMAScript conversions ToUint8, ToInt32 and
  ToUint8Clamp. It also holds the `Math` functions, kept abstract behind the
  ranges the scene relies on.
- `Mulberry` holds the generator.
- `Textures` and `Scatter` hold the fills.
- `Animation` holds the scene step: the `Walker`, `RainSystem` and `Scene`
  classes, and `Tick`, the step as a function on the `SceneState` value.
- `Scheduler` holds the frame loop, the `FrameLoop` class.

Code that mutates in place is written in place:
- each fill writes a fresh array in a loop;
- the generator is a class whose counter `Next` advances;
- `UpdateScene` and `Animate` update class fields.

Each such method is proved against a pure specification: `Draw`,
`AsphaltTexel`, `RainDrop`, `PuddleHeight`, `Tick` or `TickN`. The
properties are then proved about those functions.

Where the behaviour described for the program and the code differ, the model
follows the code:
- a negative clock delta is not clamped: the accumulator simply goes down;
- an asphalt value below zero is not clipped to 0: the `Uint8Array` store
  wraps it;
- a walker past z = -40 is put back at exactly z = 10, not at 10 plus the
  step.

There is one exception: the street-lamp flicker. The code writes it to each
lamp's head mesh, so no light flickers (see Findings). The scene step uses
the corrected write to the spot lights. `FlickerAsWritten` models the code
as written.

## Model

| member | source | states |
|---|---|---|
| JsNumbers.Trunc | main.js:182-184 | the truncation toward zero that typed-array stores and `&` apply: the integer part, on either side of zero |
| JsNumbers.ToUint8 | main.js:182-184 | a `Uint8Array` store keeps the truncated value modulo 256: nothing is clipped |
| JsNumbers.ToInt32 | main.js:203-204 | the operand of `&` is the truncated value reduced to the signed 32-bit range, congruent modulo 2^32 |
| JsNumbers.LowByte | main.js:203-204 | `& 255` keeps the value modulo 256 |
| JsNumbers.ToUint8Clamp | main.js:399 | an `ImageData` store clips to 0 and 255 and otherwise rounds to within one half |
| Mulberry.Mix | main.js:640-642 | the mixing step on the 32-bit state; the zero state mixes to zero |
| Mulberry.Unit | main.js:642 | dividing the unsigned 32-bit result by 2^32 gives a value in [0, 1) that times 2^32 is that integer |
| Mulberry.Counter | main.js:639 | the counter after k increments, reduced to 32 bits, lies in [0, 2^32) |
| Mulberry.Draw | main.js:637-644 | every value the generator returns lies in [0, 1) |
| Mulberry.Mulberry32.constructor | main.js:637 | `mulberry32(a)` captures the seed as the counter: nothing has been drawn yet, and the counter is the seed, within 2^53 |
| Mulberry.Mulberry32.Next | main.js:638-643 | a call advances the counter by 0x6d2b79f5 and returns the next `Draw` of the seed, as long as the counter stays within 2^53 and so exact |
| Mulberry.CounterStaysExact | main.js:639 | up to 2^22 draws from a seed of at most 2^32 in magnitude keep the counter within 2^53 |
| Mulberry.StateStep | main.js:639 | each draw adds the increment to the 32-bit state modulo 2^32 |
| Mulberry.SeedModulo | main.js:637-639 | two seeds equal modulo 2^32 give the same n-th draw for every n: the seed enters only through ToUint32 |
| Mulberry.IncrementCancels | main.js:639 | the increment is odd, so a number of increments that is a whole number of turns is a multiple of 2^32 |
| Mulberry.FullPeriod | main.js:639 | no 32-bit state repeats within 2^32 draws, whatever the seed |
| Mulberry.Periodic | main.js:637-644 | the stream repeats with period 2^32 |
| Mulberry.SeedZeroFirstState | main.js:639 | seed 0 needs no special case: its first state is 0x6d2b79f5, not the fixed point 0 of the mix |
| Mulberry.MixOfIncrement | main.js:640-642 | that first state mixes to 1144304738, so seed 0's first draw is 1144304738 / 2^32 |
| Textures.AsphaltValue | main.js:181 | the value of texel i: `pow(draw, 1.2) · 180 + sin(0.00013 i) · 12`; its range is `AsphaltValueRange` |
| Textures.AsphaltTexel | main.js:181-184 | the three stores of texel i through the `Uint8Array`; its bytes are stated by `AsphaltTexelBytes` |
| Textures.AsphaltValueRange | main.js:181 | for a draw in [0, 1) the asphalt value lies in [-12, 192] |
| Textures.StoreAsphaltByte | main.js:182-184 | storing such a value keeps its integer part when it is non-negative, gives 0 just below zero, and wraps to 244 or more at -1 and below |
| Textures.AsphaltTexelBytes | main.js:181-184 | a texel with a non-negative value holds the integer parts of value, 0.92 value and 0.85 value, with red ≥ green ≥ blue ≤ 192; a value at or below -1 wraps red to at least 244 |
| Textures.CreateAsphaltTexture | main.js:174-190 | the buffer holds 1024 × 1024 × 3 bytes, and texel i is the asphalt texel of draw i of seed 1245789 |
| Textures.NormalChannel | main.js:203-204 | one channel of the normal map: the scaled component through ToInt32 and `& 255`; `NormalChannelByte` states its value |
| Textures.NormalAngle | main.js:201 | the angle of a normal texel: `draw · π · 2` |
| Textures.NormalStrength | main.js:202 | the strength of a normal texel: `draw · 0.6 + 0.4`; `NormalTexelBytes` puts it in [0.4, 1) |
| Textures.NormalTexel | main.js:199-205 | a normal texel from its angle and strength draws; `NormalTexelBytes` states its bytes |
| Textures.NormalChannelByte | main.js:203-204 | for a unit component and a strength in [0, 1] the channel is the integer part of the scaled value, in [1, 255]: the mask never wraps |
| Textures.NormalTexelBytes | main.js:201-205 | a normal texel's strength lies in [0.4, 1); red and green are the integer parts of the cosine and sine of the angle scaled by it, each at least 1; blue is 255 |
| Textures.CreateNormalTexture | main.js:192-212 | the buffer holds 512 × 512 × 3 bytes, and texel k, in row-major order, is the normal texel of draws 2k and 2k + 1 of seed 94321 |
| Textures.FillNormalRow | main.js:198-206 | one pass of the inner loop extends the filled prefix by the 512 texels of row y, drawing two values per texel |
| Textures.SteamAlpha | main.js:395-399 | the alpha byte of a steam pixel: `pow(draw, 2.2) · 255` through the clamped store; `SteamAlphaRounds` states its value |
| Textures.SteamAlphaRounds | main.js:395-399 | for a draw in [0, 1) the alpha value lies in [0, 255], so the clamped store only rounds, to within one half |
| Textures.GenerateSteamTexture | main.js:385-404 | the buffer holds 256 × 256 × 4 bytes, and pixel k is (200, 215, 255) with the alpha of draw k of seed 98321 |
| Scatter.RainDrop | main.js:414-417 | one particle from four consecutive draws: x, y, z and speed; `RainDropInBox` bounds it |
| Scatter.RainDropInBox | main.js:414-417 | four draws in [0, 1) give x ∈ [-10, 10), y ∈ [4, 16), z ∈ [-30, 30) and a speed in [8, 14) |
| Scatter.RainFieldInBox | main.js:413-418 | every particle built from its four draws starts in x ∈ [-10, 10), y ∈ [4, 16), z ∈ [-30, 30) with a speed in [8, 14) |
| Scatter.CreateRain | main.js:406-419 | 12000 particles, where particle i takes draws 4i to 4i + 3 of seed 71237 in the order x, y, z, speed |
| Scatter.FillDrop | main.js:414-417 | one iteration writes particle i from the next four draws and extends the filled prefix by one |
| Scatter.RemFour | main.js:221 | JavaScript's `z % 4` lies strictly between -4 and 4 and takes the sign of z |
| Scatter.PuddleDip | main.js:221 | the puddle term `exp(-((x + 2) · 0.4)² - ((z % 4) · 0.8)²) · 0.08`, with JavaScript's remainder |
| Scatter.Ripple | main.js:222 | the ripple term `sin(2z + 2π · draw) · 0.004` |
| Scatter.PuddleHeight | main.js:221-223 | the new height of a vertex: puddle plus ripple; `PuddleHeightRange` bounds it |
| Scatter.PuddleHeightRange | main.js:221-223 | every displaced height lies in (-0.004, 0.084]: the puddle term is in (0, 0.08] and the ripple is within 0.004 |
| Scatter.AddPuddleDisplacement | main.js:214-224 | every vertex keeps its X and Z, and its Y becomes the puddle height at its own (x, z) with draw k of seed 458123 |
| Animation.Treadmill | main.js:147-150 | the walker either steps 0.85 · dt towards the far end and stays at or beyond -40, or is put back at exactly 10; a forward step never leaves [-40, 10] |
| Animation.Pose | main.js:511-516 | the four limb rotations at a phase: legs `±sin(phase) · 0.3`, arms 0.6 of the opposite leg; `PoseBounds` bounds them |
| Animation.Sway | main.js:517 | the walker's sideways position `sin(phase / 2) · 0.22` |
| Animation.PoseBounds | main.js:511-517 | the legs swing within 0.3 radians and the arms within 0.18, each arm opposite the leg on its side; the sway stays within 0.22 |
| Animation.WalkStep | main.js:509-518 | the walk cycle advances the phase (absent counts as 0) by 3.2 · dt and leaves the position along the street alone |
| Animation.Walker.constructor | main.js:462-520 | a new walker stands at z = 4 on the centre line, with no phase and every limb's x rotation 0 (the model tracks only the x rotations the walk cycle writes) |
| Animation.Walker.WalkCycle | main.js:509-518 | the closure's in-place updates are the walk step on the walker's state |
| Animation.Walker.Walk | main.js:147-152 | the walker's part of the step: the treadmill on z, then the walk cycle |
| Animation.RainSystem.constructor | main.js:423-426 | the rain starts unrotated with its `uTime` uniform at 0 |
| Animation.PlumeAt | main.js:374-378 | a plume's update keeps its random offset |
| Animation.PlumeBounds | main.js:375-377 | a plume bobs within [-0.3, 0.5] and its opacity stays within [0.2, 0.44] |
| Animation.DriftPlumes | main.js:157-159 | every plume of the group is updated and the group keeps its size |
| Animation.UpdatePlumes | main.js:157-159 | the `forEach` loop over the steam group computes `DriftPlumes` |
| Animation.Pulse | main.js:161-165 | only pulsing children change, only in their intensity, and a pulsing child always ends with an intensity |
| Animation.Glow | main.js:163 | the pulsed intensity `0.5 + sin(time · speed) · 0.4`; `PulseBounds` bounds it |
| Animation.PulseBounds | main.js:163 | a pulsed intensity lies in [0.1, 0.9] |
| Animation.PulseAll | main.js:161-165 | every child of the neon group gets its pulse and the group keeps its size |
| Animation.PulseAllIdempotent | main.js:161-165 | pulsing twice at the same clock time is pulsing once, because the intensity depends only on the time and the speed |
| Animation.PulseChildren | main.js:161-165 | the `forEach` loop over the neon group computes `PulseAll` |
| Animation.Flicker | main.js:557 | the intensity computed for lamp idx: `0.7 + sin(now · 0.0008 + idx) · 0.15`; `FlickerBounds` bounds it |
| Animation.FlickerBounds | main.js:557 | the flicker intensity stays within [0.55, 0.85] |
| Animation.FlickerAsWritten | main.js:555-560 | the rig's update as written: every lamp keeps its spot light's intensity, and the rig keeps its size |
| Animation.FlickerMissesLights | main.js:555-560 | as written, the update stores the flicker on the lamp's head mesh, so every spot light stays at 0.7 and differs from the intended flicker whenever its sine is non-zero |
| Animation.FlickerLights | main.js:555-560 | with the flicker on the spot lights, every lamp keeps its head and the rig keeps its size |
| Animation.FlickerLightsBounds | main.js:555-560 | with the flicker on the spot lights, every light lies in [0.55, 0.85] |
| Animation.UpdateLamps | main.js:555-560 | the light rig's loop over the lamps computes `FlickerLights` |
| Animation.CameraTarget | main.js:141-144 | the point the camera eases to at drift time `drift`: (3.8 + sway, 1.72 + bob, 5.4) |
| Animation.CameraTargetBounds | main.js:141-144 | the camera's target never leaves [3.62, 3.98] × [1.67, 1.77] × {5.4} |
| Animation.CameraTargetAtRest | main.js:141-144 | at drift 0 both sines vanish, so the target is the rest point (3.8, 1.72, 5.4) |
| Animation.LookTarget | main.js:145 | the point the camera looks at: 1.8 beyond the walker, at height 1.6 on the centre line |
| Animation.LookTargetOnStreet | main.js:145-150 | while the walker is on the street the look target stays on the centre line at height 1.6, ahead of the walker and within [-41.8, 8.2] |
| Animation.InitialScene | main.js:95-123 | the scene as built: the walker on the street with no phase, one plume per offset, three neon children and ten lamps |
| Animation.Tick | main.js:138-172 | one `updateScene(delta)` as a function of the scene's state: each clock advanced, the walker's treadmill step and walk cycle, the plumes, the neon pulse and the lamps' corrected flicker (see Findings); `TickClocks`, `TickBounds` and `TickNKeepsShape` state its properties |
| Animation.TickN | main.js:129-132 | n steps of the same length at the same clock readings, as one frame's loop runs them; `TickNClocks` and `TickNKeepsWalkerOnStreet` state its properties |
| Animation.TickClocks | main.js:141-169 | one step advances every clock by dt at its own rate: drift and rain clock 1, spin 0.02, walk phase 3.2, texture offsets -0.08, -0.04 and -0.06 |
| Animation.AdvanceNIsAdvance | main.js:141-169 | n advances of dt are one advance of n · dt |
| Animation.TickNClocks | main.js:129-132 | n steps of dt advance every clock by n · dt: no step is lost or counted twice |
| Animation.TickNKeepsWalkerOnStreet | main.js:147-150 | any number of forward steps keeps the walker on the street, in [-40, 10] |
| Animation.TickNKeepsShape | main.js:157-165 | steps keep the number of plumes, neon children and lamps, the plumes' offsets, and which children pulse at what speed |
| Animation.TickBounds | main.js:157-171 | after a step every pulsing child glows in [0.1, 0.9], every plume is within its bounds and, with the corrected flicker, every light is within [0.55, 0.85] |
| Animation.Scene.constructor | main.js:95-123 | given the three plume offsets, each in [0, 2π) as `Math.random() * Math.PI * 2` yields (main.js:373), the scene starts with every clock and offset at 0, the walker at z = 4, three plumes at height 0.1 and opacity 0.6, the three neon children and ten lamps at 0.7 |
| Animation.Scene.UpdateScene | main.js:138-172 | `updateScene(delta)` changes the scene's state exactly as `Tick` does |
| Scheduler.TicksOwed | main.js:129-132 | the owed steps are the whole intervals of 1/24 s in the accumulator, none for less than one interval |
| Scheduler.AfterSteps | main.js:129-132 | after its steps a non-negative accumulator holds less than one interval; a negative one is untouched |
| Scheduler.LoopExit | main.js:129-132 | the loop that takes out one interval while at least one is left stops after exactly the owed number of steps |
| Scheduler.FrameLoop.constructor | main.js:57-58 | the clock starts at 0 with an empty accumulator, consistent with a camera drift of 0 |
| Scheduler.FrameLoop.Animate | main.js:125-136 | a frame adds the delta, runs exactly the owed steps of 1/24 s, each at the frame's clock time, then renders once; the scene becomes `TickN` of them, the accumulator is left in [0, 1/24) when non-negative, and the clock is always the drift plus the accumulator |
| Scheduler.FrameLoop.CatchUp | main.js:130-133 | the `while` loop runs exactly the owed steps, each a `Tick` at the same clock time, and leaves the accumulator as `AfterSteps` says |
| Scheduler.FrameLoop.StepOnce | main.js:131-132 | one pass of the loop body: a step of one frame interval, taken out of the accumulator |
| Scheduler.AccumulatorAfter | main.js:125-136 | the accumulator after a sequence of frames; `FramesConserveTime` and `FramesRunWholeIntervals` state its properties |
| Scheduler.StepsRun | main.js:125-136 | the steps run by a sequence of frames, frame by frame the owed steps of its accumulator |
| Scheduler.FramesConserveTime | main.js:125-136 | across any frames, the steps run plus the accumulator make up the starting accumulator plus all deltas |
| Scheduler.FramesRunWholeIntervals | main.js:125-136 | with non-negative deltas, several frames run as many steps as one frame with the summed delta, and the accumulator stays in [0, 1/24) |
| Scheduler.Glide | main.js:147-150 | while no reset is due, n steps move the walker n · 0.85 / 24 along the street |
| Scheduler.FirstLap | main.js:147-150 | from its start at z = 4 the walker stays on the street for 1242 steps and is back at 10 on step 1243 |
| Scheduler.Lap | main.js:147-150 | from z = 10 the walker takes 1411 steps without reset and is back at 10 on step 1412 |

## Left out

- **Rendering and the page.** The three.js scene graph, the post-processing
  passes, `composer.render()`, the DOM, the start button and `handleResize`
  are left out. They are I/O. The model keeps only the place of the render in
  the frame, as the `Render` event of `FrameLoop`'s ghost trace.
- **Setup that holds no logic.** The cube-texture loader, the geometry and
  material constructors (buildings, curbs, lamps), `computeVertexNormals` and
  `needsUpdate` are left out.
- **Web Audio.** The siren setup and its gain ramp are I/O.
- **The rain's vertex shader.** The shader's `mod(uTime * speed, 14.0)` wrap
  runs on the GPU. Only the `uTime` uniform it reads is modelled.
- **The camera's motion.** `camera.position.lerp` and `camera.lookAt` are
  three.js calls. The model states where the camera eases to (`CameraTarget`)
  and where it looks (`LookTarget`), not the camera's position.
- **Float32 and IEEE-754 rounding.** Every number is an exact real. For
  example, the rain's stored positions are not rounded to Float32, so a
  particle computed just below x = 10 could round up to 10.0 in the real
  buffer.
- **`Math.sin`, `Math.cos`, `Math.exp` and `Math.pow`.** These are fields of
  an abstract `JsMath` value. `Sound` states only the ranges the proofs use,
  so exact values of the transcendental functions are not modelled.
- **Wall clock and `Math.random`.** `performance.now()` and the clock's
  elapsed time are parameters (`now`, `time`). The model reads `now` once per
  frame and gives that reading to every step of the frame; the program reads
  `performance.now()` again on each call. The plumes' `Math.random()` offsets are a constructor parameter of
  `Scene`.
- **The rain's `update` closure.** It only advances `uTime`, so
  `Scene.UpdateScene` performs it in line instead of calling a method of
  `RainSystem`.
- Scatter.AddPuddleDisplacement: it requires a buffer of whole vertices
  and at most 2^22 of them. Under that bound the generator's counter stays
  exact; the 321 × 321 street grid meets it.
- **Fill methods:** they require nothing of the initial array contents,
  because every element is written. `CreateRain`'s positions hold no claim
  about Float32 rounding.
- Mulberry.Mulberry32.Next: it requires the counter to stay within 2^53,
  where a double is exact. Past that bound the JavaScript counter would lose
  precision, and that behaviour is not modelled.
- Animation.Scene.UpdateScene: the lamps in the step follow the corrected
  flicker (`FlickerLights`), not the code as written; see Findings.
- Animation.Tick: its lamps are `FlickerLights`, the corrected write to the
  spot lights. As written, the code writes the head mesh and every light keeps
  its intensity (`FlickerAsWritten`, `FlickerMissesLights`).
- Animation.TickBounds: its clause that every light lies in [0.55, 0.85] is
  about the corrected step. For the code as written, `FlickerAsWritten`
  states that every light keeps its intensity.
- Scheduler.FrameLoop.Animate: the steps of one frame all read the clock
  time after that frame's delta, as `clock.elapsedTime` does. The loop's
  bookkeeping is stated with exact reals, so accumulated floating-point error
  in `accumulator -= FRAME_INTERVAL` is not captured.

## Findings

| source | as written | input that shows it | evidently intended | confidence | as-written member | corrected member |
|---|---|---|---|---|---|---|
| main.js:558 | the light rig's update writes the flicker to `lamp.children[1]`, which `createStreetLamp` (main.js:565-596) adds second: the head mesh, which has no `intensity`; the spot light is `children[2]`, so no light ever flickers | any `now` with `sin(now · 0.0008 + idx) ≠ 0`, for example idx = 0 and now = 1000: the spot light stays at 0.7 while the flicker is 0.7 + 0.15 · sin(0.8) | the flicker is meant for the spot light, `lamp.children[2].intensity` | not executed | Animation.FlickerMissesLights | Animation.FlickerLightsBounds |
