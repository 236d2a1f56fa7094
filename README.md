# GrateWave renderer: the per-frame phase step

GrateWave draws a full-screen sinusoidal luminance grating with Metal. The
part with behaviour of its own is the view delegate `Renderer`
(`GrateWave/Renderer.swift`). It holds six public stimulus parameters
(spatial frequency, orientation in radians, contrast, mean luminance, a
drift switch and a drift velocity). It also holds two private fields: the
phase accumulator and the timestamp of the last rendered frame. On every
refresh callback `draw(in:)` does five things in order:

1. It skips the frame when the view has no drawable or no render-pass descriptor.
2. It computes the elapsed time `dt`, which is 0 on the first frame.
3. It records the current time.
4. With drift on, it advances the phase by velocity times `dt`. A phase above 10 000 is reduced modulo 2π.
5. It fills the `GratingUniforms` record and copies it into the shared uniform buffer, then encodes one draw and presents.

This project models that step in Dafny. It has four modules:

- `Wrappers` (`wrappers.dfy`) holds `Option`.
- `Grating` (`grating.dfy`) holds the uniform record, its defaults, the parameter snapshot and the uniform fill `Pack`.
- `PhaseIntegrator` (`phase_integrator.dfy`) holds the pure arithmetic: `TimeStep` (the `dt` rule), `TruncatingRemainder` and `Wrap` (the bound rule), `Advance` (the integrator) and `Step` (one frame's state change). It also has `Run`, which is `Step` over a sequence of frames, and the lemmas about single steps and whole runs.
- `FrameDriver` (`renderer.dfy`) holds the class `Renderer` with the source's fields, the failable initialiser `Create`, and the imperative `Draw`. `Draw` mutates `phase`, `lastTime` and the uniform-buffer contents step by step. Its postcondition ties the new state to `Step` and the uploaded record to `Pack`.

Floats are modelled as `real`. `TwoPi` is the value of `2 * .pi` in single precision. `Float.pi` is rounded toward zero (the Float `0x40490FDA`), so twice it is the Float `0x40C90FDA`, 6.28318500518798828125. Angles that differ by whole turns are related by the predicate `SameAngle`.

From a fresh renderer the first callback has `dt = 0`. One second of 60 Hz callbacks (at 0, 1/60, ..., 1 s) is therefore 61 callbacks, and 60 callbacks advance the phase by only 59/60 of a turn. `PhaseIntegrator.OneSecondAtSixtyHertz` states the 61-callback run.

## Model

| member | source | states |
|---|---|---|
| Grating.Pack | GrateWave/Renderer.swift:92-98 | the record's resolution is (width, height); its frequency, orientation, mean and contrast are the renderer's frequency, orientationRadians, mean and contrast; its phase is the given phase; the padding keeps its zero default (line 19) |
| Grating.PackIgnoresDriftSettings | GrateWave/Renderer.swift:92-98 | the drift switch and velocity never reach the uniform record except through the phase |
| Grating.PackInjective | GrateWave/Renderer.swift:92-98 | packing loses nothing but the padding: equal records come from equal sizes, phases and shader-visible parameters |
| PhaseIntegrator.TimeStep | GrateWave/Renderer.swift:77-82 | dt is 0 when there is no previous timestamp; otherwise last + dt == now, and dt is non-negative when the clock did not go back |
| PhaseIntegrator.TruncatingRemainder | GrateWave/Renderer.swift:88 | the remainder by 2π has the sign of its argument, is below one turn in magnitude, and is no larger in magnitude than the argument |
| PhaseIntegrator.WholeTurns | GrateWave/Renderer.swift:88 | the whole turns k of a non-negative x satisfy k turns <= x < k + 1 turns |
| PhaseIntegrator.WholeTurnsIsFloor | GrateWave/Renderer.swift:88 | the whole turns of x equal floor(x / 2π) |
| PhaseIntegrator.TruncatingRemainderTurns | GrateWave/Renderer.swift:88 | for x >= 0 the remainder is x less its whole turns |
| PhaseIntegrator.TruncatingRemainderFloorForm | GrateWave/Renderer.swift:88 | closed form: for x >= 0 the remainder is x - 2π * floor(x / 2π); for x < 0 it is minus the remainder of -x (truncation toward zero) |
| PhaseIntegrator.TruncatingRemainderOdd | GrateWave/Renderer.swift:88 | the truncating remainder is an odd function of its argument |
| PhaseIntegrator.TruncatingRemainderSameAngle | GrateWave/Renderer.swift:88 | the remainder differs from its argument by a whole number of turns |
| PhaseIntegrator.TruncatingRemainderUnique | GrateWave/Renderer.swift:88 | for x >= 0 the remainder is the only value in [0, 2π) congruent to x |
| PhaseIntegrator.Wrap | GrateWave/Renderer.swift:87-88 | the result never exceeds 10 000; a phase of at most 10 000 is kept; a phase above it becomes a value in [0, 2π) |
| PhaseIntegrator.WrapSameAngle | GrateWave/Renderer.swift:87-88 | wrapping never changes the phase by anything other than whole turns |
| PhaseIntegrator.Advance | GrateWave/Renderer.swift:85-89 | drift off leaves the phase as it is, even above 10 000; drift on gives phase + velocity * dt when that is within the bound and a value in [0, 2π) otherwise, so never more than 10 000 |
| PhaseIntegrator.AdvanceDrifting | GrateWave/Renderer.swift:86-88 | with drift on, the integrator's result is the wrap of phase + velocity * dt |
| PhaseIntegrator.Step | GrateWave/Renderer.swift:77-89 | the timestamp is set to now with drift on or off; drift off freezes the phase; on the first frame a phase within the bound is unchanged even with drift on; the bound on the phase is preserved |
| PhaseIntegrator.StepDrifting | GrateWave/Renderer.swift:83-88 | with drift on, the new phase is the wrap of the old phase plus velocity times dt |
| PhaseIntegrator.StepSameAngle | GrateWave/Renderer.swift:85-89 | the new phase is congruent modulo 2π to the old phase plus the drift the frame asks for |
| PhaseIntegrator.StepWithoutWrap | GrateWave/Renderer.swift:85-88 | a frame whose drift keeps the phase within the bound moves it by exactly that drift |
| PhaseIntegrator.DriftResumesFromLastFrame | GrateWave/Renderer.swift:83-86 | a frame with drift off keeps the phase but records its timestamp, so turning drift on integrates only the time since that frame |
| PhaseIntegrator.RunKeepsBound | GrateWave/Renderer.swift:35 | invariant: starting at or below 10 000 (the initial phase is 0), the phase stays at or below 10 000 after any sequence of frames |
| PhaseIntegrator.RunRecordsLastTime | GrateWave/Renderer.swift:83 | after any non-empty sequence of frames the stored timestamp is that of the last frame |
| PhaseIntegrator.RunFrozen | GrateWave/Renderer.swift:85-89 | with drift off throughout, the phase never changes, however large it is |
| PhaseIntegrator.RunSameAngle | GrateWave/Renderer.swift:85-89 | after any run the phase is congruent modulo 2π to the start phase plus the total unwrapped drift, so wrapping causes no visible jump |
| PhaseIntegrator.UnwrappedTelescopes | GrateWave/Renderer.swift:77-86 | at constant drift velocity v, the drift integrated after a frame at t0 is v times the time since t0 |
| PhaseIntegrator.FirstRunTelescopes | GrateWave/Renderer.swift:77-86 | from a fresh state, constant drift integrates v times the time from the first frame to the last; the first frame adds nothing |
| PhaseIntegrator.UnwrappedNonNegative | GrateWave/Renderer.swift:77-86 | with non-negative velocities and a clock that never goes back, the integrated drift is non-negative |
| PhaseIntegrator.DriftNonNegative | GrateWave/Renderer.swift:77-86 | one frame's drift is non-negative for a non-negative velocity and a non-decreasing clock |
| PhaseIntegrator.RunWithoutWrap | GrateWave/Renderer.swift:85-88 | while the accumulated phase stays within the bound, no wrap happens: the phase is exactly the start phase plus the integrated drift |
| PhaseIntegrator.OneSecondAtSixtyHertz | GrateWave/Renderer.swift:35-36 | from a fresh renderer drifting at 2π rad/s, callbacks at 0, 1/60, ..., 1 s leave the phase at exactly one turn, which looks the same as phase 0 |
| FrameDriver.Renderer.constructor | GrateWave/Renderer.swift:28-36 | every parameter field takes its declared default, the phase is 0, no timestamp is stored and the uniform buffer is still unwritten |
| FrameDriver.Renderer.Create | GrateWave/Renderer.swift:38-65 | a renderer is produced exactly when the device, command queue, uniform buffer, default library and pipeline are all available, and it starts in the initial state |
| FrameDriver.Renderer.Draw | GrateWave/Renderer.swift:69-104 | without a drawable or render-pass descriptor nothing changes and nothing is uploaded; otherwise the state takes one Step, the uniform buffer and the result hold Pack of the parameters, drawable size and new phase, and the frame is presented exactly when a command buffer and an encoder can be made (a failure there comes after the state has advanced); the parameter fields are never written and a phase within the bound stays within it |

## Left out

- Single-precision rounding: every Float and CFTimeInterval is a `real`. The `Float(now - last)` cast of line 79 is the identity here, and frame-by-frame rounding drift is not modelled.
- `CACurrentMediaTime()`: the current time is the parameter `now` of `Draw`.
- The byte layout, stride and alignment of `GratingUniforms` and the `memcpy` of line 100: the uniform buffer holds the record as a datatype value.
- Encoding, the draw call, `present` and `commit` (lines 106-112): these are reduced to the result `presented` of `Draw`.
- The Metal objects of `init?(mtkView:)` (lines 38-65): each is reduced to whether it can be obtained (`MetalSetup`). The shaders `vertex_main` and `fragment_grating` are not part of this model.
- `mtkView(_:drawableSizeWillChange:)` (line 67) has an empty body. It changes nothing, so it has no model.
- GrateWave/ContentView.swift (slider layout) and GrateWave/MetalGratingView.swift (the `@Published` store and the degree-to-radian copy in `updateUIView`) are not part of this model.
- The UI thread writing the parameter fields while the render thread reads them: the model reads all six fields as one snapshot at the start of `Draw`.
- PhaseIntegrator.TruncatingRemainder: it is defined by taking whole turns off toward zero rather than by floating-point fmod arithmetic. TruncatingRemainderFloorForm proves that it equals the exact closed form.
