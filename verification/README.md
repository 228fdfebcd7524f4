# Bioreactor simulator: engine and command handling

This project models the two sequential pieces of the bioreactor simulator.

1. **The engine (`BioReactorSim`).** It holds a `State` of eight process variables, an `Inputs` record of six actuator settings and a parameter set. `step(dt)` advances the state by one explicit Euler step. The step updates, in a fixed order, the level, temperature, dissolved oxygen, pH, biomass, agitator speed and headspace pressure. It then adds sensor noise and advances the clock. Construction (reused by reset) restores the default state and inputs.
2. **The command handling in the service.** `on_cmd` turns an MQTT (topic, payload) pair into a reset, a new time scale or a change of one actuator input. It uses the helpers `_to_bool01` and `_to_float01`. The model also covers the two HTTP control endpoints and the `dt` of the driver loop.

Layout:

- `sim.dfy` (module `Sim`):
  - `State`, `Inputs`, `Params` and `Draws` are datatypes.
  - One function per update rule of the step.
  - `Advance` is the whole step as a function of the state at the start of the tick.
  - `Run` is repeated steps.
  - The class `BioReactorSim` has fields `x`, `u`, `p` and `seed`. Its `Step` method updates `x` one field at a time, in the source's order. Its frame is ``this`x``, so the inputs and the parameters cannot change.
- `control.dfy` (module `Control`):
  - The payload helpers.
  - Topic dispatch.
  - The class `Controller`, which holds the engine and the process-wide `SEED`, `TICK_MS` and `TIME_SCALE`.
- `pystr.dfy` (module `PyStr`): Python's `str.strip()` and `str.lower()`.
- `wrappers.dfy`: `Option`.

Modelling choices:

- **Numbers.** Python floats are `real`.
- **Random draws.** The three `random.random()` draws of a step are a `Draws` value `(r1, r2, r3)`, in draw order: pH, temperature noise, oxygen noise. Each is required to lie in [0,1), which is what `random.random()` guarantees.
- **Parsers.** `float()` and `int()` are function parameters returning `Option`: `None` where Python raises. `float()` yields a `PyFloat`, which is finite, `inf`, `-inf` or `nan`. This matters because `max(lo, min(hi, f))` keeps Python's argument order: `nan` and `inf` both clamp to the upper bound. So a time-scale payload of `nan` gives 50 and an actuator payload of `nan` gives 1.0.
- **Unparsable actuator values.** An unparsable continuous actuator payload sets the input to 0.0, not to its previous setting (`sim/main.py:37-41`); see `Control.Float01OfNormalized` and `Control.ToFloat01Examples`.
- **Reset.** A reset command replaces the inputs with their defaults, as `sim.__init__` does. It does not apply the payload to any actuator.
- **Initial agitator speed.** The default state has an agitator speed of 200 rpm. The default agitation input maps to 400 rpm. The reading matches the input only after the first step (`Sim.RpmIgnoresHistory`).

## Model

| member | source | states |
|---|---|---|
| Sim.Clamp | sim/sim.py:64 | `max(lo, min(hi, v))` lies in [lo,hi], is `v` when `v` is in range, and is the nearer bound otherwise |
| Sim.LevelAfter | sim/sim.py:55-64 | the level after the volume balance lies in [0,100] whatever it was before; with both valves in the same position and equal flow maxima, an in-range level is unchanged |
| Sim.OxygenAfterTransfer | sim/sim.py:77-92 | dissolved oxygen after the transfer term and its clamp lies in [0,150]; its inputs are the biomass and pressure from the start of the tick |
| Sim.PhAfter | sim/sim.py:95-98 | pH after relaxation, noise and clamp lies in [5.5,8.5]; a zero step leaves an in-range pH unchanged |
| Sim.RpmFor | sim/sim.py:107 | the agitator speed lies in [100,700] for an agitation input in [0,1], with 100 at 0 and 700 at 1 |
| Sim.PressureAfter | sim/sim.py:110-115 | headspace pressure after its balance lies in [P_min,P_max] |
| Sim.TempNoise | sim/sim.py:119 | the temperature noise lies in [-0.01,0.01) for a draw in [0,1) |
| Sim.OxygenNoise | sim/sim.py:120 | the oxygen noise lies in [-0.05,0.05) for a draw in [0,1) |
| Sim.Advance | sim/sim.py:52-123 | after one step: the clock moved by exactly dt; level in [0,100]; pH in [5.5,8.5]; pressure in [P_min,P_max]; rpm equals the agitation mapping; od in [-0.05,150.05), because the noise is added after the clamp and not clamped again |
| Sim.OdEscapesClampBelow | sim/sim.py:92-120 | the oxygen noise is added after the [0,150] clamp and not clamped again: from od 0 with a low draw the reading is below 0 |
| Sim.OdEscapesClampAbove | sim/sim.py:92-120 | likewise from od 150 with a high draw the reading is above 150 |
| Sim.StepKeepsInvariant | sim/sim.py:52-123 | from any state, with valid inputs and draws in [0,1), a step lands inside all of the engine's bounds |
| Sim.RpmIgnoresHistory | sim/sim.py:107 | the agitator speed after a step is the same for any two previous states and any draws |
| Sim.OxygenIgnoresVent | sim/sim.py:85-115 | dissolved oxygen after a step does not depend on the vent setting, so the saturation term reads the pressure from before this tick's pressure update |
| Sim.LevelHeldWhenValvesMatch | sim/sim.py:31-64 | with equal flow maxima and both valves in the same position, a step leaves an in-range level unchanged |
| Sim.BiomassAfter | sim/sim.py:101-104 | the logistic growth step `b + mu*b*(1 - b/Xmax)*dt` with mu 0.08 and Xmax 5.0; no contract of its own: its properties are `Sim.BiomassGrows`, `Sim.BiomassBelowCapacity` and `Sim.BiomassOvershootsAtLargeStep` |
| Sim.BiomassGrows | sim/sim.py:101-104 | for biomass in [0,5] and dt >= 0 the logistic step never decreases biomass |
| Sim.BiomassBelowCapacity | sim/sim.py:101-104 | for biomass in [0,5] and 0 <= mu*dt <= 1 the step stays in [biomass, 5] |
| Sim.BiomassOvershootsAtLargeStep | sim/sim.py:101-104 | with dt = 25 s, biomass 4.0 grows past the capacity 5.0; nothing corrects the overshoot |
| Sim.TempAfterBalance | sim/sim.py:68-74 | the energy balance (heater power minus losses to Tamb, over Cp, times dt) before the temperature noise; no contract of its own: its property is `Sim.TempRelaxesTowardAmbient` |
| Sim.TempRelaxesTowardAmbient | sim/sim.py:68-74 | with the heater off and k_loss*dt <= Cp, the energy balance moves a warm broth toward Tamb without crossing it |
| Sim.Run | sim/main.py:124-126 | repeated steps of the driver loop at a fixed dt, one set of draws per step, with no commands in between; no contract of its own: its properties are `Sim.RunAdvancesClock`, `Sim.RunKeepsInvariant` and `Sim.RunKeepsBiomassBelowCapacity` |
| Sim.RunAdvancesClock | sim/sim.py:123 | after n steps of dt the clock has advanced by exactly n*dt |
| Sim.RunKeepsInvariant | sim/sim.py:52-123 | any number of steps keeps all of the engine's bounds |
| Sim.RunKeepsBiomassBelowCapacity | sim/sim.py:101-104 | any number of steps with mu*dt <= 1 leaves biomass never below its starting value and at most 5 |
| Sim.BioReactorSim.constructor | sim/sim.py:26-49 | a new engine has the default state, the default inputs, the default parameters and the given seed |
| Sim.BioReactorSim.Reset | sim/sim.py:26-49 | re-running the constructor restores the default state, inputs and parameters and records the new seed |
| Sim.BioReactorSim.Step | sim/sim.py:52-123 | updating the fields one after another in place gives exactly `Advance` of the old state; only `x` is written; the engine invariant is kept |
| Sim.BioReactorSim.Actuators | sim/sim.py:126-134 | the actuator snapshot is the inputs, with valves 0/1 and continuous settings in [0,1] |
| Sim.BioReactorSim.Readout | sim/sim.py:136-149 | the sensor snapshot carries each state field (dissolved oxygen in the field `dissolvedOxygen`, published as `do`), within the engine's bounds; the actuator settings are present exactly when asked and are then the engine's current inputs, as a nested `Option<Inputs>` where the source merges them flat into the dict |
| PyStr.Strip | sim/main.py:27 | `str.strip()` over CPython's whitespace set; no contract of its own: its properties are `PyStr.StripSpec` and `PyStr.StripIdempotent` |
| PyStr.Lower | sim/main.py:27 | `str.lower()` on ASCII letters; no contract of its own: its property is `PyStr.LowerSpec` |
| PyStr.Normalize | sim/main.py:27 | `strip().lower()`, as `_to_bool01`, `_to_float01` and `on_cmd` (sim/main.py:46) apply it; no contract of its own: its properties are `PyStr.NormalizeIdempotent` and `PyStr.NormalizeIgnoresCaseAndPadding` |
| PyStr.StripSpec | sim/main.py:27 | `strip()` keeps one contiguous piece, removes only whitespace around it, and the piece has no whitespace at either end |
| PyStr.LowerSpec | sim/main.py:27 | `lower()` leaves no upper-case ASCII letter and changes no other character |
| PyStr.StripIdempotent | sim/main.py:27 | stripping twice is stripping once |
| PyStr.NormalizeIdempotent | sim/main.py:46 | `strip().lower()` applied to its own output changes nothing |
| PyStr.NormalizeIgnoresCaseAndPadding | sim/main.py:27 | normalisation gives the same result for a payload, its lower-cased form and its stripped form |
| Control.ClampPy | sim/main.py:41 | Python's `max(lo, min(hi, f))` lies in [lo,hi]; a finite value is clamped; `nan` and `inf` give hi; `-inf` gives lo |
| Control.ToBool01 | sim/main.py:26-28 | the result is 0 or 1, and 1 exactly when the trimmed, lower-cased payload is "1", "on", "true" or "yes" |
| Control.ToBool01Examples | sim/main.py:26-28 | " On\t" and "YES" give 1; "1.0" and "off" give 0 |
| Control.Float01OfNormalized | sim/main.py:33-41 | "on"/"true"/"yes" give 1.0; "off"/"false"/"no" give 0.0; a failed parse gives 0.0; otherwise the parsed value is clamped; the result is always in [0,1] |
| Control.ToFloat01 | sim/main.py:31-41 | every result lies in [0,1] |
| Control.ToFloat01Examples | sim/main.py:31-41 | "2.5" gives 1.0; "garbage" gives 0.0; " False " gives 0.0 |
| Control.HelpersIgnoreNormalizedPayload | sim/main.py:46-77 | passing the already trimmed, lower-cased payload to the helpers gives the same settings as the raw payload |
| Control.SuffixesExclusive | sim/main.py:65-77 | no topic ends with two different actuator suffixes, so at most one actuator branch fires |
| Control.EndsWith | sim/main.py:48 | `str.endswith`: the topic's last characters equal the suffix; used by every dispatch test; properties in `Control.SuffixesExclusive` and `Control.ActuatorOf` |
| Control.ActuatorOf | sim/main.py:65-77 | a topic addresses an actuator exactly when it ends with that actuator's suffix |
| Control.SetActuator | sim/main.py:65-77 | an actuator command changes only the addressed input; a valve gets the 0/1 value of `_to_bool01`, a continuous input gets the [0,1] value of `_to_float01`; valid inputs stay valid |
| Control.ApplyActuator | sim/main.py:65-77 | a topic with no actuator suffix leaves the inputs unchanged; a topic that addresses an actuator sets exactly that input as `Control.SetActuator` gives; inputs whose suffix the topic lacks keep their settings; valid inputs stay valid |
| Control.IsResetTopic | sim/main.py:48 | a reset command is a topic ending with `/simCmd/reset` or `/cmd/reset`; its effect is stated by `Control.Controller.OnCmd` |
| Control.IsTimeScaleTopic | sim/main.py:56 | a time-scale command is a topic ending with `/simCmd/time_scale`; its effect is stated by `Control.Controller.OnCmd` |
| Control.SeedFromPayload | sim/main.py:50-53 | the reset seed is the integer parsed from the stripped payload, or the configured seed when parsing fails |
| Control.TimeScaleFromPayload | sim/main.py:58-63 | the new time scale lies in [0,50]; a parsed finite value is clamped; a failed parse keeps the previous value, re-clamped; any parsed value is clamped with Python's argument order, so `nan` and `inf` give 50 and `-inf` gives 0 |
| Control.TickDt | sim/main.py:125 | with a non-negative tick, the tick's dt is non-negative for a non-negative time scale and at most TICK_MS/20 for a time scale of at most 50 |
| Control.DefaultCadenceKeepsBiomassBelowCapacity | sim/main.py:125 | at the default 200 ms tick and any clamped time scale, one step keeps biomass in [biomass, 5] |
| Control.Controller.constructor | sim/main.py:9-15 | start-up builds the engine with SEED and default state and inputs, and takes TICK_MS and the initial TIME_SCALE as configured |
| Control.Controller.OnCmd | sim/main.py:44-77 | a reset topic reinitialises the engine with the payload's seed or SEED, and nothing else changes; a time-scale topic changes only TIME_SCALE; any other topic changes only the addressed input, or nothing if no suffix matches |
| Control.Controller.ApiReset | sim/main.py:86-93 | the endpoint reinitialises the engine with the given seed or SEED and returns that seed |
| Control.Controller.ApiTimeScale | sim/main.py:95-103 | the endpoint applies and returns the given value, or the current one, clamped to [0,50] with Python's argument order: `nan` and `inf` give 50, `-inf` gives 0 |
| Control.Controller.Tick | sim/main.py:123-126 | one loop iteration steps the engine by TICK_MS/1000 * TIME_SCALE |

## Left out

- The MQTT bridge (`sim/mqtt_bridge.py`): connecting, subscribing and publishing are network I/O. It decodes payloads to text before calling `on_cmd`, so payloads are modelled as strings and the bytes-decoding branch of `on_cmd` is not modelled.
- The FastAPI plumbing is network I/O: the app, the static UI, the redirect, `/health` and the websocket stream with its `time_scale`, `pressure_ext_kpa` and `temperature_ext_c` fields.
- The asyncio driver loop, its sleeps and its publishing are scheduling and I/O. `Controller.Tick` keeps one iteration's `dt` and step, and `Sim.Run` gives repeated steps at a fixed dt with no commands in between.
- Concurrency: each command handler and each step is modelled as atomic. In the source they are not: `mb.loop_start()` (`sim/main.py:80`) runs the MQTT client on a background thread that calls `on_cmd`, while `sim.step` runs in the asyncio loop (`sim/main.py:123-129`). Two interleavings are therefore not modelled: a reset in the middle of a step replaces `self.x` while the step keeps writing into the discarded `State` it holds (`sim/sim.py:53`), and an actuator command landing between `sim/sim.py:77` and `sim/sim.py:111` makes one step read two different settings of the same input.
- Environment configuration (`MQTT_*`, `UI_*`, `TICK_MS`, `SEED`, `TIME_SCALE`) is process setup. The three values the core uses are constructor arguments. The initial `TIME_SCALE` is not clamped, as in the source. `Controller.timeScale` is a `real`, so an initial `nan` or `inf` from the environment (`sim/main.py:13`), and the 50 or 0 a later unparsable time-scale payload would then give, are not modelled.
- Python's Mersenne Twister is a foreign library. Draws are parameters and the seed is only recorded, so replay determinism is not modelled.
- The grammars of `float()` and `int()` are not modelled: they are parser parameters.
- IEEE-754 behaviour inside the step is not modelled: rounding, overflow, and `nan`/`inf` reaching the state. Asymptotic trends such as temperature convergence are not proved.
- Sim.BioReactorSim.Readout: does not model `round(x, n)`, because Python's rounding of binary floats is float-specific. The snapshot carries the unrounded values.
- Sim.BioReactorSim.Actuators: does not model `round(x, 3)`, for the same reason, and so is the identity on the inputs.
- PyStr.LowerSpec: models `str.lower()` on ASCII letters only. Python's full Unicode lower-case mapping is not modelled.
- `State` and `Inputs` are values held in the engine's fields rather than separate mutable objects. Their object identity is not modelled: `step` holds references to them (`sim/sim.py:53`), which matters only under the interleavings listed under concurrency above.
