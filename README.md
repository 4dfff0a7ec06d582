# sun_dimmer control core in Dafny

`sun_dimmer.py` keeps the brightness of a laptop panel and external monitors in
step with the sun. Every polling interval it reads the first device's
brightness, computes the sun's altitude, maps it through a piecewise-linear
curve to a target percentage, detects whether the user changed the brightness
by hand since the last write (and if so absorbs the change into a persistent
user offset), decides whether the change is worth logging, and writes the
truncated and clamped value to every configured device.

This project models that per-tick logic. Sensors and actuators are inputs:
the device reading is an `Option<nat>`, the sun altitude an `Option<real>`,
and the outcome of each device's write command a `bool`.

Modules:

- `Base` (`base.dfy`): `Option` and `Abs`.
- `Settings` (`settings.dfy`): the configuration record, the device kinds,
  the default configuration.
- `BrightnessCurve` (`curve.dfy`): the altitude-to-brightness curve, its
  bounds, monotonicity and a bound on its slope.
- `Actuation` (`actuation.dfy`): truncation toward zero (`int()`), the
  clamp, the commands sent to each device, and `SetBrightness`. That method
  tries every device in turn and reports success only if all writes
  succeeded.
- `ChangeGate` (`gates.dfy`): the imminence gate (look-ahead) and the
  materiality gate (hysteresis of half a point).
- `ControlLoop` (`control.dfy`): the persisted state and run-time trackers,
  and `Step`, one loop iteration as a function. The class `SunDimmer` has
  `SetOffset`, `Tick` and `Run`, which update its fields in place and are
  proved equal to `Step` and `Steps`.

Numbers: brightness bounds are integers (the 1–100 scale of the defaults).
Altitudes, the tolerance, the user offset and the computed brightness are
`real`. The offset becomes non-integral once a manual change is absorbed.
Python's `int()` on a float truncates toward zero; `Trunc` models it.

Actuation truncates rather than rounds: a target of 50.5 is sent as 50
(`TruncatesHalfPoints`). The persisted user offset is not an integer in
general, because after a manual change it is stored as `actual - calculated`.

## Model

| member | source | states |
|---|---|---|
| BrightnessCurve.FromSun | sun_dimmer.py:270-282 | at or below the sun-down altitude the target is exactly the minimum; above it and at or past the sun-high altitude, exactly the maximum; with min <= max the target always lies in [min, max] |
| BrightnessCurve.OnLine | sun_dimmer.py:278-282 | with sane bounds the curve is the straight line through (sunDownAlt, min) and (sunHighAlt, max), evaluated at the altitude moved onto the ramp |
| BrightnessCurve.Monotone | sun_dimmer.py:274-282 | across all three segments, a higher sun never gives a lower target (given min <= max) |
| BrightnessCurve.SlopeBound | sun_dimmer.py:278-282 | when the sun rises by d degrees the target rises by between 0 and d * (max - min) / (sunHighAlt - sunDownAlt) |
| BrightnessCurve.DefaultHalfWay | sun_dimmer.py:43-48 | under the default configuration, 12 degrees gives 50.5 |
| Actuation.Trunc | sun_dimmer.py:243 | `int()` of a float: the integer between zero and x that is less than one away from x |
| Actuation.Clamp | sun_dimmer.py:242-243 | the result lies in [lo, hi] when lo <= hi; a value already in range is kept; below lo gives lo, above hi gives hi |
| Actuation.Actuated | sun_dimmer.py:241-243 | the value sent always lies in [min, max] (when min <= max), and equals the truncated percentage whenever that is already in range |
| Actuation.ActuatedMonotone | sun_dimmer.py:242-243 | a higher target never yields a lower value sent |
| Actuation.TruncatesHalfPoints | sun_dimmer.py:242-243 | 50.5 is sent as 50; a negative target is raised to the minimum 1 |
| Actuation.CommandFor | sun_dimmer.py:255-259 | laptops and monitors get a command carrying the percentage; the ddcutil command goes exactly to monitors and addresses the monitor's own display id; a device of unknown type gets none |
| Actuation.CommandsCoverDevices | sun_dimmer.py:253-262 | one command per device of known type, each carrying the same clamped value |
| Actuation.CommandsInDeviceOrder | sun_dimmer.py:253-262 | the commands for a device list are those of its first part followed by those of the rest, so each device gets its own command in device order |
| Actuation.CommandsOfOne | sun_dimmer.py:255-262 | a single laptop or monitor yields exactly its own command; an unrecognised device yields none |
| Actuation.AllWritesSucceedIff | sun_dimmer.py:252-266 | the success flag stays true exactly when no single device's write failed |
| Actuation.SetBrightness | sun_dimmer.py:239-268 | issues the command for every device whatever the earlier outcomes; returns the clamped value when all writes succeeded and None when any one failed |
| ChangeGate.ChangeSoon | sun_dimmer.py:155-171 | fails open (true) when an altitude is unavailable; otherwise true exactly when the curve moves by more than 1 point between now and the horizon, whatever the user offset |
| ChangeGate.QuietWhileSunBarelyMoves | sun_dimmer.py:165-169 | if the sun moves by no more than 1 / slope degrees within the horizon, the imminence gate stays closed |
| ChangeGate.Material | sun_dimmer.py:348-349 | true when nothing was logged yet, otherwise exactly when the target leaves the half-point band around the last logged target |
| ControlLoop.LoadState | sun_dimmer.py:110-124 | without a readable state file the state is offset 0, last brightness 50; otherwise the stored state |
| ControlLoop.InitialBaseline | sun_dimmer.py:319 | the drift baseline before the first write is the reading, or 50 when the reading is missing or 0; it is always positive |
| ControlLoop.Step | sun_dimmer.py:322-362 | a tick without altitude changes nothing and reports Skipped; a tick with altitude always clears the first-iteration flag |
| ControlLoop.TickReport | sun_dimmer.py:334-352 | a tick with altitude issues the commands for the actuated target to every device whatever the gates say, reports the written value only when every write succeeded, and is logged exactly when the imminence and materiality gates are both open |
| ControlLoop.OffsetOnlyOnManualChange | sun_dimmer.py:336-345 | the offset is reset to reading minus curve target exactly when a manual change is detected (not first tick, reading present, drift beyond tolerance), otherwise unchanged |
| ControlLoop.ManualChangeIsKept | sun_dimmer.py:337-356 | after a detected manual change the new target equals the reading, so an in-range reading is written back unchanged and becomes the new baseline |
| ControlLoop.BaselinesFollowWrites | sun_dimmer.py:352-360 | last set value and persisted last brightness move, together, only on a fully successful write; the logged baseline becomes the target only when the write succeeded and the materiality gate was open |
| ControlLoop.SteadyTickIsFixedPoint | sun_dimmer.py:331-362 | with the same altitude, a reading equal to the last written value (or none) and successful writes, the next tick leaves the state unchanged and does not log |
| ControlLoop.StepSyncs | sun_dimmer.py:354-357 | a successful tick makes last-set and persisted last brightness equal and in bounds, and no tick breaks that |
| ControlLoop.StepsKeepSynced | sun_dimmer.py:322-362 | that agreement, once reached, holds after any number of ticks |
| ControlLoop.FirstRunUntilAltitude | sun_dimmer.py:320-362 | the first-iteration flag stays set exactly as long as no tick had an altitude |
| ControlLoop.SunDimmer.constructor | sun_dimmer.py:62-71 | a new controller has the loaded (or default) state and has logged nothing |
| ControlLoop.SunDimmer.SetOffset | sun_dimmer.py:284-294 | the offset becomes the given value; last brightness and all other fields are unchanged; returns true |
| ControlLoop.SunDimmer.Tick | sun_dimmer.py:323-362 | the fields after one iteration and its report are those of Step |
| ControlLoop.SunDimmer.Run | sun_dimmer.py:319-362 | sets the baseline from the initial reading, then the fields after the ticks are those of Steps, and each report is that tick's Step report |

## Left out

- Running the external commands (`brightnessctl`, `ddcutil`, `where-am-i`) and parsing their output with regular expressions is not modelled. The reading is an input `Option<nat>`, and the outcome of each device's write is an input `bool`.
- Location lookup (manual, GeoClue, IP) and the fatal return when it fails are not modelled. `Run` starts once coordinates are known.
- The solar-position computation (`get_altitude`) is a floating-point astronomy library. Altitudes are inputs. The horizon `log_before_change_minutes` only enters through the second altitude given to the imminence gate.
- Loading and saving the JSON configuration and state files, `mkdir`, and adding a missing `log_before_change_minutes` are not modelled. Saving the state is a no-op; `LoadState` takes the stored state as an input.
- Console logging and colouring are not modelled. Which lines are printed is reduced to the `logged` flag of a tick's report. The per-device error lines are left out. `should_log_now` always returns true and is not modelled.
- `get_status` only reads two fields and formats file paths, so it is not modelled.
- Signal handling, `sleep`, the per-tick exception handler with its 60-second back-off, and the command-line entry point are not modelled. Ticks run in order over a finite sequence.
- Python floats are modelled as exact reals. Rounding error, NaN and infinities are not modelled.
- Configuration values are not type-checked. Brightness bounds are integers; any other JSON type the source would accept is not modelled.
