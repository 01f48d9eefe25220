# Weather state machine and ship controller of DeepBlue, in Dafny

This project models two gameplay components of the DeepBlue sailing game and
proves properties of the model.

- **`WeatherSystem`** (`weather.dfy`, module `Weather`). It holds a list of
  weather presets and a transition from the current preset to a target preset.
  Progress grows by `weatherChangeSpeed * dt` per frame; when it reaches 1 it is
  clamped and the target becomes current. While a transition runs, the two
  presets are blended field by field and the blend is applied to the scene:
  fog, directional light, water colour, rain emission, wind audio and the water
  system's wave height. A lightning countdown, driven by the target preset's
  lightning frequency, reports when lightning strikes. The class
  `Weather.WeatherSystem` keeps four of the source's five private fields (the
  two indices, the progress and the lightning timer) and writes to a `Scene`
  value; the fifth, the `waterSystem` reference (WeatherSystem.cs:32), becomes
  the scene's optional wave height. Each method's postcondition ties the new
  phase to the pure step functions `Retarget`, `Advance` and `LightningTick`.
  The lemmas about those functions carry the properties.
- **`ShipController`** (`ship.dfy`, module `Ship`). W, S, A and D drive the speed
  by a rate-limited approach (`Mathf.MoveTowards`) and turn the ship at a
  constant yaw rate. The wake emission follows the absolute speed. Each physics step moves
  the ship along its forward vector. It also applies an upward spring force at
  every buoyancy point below the water object's height. The class
  `Ship.ShipController` keeps the mutated fields. The applied forces are a log.
- **`Engine`** (`engine.dfy`) holds the engine's value types and math helpers,
  as the engine documents them: `Mathf.Lerp` (with a clamped parameter),
  `Mathf.MoveTowards`, `Color.Lerp` and `Vector3`.

Floats are exact `real`s. Frame times, key states, random draws, the ship's
forward vector and the buoyancy points' world positions are parameters. Some
behaviours of the code that a reader might not expect, each modelled as
written:

- `ChangeWeather` with the index of the preset already shown, while no
  transition runs, restarts the transition at progress 0 (WeatherSystem.cs:60-67).
  Every following tick blends that preset with itself and applies it again. See
  `Weather.RetargetToShownPreset`.
- The lightning countdown reads the TARGET preset's frequency, not the blended
  one (WeatherSystem.cs:143). See `Weather.WeatherSystem.UpdateWeatherEffects`.
- With an empty preset list, `InitializeWeather` logs an error and returns
  (WeatherSystem.cs:49-53), and `ChangeWeather` rejects every index
  (WeatherSystem.cs:62). The model leaves the state as it was. `Update`
  requires a non-empty list, because the code would index an empty array at
  WeatherSystem.cs:143.
- `ApplyWeatherState` multiplies the water system's wave height by the preset's
  multiplier each time it runs (WeatherSystem.cs:111). It does not reset it to
  a base value, so the height compounds. See `Weather.WaveHeightCompounds`.

## Model

| member | source | states |
|---|---|---|
| `Engine.Lerp` | WeatherSystem.cs:95-101 | `Mathf.Lerp` clamps its parameter: at t <= 0 it gives a, at t >= 1 it gives b, and it never leaves the segment between a and b |
| `Engine.MoveTowards` | ShipController.cs:41-49 | reaches the target when it is within maxDelta; otherwise moves exactly maxDelta towards it; never moves more than maxDelta and never overshoots |
| `Engine.ColorLerp` | WeatherSystem.cs:97-98 | `Color.Lerp` gives the first colour at t <= 0, the second at t >= 1, and a colour blended with itself is unchanged |
| `Weather.LerpState` | WeatherSystem.cs:94-101 | the blended preset has the source's preset settings at t <= 0 and the target's at t >= 1; blending a preset with itself gives its settings; every scalar field stays between the two presets' values |
| `Weather.LightIntensity` | WeatherSystem.cs:120 | light intensity lies in [0.5, 1]; it is 1 with no fog and 0.5 at fog density 0.5 or more |
| `Weather.LightDimsWithFog` | WeatherSystem.cs:120 | denser fog never gives a brighter light |
| `Weather.ScaleWaves` | WeatherSystem.cs:109-112 | the wave height is written only when there is a water system, and then becomes the multiplier times the old height |
| `Weather.ApplyWeatherState` | WeatherSystem.cs:107-139 | missing components stay missing and present ones stay present; fog takes the sky colour and the fog density; light takes the sky colour and an intensity in [0.5, 1]; rain rate is 1000 times the rain intensity; wind pitch is always the volume plus 0.5; the wave height is multiplied by the preset's multiplier |
| `Weather.ApplyIgnoresName` | WeatherSystem.cs:107-139 | two presets with the same seven settings produce the same scene, whatever their names |
| `Weather.WaveHeightCompounds` | WeatherSystem.cs:109-112 | applying one preset k times scales the wave height by its multiplier to the power k |
| `Weather.Retarget` | WeatherSystem.cs:60-67 | an index outside [0, n) changes nothing; a valid index becomes the target with progress 0 and the current index unchanged; the phase invariant is kept |
| `Weather.Advance` | WeatherSystem.cs:82-89 | a finished phase (progress >= 1) is left as it is; the target never moves; progress never exceeds 1 and never decreases for a non-negative step; on reaching 1 the target becomes current |
| `Weather.AdvanceKeepsWellFormed` | WeatherSystem.cs:82-89 | a tick keeps indices in range, progress <= 1 and "finished implies current == target", and keeps progress >= 0 for a non-negative step |
| `Weather.CompletionShowsTarget` | WeatherSystem.cs:85-103 | on the tick that reaches progress 1 the blend has exactly the target preset's settings and applies the same scene as the target preset |
| `Weather.RunKeepsPreset` | WeatherSystem.cs:82-89 | a phase whose current and target presets agree keeps both on that preset over any number of ticks |
| `Weather.RetargetToShownPreset` | WeatherSystem.cs:60-67 | retargeting to the shown preset while stable restarts the transition at 0; after any number k of following ticks the phase is still on that preset, the blend has exactly its settings and applies the same scene as the preset itself |
| `Weather.RunStaysFinished` | WeatherSystem.cs:82 | once progress is 1, any number of ticks leaves the phase unchanged |
| `Weather.RunMonotone` | WeatherSystem.cs:82-89 | over any number of ticks with a non-negative step, progress stays in [0, 1], never decreases, the target stays put and the phase stays well formed |
| `Weather.TransitionCompletes` | WeatherSystem.cs:82-89 | with a positive step, k ticks whose total step covers the remaining progress finish the transition with current == target |
| `Weather.FirstOther` | WeatherSystem.cs:72-75 | the retry loop stops at the first draw that differs from the target, and every earlier draw equalled the target |
| `Weather.RetryPick` | WeatherSystem.cs:69-77 | with more than one preset the random pick is in range and differs from the current target; with at most one preset it is 0 |
| `Weather.LightningTick` | WeatherSystem.cs:143-153 | with frequency <= 0 the timer is untouched and nothing strikes; otherwise lightning strikes exactly when the timer minus dt is <= 0; on a strike the timer is reset to roll / frequency, which lies in [1/f, 10/f]; with frequency > 0, after every tick the timer is strictly positive |
| `Weather.WeatherSystem.constructor` | WeatherSystem.cs:29-33 | the field initialisers: both indices 0, progress 1, timer 0, and the phase invariant holds |
| `Weather.WeatherSystem.InitializeWeather` | WeatherSystem.cs:47-58 | with no presets nothing changes; otherwise current == target == the drawn index and that preset is applied to the scene |
| `Weather.WeatherSystem.ChangeWeather` | WeatherSystem.cs:60-67 | the phase becomes `Retarget` of the old phase; the scene and the timer are unchanged |
| `Weather.WeatherSystem.ChangeWeatherRandom` | WeatherSystem.cs:69-78 | the retry loop ends on `RetryPick`; with more than one preset the new target differs from the old one and progress is 0; with exactly one the target is 0 and progress is 0 |
| `Weather.WeatherSystem.UpdateWeatherTransition` | WeatherSystem.cs:80-105 | the phase becomes `Advance` of the old phase; while unfinished, the blend at the new progress is applied to the scene, otherwise the scene is untouched |
| `Weather.WeatherSystem.UpdateWeatherEffects` | WeatherSystem.cs:141-154 | timer and strike follow `LightningTick` with the target preset's frequency; phase and scene are unchanged |
| `Weather.WeatherSystem.Update` | WeatherSystem.cs:41-45 | a transition tick, then a lightning tick; the phase invariant is kept |
| `Ship.NextSpeed` | ShipController.cs:39-50 | W (which wins over S) approaches maxSpeed by at most acceleration*dt without overshoot; else S approaches -maxSpeed/2 the same way; with neither key the speed coasts towards 0 by at most 0.5*acceleration*dt |
| `Ship.SpeedStaysInEnvelope` | ShipController.cs:39-50 | for maxSpeed, acceleration and dt >= 0, a speed in [-maxSpeed/2, maxSpeed] stays there after any input |
| `Ship.EnvelopeHoldsOverFrames` | ShipController.cs:39-50 | the same holds over any run of frames |
| `Ship.YawDelta` | ShipController.cs:52-59 | A (which wins over D) turns by -rotationSpeed*dt, D by +rotationSpeed*dt, otherwise 0; never more than rotationSpeed*dt in size |
| `Ship.WakeRate` | ShipController.cs:61-65 | the wake emission rate is twice the absolute speed, never negative, and 0 exactly when the ship is at rest |
| `Ship.Displacement` | ShipController.cs:70 | the step is forward scaled by speed*fixedDt, and zero at rest or for a zero step |
| `Ship.DisplacementAddsUp` | ShipController.cs:70 | two steps at one speed move the ship exactly as far as one step of their combined time |
| `Ship.Lift` | ShipController.cs:82-84 | the lift is purely vertical, (waterHeight - y) * buoyancyForce, applied at the point |
| `Ship.Buoyancy` | ShipController.cs:78-85 | a point gets a force exactly when it is strictly below the water height, and that force is its lift |
| `Ship.LiftIsUpwardAndGrowsWithDepth` | ShipController.cs:80-84 | for buoyancyForce > 0 the lift of a submerged point is strictly positive and strictly larger for a deeper point |
| `Ship.BuoyancyForces` | ShipController.cs:76-86 | the loop applies at most one force per point, each at a position strictly below the water height |
| `Ship.Submerged` | ShipController.cs:80 | every filtered point lies below the water height and is one of the points, and every point below the water height is kept |
| `Ship.SubmergedCounts` | ShipController.cs:80 | each point below the water height occurs in the filtered list exactly as often as in the points; no other point occurs |
| `Ship.SubmergedAppend` | ShipController.cs:76-80 | filtering a concatenation is the concatenation of the filtered parts, so the points keep their order |
| `Ship.ForcesAreLiftsOfSubmerged` | ShipController.cs:76-86 | the loop applies exactly one force per submerged point, in order, each the lift for the single water height |
| `Ship.LiftIsScaledSubmersion` | ShipController.cs:76-86 | the total upward force the loop applies is the sum over the points of buoyancyForce times each point's depth below the water |
| `Ship.LiftIsLinearInSubmersion` | ShipController.cs:76-86 | the total upward force is buoyancyForce times the total submersion of the points |
| `Ship.ShipController.constructor` | ShipController.cs:5-23 | tuning values and water height as given; speed 0 and no forces applied |
| `Ship.ShipController.HandleInput` | ShipController.cs:36-66 | the new speed is `NextSpeed`, the yaw grows by `YawDelta`, and the wake rate (when there is a wake) is `WakeRate` of the new speed; the speed envelope is preserved |
| `Ship.ShipController.MoveShip` | ShipController.cs:68-72 | the position moves by `Displacement` of the current speed; nothing else changes |
| `Ship.ShipController.ApplyBuoyancy` | ShipController.cs:74-87 | the force log grows by `BuoyancyForces` of the points at the water object's height; nothing else changes |
| `Ship.ShipController.FixedUpdate` | ShipController.cs:30-34 | buoyancy, then movement |

## Left out

- FishAI.cs, WaterSystem.cs, NavigationUI.cs, MediterraneanMaps.cs and PortMarker.cs are not part of this model. They hold flocking geometry, the trigonometric and noise wave field, UI text and scene setup.
- Floating point: floats are exact reals, so IEEE rounding, NaN and infinities are not modelled.
- The `LightningFlash` and `PlayDelayedThunder` coroutines (WeatherSystem.cs:156-188) are timed engine side effects. `UpdateWeatherEffects` only reports that lightning struck; the flash, the 70% thunder roll and its delay are not modelled.
- `Debug.LogError` for an empty preset list is not modelled; the state is left as it was.
- `FindObjectOfType`, `GetComponent` and the engine sinks (RenderSettings, Light, Material, ParticleSystem, AudioSource, Rigidbody) become constructor arguments, the `Scene` value and plain fields. The engine's own clamping of audio volume and pitch is not modelled.
- Weather.WeatherSystem.Update: requires a non-empty preset list; the index error the code raises on an empty list is not modelled.
- Weather.WeatherSystem.ChangeWeatherRandom: the draws of `Random.Range` are a finite list that must contain an index other than the target when there are several presets. The loop terminates with probability 1 in the game; the model does not treat probability or uniformity.
- Weather.WeatherSystem.Valid: progress >= 0 is kept only for a non-negative `weatherChangeSpeed`. A negative speed from the inspector can drive progress below 0, and the model allows that.
- Ship.ShipController.HandleInput: the yaw is an accumulated angle in degrees. The quaternion rotation and the wrap to [0, 360) are not modelled. The forward vector that `MoveShip` uses is a parameter, so its link to the yaw (sine and cosine) is not captured.
- Ship.ShipController.ApplyBuoyancy: the water object's height is a constant of the controller. The null reference the code raises without a water system is not modelled. The rigidbody's response to the forces is engine physics and is not modelled; forces are logged, not integrated.
