# FSFFB core in Dafny

A verified model of the core of FSFFB, a force-feedback bridge between flight simulators
(Microsoft Flight Simulator through SimConnect, X-Plane through a companion plugin) and a
force-feedback joystick. The model covers:

- **Joystick effect driver** (`joystick_manager.py`): the PID report layouts (Set Effect,
  Effect Operation, Set Constant Force, Set Periodic, Set Condition; section 5 of the USB HID
  Physical Interface Device class definition 1.0) with their little-endian encodings and
  decoders, the dynamic slot pool, the periodic-effect table with its pending flag, the
  condition effects on fixed slots 9, 10 and 11, `apply_effects`, `stop_all_effects` and the
  input report. The device is an `isConnected` flag plus an append-only log of written reports.
  Modules `HidReports`, `EffectTables`, `EffectRules`, `EffectInvariants`, `Joystick`.
- **Force synthesis** (`ffb_calculator.py`, `utils.py`): the parameter table, scaled
  parameters, the derivative history, spring offsets, the axes sent back to the simulator,
  aerodynamic spring coefficients, constant force, vibration and damper effects, and the
  low-pass filter, over `real`. Modules `Numeric`, `Params`, `FfbForces`, `FfbCalculator`.
- **Aircraft parameters and presets** (`aircraft.py`, `presets.py`): the built-in table, the
  built-in presets and the overlay, copy, save, delete and apply operations.
  Modules `Aircraft`, `Presets`, with ordered dictionaries in `Dict`.
- **X-Plane link** (`xplane_manager.py`, `FSFFB-XPP.cpp`): the telemetry text the plugin
  writes and the application parses, and the AXIS, OVERRIDE and SUBSCRIBE commands the
  application queues and the plugin applies, with the round trips between the two sides.
  Modules `Text`, `XPlaneManager`, `XPlanePlugin`, `XPlaneLink`.
- **MSFS SimVar bookkeeping** (`msfs_manager.py`): SimVars and SimVar arrays, override
  substitution, the event and datum queues and the edge-triggered STOP latch.
  Modules `MsfsSimVars`, `MsfsSubstitute`, `MsfsManager`.
- **Simulator routing** (`simulator_controller.py`): module `SimController`.

Floating-point text formatting and parsing (Python `float()`/`int()`/`str()`, C++
`stof`/`stoi`/`std::fixed`) are parameters (`XPlaneManager.PyNumbers`,
`XPlanePlugin.CppNumbers`), as are the transcendental functions (`Numeric.Transcendentals`,
with only the facts the proofs need) and the wall clock (`now`). Exceptions that the source
raises become `Result`/`Option` values or an `ok` flag.

## Model

| member | source | states |
|---|---|---|
| Numeric.Clamp | fsffb/utils.py:25-27 | the result lies in [lo, hi] whenever lo <= hi, is the value itself when it is already in range, and is lo when lo > hi or the value is below lo |
| Numeric.Scale | fsffb/utils.py:29-40 | out_min when in_min == in_max; otherwise in_min maps to out_min and in_max to out_max, and an in-range value lands in the output range |
| Numeric.ScaleClamp | fsffb/utils.py:42-45 | for every input, including ones outside the input range, the result lies in [out_min, out_max] when out_min <= out_max; on in-range inputs it equals `scale` |
| Numeric.Mix | fsffb/utils.py:47-49 | mix(a, b, 0) = a, mix(a, b, 1) = b, and for a ratio in [0, 1] the result lies between a and b |
| Numeric.ExpocurveEndpoints | fsffb/utils.py:51-63 | expocurve(0, k) = 0 and expocurve(1, k) = 1 for every k, on both the k >= 0 and the k < 0 branch, using only exp(0) = 1 and exp(-5.5) != 1 |
| Numeric.Magnitude | fsffb/utils.py:98-99 | the magnitude is never negative and is 0 for the zero vector |
| Numeric.ToPolar | fsffb/utils.py:107-110 | the polar radius is never negative and is 0 for the zero vector |
| Numeric.Normalize | fsffb/utils.py:101-105 | the zero vector normalises to (0, 0) instead of dividing by zero; otherwise each component times the magnitude gives back the original component |
| Numeric.FilterStep | fsffb/utils.py:118-127 | a time constant <= 0 yields the raw input; with a positive time constant, dt = 0 keeps the old value and dt >= 0 yields a value between the old value and the input |
| Numeric.LowPassFilter.constructor | fsffb/utils.py:114-116 | a new filter holds the given time constant and a filtered value of 0 |
| Numeric.LowPassFilter.Process | fsffb/utils.py:118-127 | the stored value becomes the filter step from the old stored value, and that value is returned |
| Numeric.Trunc | fsffb/hardware/joystick_manager.py:221 | Python's `int()` of a float: truncation toward zero, within one of the argument and with its sign |
| Numeric.FloorMod | fsffb/hardware/joystick_manager.py:227 | Python's float `%` for a positive divisor: the remainder lies in [0, m) and differs from x by a whole multiple of m |
| Params.SetValue | fsffb/core/ffb_calculator.py:67-72 | writing a parameter's value keeps every label, kind and range; the named parameter holds the new value, every other parameter is untouched, and an unknown name leaves the table as it was |
| Params.SetValueGet | fsffb/core/presets.py:321-322 | after a write, reading the written name gives the new value and reading any other name gives its old value |
| Aircraft.DefaultParamsSane | fsffb/core/aircraft.py:32-87 | the built-in table has no repeated name, every slider holds a number within its [min, max], and every checkbox holds a boolean |
| Aircraft.GetAircraftParams | fsffb/core/aircraft.py:90-108 | the result always has the built-in table's names, labels, kinds and ranges, in its order; no preset name, `""` or `"default"` gives the built-in table, and so does a name no preset has |
| Aircraft.PresetApplied | fsffb/core/aircraft.py:104-106 | for any other name that a preset has, the result is the built-in table with that preset's values applied |
| Aircraft.ApplyKeepsSane | fsffb/core/presets.py:318-322 | applying values that each fit their parameter keeps a table typed and every slider within its range |
| Aircraft.LoadedPresetSane | fsffb/core/aircraft.py:102-106 | a preset whose values fit the built-in table loads as a table whose sliders hold in-range numbers and whose checkboxes hold booleans |
| Aircraft.PresetKeysKnown | fsffb/core/presets.py:32-220 | each of the names a built-in preset sets is a parameter of the built-in table |
| Aircraft.PresetKeysDistinct | fsffb/core/presets.py:32-220 | the names a built-in preset sets are pairwise different |
| Aircraft.PresetRangesMatch | fsffb/core/aircraft.py:32-87 | each parameter a built-in preset sets is a slider with the range listed for it |
| Aircraft.PresetFits | fsffb/core/presets.py:32-228 | every built-in preset except "Aerostar" gives each parameter a number within its slider's range |
| Aircraft.BuiltInPresetsInRange | fsffb/core/aircraft.py:102-106 | loading any built-in preset other than "Aerostar", when no user preset shadows it, gives a typed table with every slider in range |
| Aircraft.AerostarVne | fsffb/core/presets.py:142-166 | the built-in "Aerostar" preset names each parameter once and sets `vne_override` to 800 |
| Aircraft.AerostarTable | fsffb/core/aircraft.py:104-106 | selecting "Aerostar" with no user preset of that name applies the built-in Aerostar values to the built-in table |
| Aircraft.AerostarExceedsVneSlider | fsffb/core/presets.py:145 | loading "Aerostar" leaves `vne_override` at 800 on a slider of range 0..400, so the loaded table is not in range |
| Aircraft.FirstRowApplied | fsffb/core/presets.py:318-322 | applying values overwrites the first parameter's value with the value given for its name and keeps its kind |
| Presets.StandardParams | fsffb/core/presets.py:32-220 | a built-in preset's `params` pairs each of the 21 preset names, in order, with its number |
| Presets.DefaultPresetNames | fsffb/core/presets.py:32-228 | no built-in preset is named `""` or `"default"`, the names that select the built-in table |
| Presets.DefaultPresetsDistinct | fsffb/core/presets.py:32-228 | the built-in preset table names each preset once |
| Presets.AllPresets | fsffb/core/presets.py:268-272 | the merged table names each preset once, and holds exactly the names of the built-in table and of the user's presets |
| Presets.PresetNames | fsffb/core/presets.py:274-276 | the built-in names come first, in their order, and the list holds exactly the built-in and the user names |
| Presets.GetPreset | fsffb/core/presets.py:278-281 | a preset is found exactly when the built-in table or the user's presets have the name; an unknown name is `None` |
| Presets.GetPresetUserWins | fsffb/core/presets.py:268-281 | a user preset shadows the built-in preset of the same name; otherwise the built-in one is found |
| Presets.SavedValuesShape | fsffb/core/presets.py:285-291 | saving a parameter table keeps every name, in order, each with its `'value'`, and no name twice |
| Presets.ApplyValues | fsffb/core/presets.py:318-322 | applying a preset's values keeps every name, label, kind and range of the table |
| Presets.ApplyValuesGet | fsffb/core/presets.py:318-322 | after applying, a parameter holds the preset's value for it, or its old value if the preset has none |
| Presets.ApplyValuesSnoc | fsffb/core/presets.py:318-322 | the loop over the preset's values: one more value writes that value onto the table built so far |
| Presets.ApplyPreset | fsffb/core/presets.py:310-327 | the result has the input's shape, and an unknown preset returns the input unchanged |
| Presets.SaveThenApply | fsffb/core/presets.py:283-327 | saving table P under a name and then applying that name to any table of P's shape gives back P |
| Presets.PresetManager.constructor | fsffb/core/presets.py:232-256 | the user's presets are the loaded file's content, or empty when there is no readable file |
| Presets.PresetManager.SaveUserPreset | fsffb/core/presets.py:283-299 | the user's presets gain or replace the entry for the name, holding the name, the description and each parameter's value; `get_preset` then finds exactly that entry |
| Presets.PresetManager.DeleteUserPreset | fsffb/core/presets.py:301-308 | returns whether the user had a preset of that name and removes it; the built-in preset of the name, if any, is found again |
| Presets.PresetManager.ApplyPresetToParams | fsffb/core/presets.py:310-327 | returns the preset applied to the argument, as a new table; the argument itself is a value and is not changed |
| HidReports.SetEffectHeader | fsffb/hardware/joystick_manager.py:50-58 | a Set Effect report carries gain 4096 and the given block, type, axes mask and X direction; every field not named (duration, trigger, sample period, Y direction, start delay) is 0 |
| HidReports.Start | fsffb/hardware/joystick_manager.py:60-64 | `start_effect` sends an Effect Operation report with operation 1 (start) and loop count 1 for the given block |
| HidReports.Stop | fsffb/hardware/joystick_manager.py:60-64 | `stop_effect` sends an Effect Operation report with operation 3 (stop) and the loop count left at 0 |
| HidReports.Condition | fsffb/hardware/joystick_manager.py:79-97 | a symmetric Set Condition block: positive and negative coefficients equal, both saturations 4096, dead band 0, for the given block, axis offset and centre offset |
| HidReports.Le16Read | fsffb/hardware/joystick_manager.py:50-97 | the two little-endian bytes of a 16-bit field read back as the value wrapped into c_uint16, or as the value wrapped into c_int16 for a signed field |
| HidReports.Le16Wrap | fsffb/hardware/joystick_manager.py:50-97 | wrapping a value into c_uint16 or c_int16 before packing does not change its two bytes |
| HidReports.Signed16 | fsffb/hardware/joystick_manager.py:69 | the two's-complement reading of a 16-bit pattern lies in [-32768, 32767] and is congruent to the pattern modulo 65536 |
| HidReports.Encode | fsffb/hardware/joystick_manager.py:31-35 | `bytes(report)` has the packed length of its structure (17, 4, 4, 9 or 15 bytes) and starts with the report id 101, 110, 105, 104 or 103 |
| HidReports.Decode | fsffb/hardware/joystick_manager.py:50-97 | a byte string decodes only when its first byte is one of the five report ids and its length is that structure's packed length |
| HidReports.DecodeEncode | fsffb/hardware/joystick_manager.py:50-97 | decoding the bytes of any report gives back exactly the fields the ctypes structure stores (each wrapped to its field's width) |
| HidReports.EncodeDecode | fsffb/hardware/joystick_manager.py:50-97 | every byte string that decodes is the encoding of the report it decodes to, so the layout is a bijection between stored reports and well-formed byte strings |
| HidReports.EncodeStored | fsffb/hardware/joystick_manager.py:50-97 | the bytes depend only on the wrapped field values, and a report whose fields are all in range is stored unchanged |
| EffectTables.DeviceUnits | fsffb/hardware/joystick_manager.py:221 | `int(x * 4096)` truncates toward zero: non-negative and at most x·4096 for x >= 0, non-positive and at least x·4096 for x <= 0, and 0 for 0 |
| EffectTables.DirectionByte | fsffb/hardware/joystick_manager.py:226-228 | the mirrored direction `(90 - d) % 360` scaled by 255/360 always fits a byte, in [0, 254], for every real angle including negative ones |
| EffectTables.WaveformType | fsffb/hardware/joystick_manager.py:292-302 | the effect type is square, sine, saw-up or saw-down; a missing `waveform` gives sine, and square is chosen exactly when the waveform is `'square'` |
| EffectTables.PeriodOf | fsffb/hardware/joystick_manager.py:289-290 | the period in milliseconds is never negative and is 0 whenever the frequency is missing, zero or negative |
| EffectTables.FreeSlot | fsffb/hardware/joystick_manager.py:250-262 | the allocator returns the lowest slot of 3-8 then 12-23 not in use, never the spring slot 1, the constant-force slot 2 or the condition slots 9-11, and returns nothing exactly when all eighteen are in use |
| EffectTables.PeriodicRequests | fsffb/hardware/joystick_manager.py:271-274 | the requested periodic effects are exactly the entries of the effect dictionary whose properties contain `'frequency'` |
| EffectTables.ConditionRequests | fsffb/hardware/joystick_manager.py:362-364 | the requested condition effects are exactly the entries named damper, inertia or friction |
| EffectTables.SpringProps | fsffb/hardware/joystick_manager.py:215-216 | a spring's properties, or the default `{coefficient: 0, cp_offset: 0}`, are numeric whenever the effect dictionary is well formed |
| EffectRules.PeriodicFirstSighting | fsffb/hardware/joystick_manager.py:320-334 | a new periodic request with a free slot writes a header, a Set Periodic of magnitude 0 and a Start on the lowest free slot, marks it used and stores the name as pending with a copy of its properties |
| EffectRules.PeriodicNoFreeSlot | fsffb/hardware/joystick_manager.py:321-324 | with every dynamic slot taken a new periodic request is skipped and nothing changes |
| EffectRules.PeriodicPendingGetsMagnitude | fsffb/hardware/joystick_manager.py:339-344 | on the next call a pending effect is configured again with its real magnitude `int(magnitude * 4096)` on the same slot and is no longer pending |
| EffectRules.PeriodicUnchangedWritesNothing | fsffb/hardware/joystick_manager.py:346-349 | a settled effect whose properties equal the stored copy writes nothing and changes nothing |
| EffectRules.PeriodicChangedRewrites | fsffb/hardware/joystick_manager.py:346-349 | a settled effect with changed properties gets exactly one header and Set Periodic pair on its slot, and the stored copy is replaced |
| EffectRules.VanishedPeriodicStopped | fsffb/hardware/joystick_manager.py:276-281 | a tracked periodic name that is no longer requested is stopped on its slot, leaves the table, and its slot becomes free for the allocator again |
| EffectRules.PeriodicSteadyState | fsffb/hardware/joystick_manager.py:267-349 | once every requested periodic effect is settled with the requested properties and nothing else is tracked, repeating the same request writes nothing and changes nothing |
| EffectRules.ConditionFirstActivation | fsffb/hardware/joystick_manager.py:383-426 | the first request for a condition effect uses its fixed slot (damper 9, inertia 10, friction 11), writes a header with the X and Y axes enabled, the X and Y Set Condition blocks (saturation 4096, dead band 0) and a Start, and marks the slot used |
| EffectRules.ConditionSlotClashSkips | fsffb/hardware/joystick_manager.py:386-388 | a condition slot already in use makes the driver log and skip the effect, changing nothing |
| EffectRules.ConditionUnchangedWritesNothing | fsffb/hardware/joystick_manager.py:428-447 | a tracked condition effect with unchanged properties writes nothing and changes nothing |
| EffectRules.ConditionChangedRewrites | fsffb/hardware/joystick_manager.py:428-447 | changed properties rewrite only the X and Y Set Condition blocks (no header, no Start) and replace the stored copy |
| EffectRules.ApplyDisconnected | fsffb/hardware/joystick_manager.py:199-201 | `apply_effects` on a disconnected device writes nothing and changes nothing |
| EffectRules.ApplyOrder | fsffb/hardware/joystick_manager.py:199-216 | on a connected device the reports go out in the source's order: periodic updates, condition updates, then the constant force on slot 2 (or a Stop on slot 2 when there is none), then the X and Y spring blocks on slot 1; the report log only grows |
| EffectRules.SpringDefault | fsffb/hardware/joystick_manager.py:215 | a missing spring is sent as a symmetric condition block with coefficient 0 and centre offset 0 on slot 1 |
| EffectInvariants.InitialInv | fsffb/hardware/joystick_manager.py:111-114 | the freshly constructed driver (nothing tracked, nothing used) satisfies the slot invariant |
| EffectInvariants.PeriodicSlotsInPool | fsffb/hardware/joystick_manager.py:250-262 | every slot held by a periodic effect is one of the eighteen dynamic slots |
| EffectInvariants.ConditionSlotsFixed | fsffb/hardware/joystick_manager.py:355-359 | every slot held by a condition effect is 9, 10 or 11 |
| EffectInvariants.ConditionSlotsUnique | fsffb/hardware/joystick_manager.py:355-359 | condition effects never share a slot, because the name-to-slot map is one-to-one |
| EffectInvariants.ConditionSlotFree | fsffb/hardware/joystick_manager.py:386-388 | while the invariant holds, the "slot already in use" error can never happen: an untracked condition name always finds its fixed slot free |
| EffectInvariants.UpdatePeriodicInv | fsffb/hardware/joystick_manager.py:267-349 | `_update_periodic_effects` keeps the slot invariant: the used set is exactly the tracked slots, periodic slots are distinct pool slots, condition slots are their fixed ones |
| EffectInvariants.UpdateConditionsInv | fsffb/hardware/joystick_manager.py:361-447 | `_update_condition_effects` keeps the same slot invariant |
| EffectInvariants.ApplyEffectsInv | fsffb/hardware/joystick_manager.py:199-216 | `apply_effects` keeps the slot invariant, so no two live effects ever share a slot |
| EffectInvariants.StopAllClears | fsffb/hardware/joystick_manager.py:458-478 | `stop_all_effects` on a connected device empties both tables and frees every slot, logs a Stop for every tracked slot (periodic first, then condition) and a final Stop on slot 2, and keeps the invariant |
| Joystick.ParseInput | fsffb/hardware/joystick_manager.py:182-197 | a report whose first byte is not 1 is ignored; an id-1 report shorter than 5 bytes raises IndexError; otherwise both axes lie in [-8, 8) |
| Joystick.InputRoundTrip | fsffb/hardware/joystick_manager.py:186-197 | any signed 16-bit X and Y written little-endian after id 1 read back as exactly X/4096 and Y/4096 |
| Joystick.JoystickManager.constructor | fsffb/hardware/joystick_manager.py:102-116 | a new manager is disconnected, centred, with no effect tracked, no slot used and nothing written, and satisfies the slot invariant |
| Joystick.JoystickManager.WriteReport | fsffb/hardware/joystick_manager.py:480-488 | a report is appended to the device log only while connected; otherwise nothing changes |
| Joystick.JoystickManager.StartEffect | fsffb/hardware/joystick_manager.py:449-452 | writes an Effect Operation start with loop count 1 for the block |
| Joystick.JoystickManager.StopEffect | fsffb/hardware/joystick_manager.py:454-456 | writes an Effect Operation stop for the block |
| Joystick.JoystickManager.AllocateDynamicSlot | fsffb/hardware/joystick_manager.py:250-262 | the two scanning loops return the slot `FreeSlot` specifies (the lowest free of 3-8 then 12-23) and add exactly it to the used set, or return nothing and leave the set alone |
| Joystick.JoystickManager.ReleaseDynamicSlot | fsffb/hardware/joystick_manager.py:264-265 | removes exactly that slot from the used set |
| Joystick.JoystickManager.StopUnrequestedPeriodic | fsffb/hardware/joystick_manager.py:276-281 | the stop loop over a snapshot of the names pops, stops and releases every tracked periodic effect the request lacks, leaving the driver exactly as `DropPeriodic` says |
| Joystick.JoystickManager.StopUnrequestedConditions | fsffb/hardware/joystick_manager.py:366-371 | the same for condition effects, as `DropConditions` says |
| Joystick.JoystickManager.ConfigurePeriodic | fsffb/hardware/joystick_manager.py:309-317 | `_configure` writes a header with the direction axis enabled, then a Set Periodic with the magnitude, period and phase 0 |
| Joystick.JoystickManager.UpdatePeriodicEffect | fsffb/hardware/joystick_manager.py:284-349 | one pass of the request loop leaves the driver as `PeriodicStep` says (first sighting, pending, unchanged or changed) |
| Joystick.JoystickManager.UpdatePeriodicEffects | fsffb/hardware/joystick_manager.py:267-349 | the stop loop and then the request loop leave the driver as `UpdatePeriodic` says |
| Joystick.JoystickManager.UpdateConditionEffect | fsffb/hardware/joystick_manager.py:374-447 | one pass of the condition request loop leaves the driver as `ConditionStep` says |
| Joystick.JoystickManager.UpdateConditionEffects | fsffb/hardware/joystick_manager.py:361-447 | the stop loop and then the request loop leave the driver as `UpdateConditions` says |
| Joystick.JoystickManager.SendConstantForceEffect | fsffb/hardware/joystick_manager.py:218-244 | writes on slot 2 a constant-force header with the mirrored direction byte, a Set Constant Force with `int(magnitude * 4096)` and a Start |
| Joystick.JoystickManager.SendSpringEffect | fsffb/hardware/joystick_manager.py:490-511 | appends one symmetric Set Condition block on slot 1 for the axis, with coefficient and centre offset in device units, without checking the connection |
| Joystick.JoystickManager.ApplyEffects | fsffb/hardware/joystick_manager.py:199-216 | leaves the driver as `EffectTables.ApplyEffects` says and keeps the slot invariant |
| Joystick.JoystickManager.SendForces | fsffb/hardware/joystick_manager.py:209-216 | the constant force (or the Stop on slot 2) and then both springs are written in that order |
| Joystick.JoystickManager.StopAllEffects | fsffb/hardware/joystick_manager.py:458-478 | leaves the driver as `StopAll` says and keeps the slot invariant |
| Joystick.JoystickManager.ParseInputReport | fsffb/hardware/joystick_manager.py:182-197 | returns `ParseInput` of the report and stores the axes only when the report carries them; other reports leave the stick position alone |
| Joystick.JoystickManager.ReadAxes | fsffb/hardware/joystick_manager.py:513-519 | returns the last stored stick position |
| Joystick.JoystickManager.Connect | fsffb/hardware/joystick_manager.py:120-154 | connected afterwards exactly when it already was or a matching device was opened |
| Joystick.JoystickManager.ReadFailed | fsffb/hardware/joystick_manager.py:173-178 | a read error marks the device disconnected |
| EffectTables.ApplyEffects | fsffb/hardware/joystick_manager.py:199-216 | a disconnected device is left as it was; on a connected one the last two reports sent are the X and Y spring reports, from `spring_x`/`spring_y` or the zero defaults |
| EffectTables.StopAll | fsffb/hardware/joystick_manager.py:458-478 | a disconnected device is left as it was; on a connected one the connection is kept, the earlier log is a prefix of the new one, and the last report sent is a Stop on slot 2 |
| FfbForces.MaxOf | fsffb/core/ffb_calculator.py:290 | `max(list)` of a non-empty list is one of its elements and no element exceeds it |
| FfbForces.ValuesMapGet | fsffb/core/ffb_calculator.py:88-90 | copying the parameter table keeps exactly its names, and each copied value is the parameter's `'value'` |
| FfbForces.DefaultShapeHasScaledKeys | fsffb/core/ffb_calculator.py:86-123 | every table with the built-in aircraft parameters' names has every parameter `_get_scaled_params` divides and the frame reads, so no KeyError can arise |
| FfbForces.ScaledRanges | fsffb/core/ffb_calculator.py:86-123 | from sliders within their ranges, the scaled parameters lie in the scaled ranges (for example Vne override in [0, 400] kt, shaker and rumble intensities in [0, 1], propeller diameter in [0.01, 5] m) |
| FfbForces.SpringOffsets | fsffb/core/ffb_calculator.py:203-255 | the physical spring centre lies in [-1, 1] on both axes; with neither trim following nor an engaged followed autopilot both offsets are 0; an engaged followed autopilot zeroes the virtual offset and, on X-Plane, puts the physical Y centre at the clamped `APPitchServo` |
| FfbForces.FinalSimAxes | fsffb/core/ffb_calculator.py:257-278 | nothing is sent exactly when stick forwarding is off; otherwise `jx`, `jy` and `px` (passed through); both 0 while the autopilot flies and the stick stays within 0.3 of its spring centre, else the stick minus the virtual offset with X negated and Y inverted |
| FfbForces.Vne | fsffb/core/ffb_calculator.py:303-316 | a positive Vne override (knots) replaces the reported or derived never-exceed speed |
| FfbForces.DynamicPressure | fsffb/core/ffb_calculator.py:318 | `0.5 * rho * v**2` is never negative for a non-negative density, is positive for a positive density and a non-zero speed, and is 0 when either is 0 |
| FfbForces.QGain | fsffb/core/ffb_calculator.py:318-319 | `Q_gain` is never negative, is the exact reciprocal of the dynamic pressure at a non-zero Vne, and is 0 at Vne 0 |
| FfbForces.DiscArea | fsffb/core/ffb_calculator.py:293 | the propeller disc area is positive for a positive radius |
| FfbForces.PropWash | fsffb/core/ffb_calculator.py:289-296 | the prop-wash mixing factor, the share of the wash reaching the elevator, is positive |
| FfbForces.ElevDynPressure | fsffb/core/ffb_calculator.py:289-299 | the elevator's dynamic pressure is never below the reported dynamic pressure: the prop wash only adds to it |
| FfbForces.BaseCoeffs | fsffb/core/ffb_calculator.py:318-332 | the pre-stall spring coefficients lie in [0, max aileron coefficient] and [0, max elevator coefficient] whenever those caps are non-negative |
| FfbForces.AeroSprings | fsffb/core/ffb_calculator.py:280-373 | the aileron sees the reported dynamic pressure and the elevator at least that; outside a stall the coefficients are the pre-stall ones and the aileron damping is 0; in an airborne stall the aileron coefficient lies in [0, 1], the aileron damping is positive, and the elevator coefficient stays between a fifth of its pre-stall value and 1 |
| FfbForces.SpringCoefficientsBounded | fsffb/core/ffb_calculator.py:320-345 | with caps within [0, 1], both final spring coefficients lie in [0, 1], in or out of a stall |
| FfbForces.DerivativeStep | fsffb/core/ffb_calculator.py:125-149 | a non-positive dt gives 0 and stores nothing; otherwise the current value is stored, the first sighting gives 0, and later ones give the difference quotient (derivative · dt = current − previous) |
| FfbForces.SteadySignal | fsffb/core/ffb_calculator.py:125-149 | a value that holds still has derivative 0 from its second sighting on |
| FfbForces.WindDerivatives | fsffb/core/ffb_calculator.py:389-397 | the three wind derivatives are taken in the order X, Z, Y; with dt <= 0 all are 0 and the history is unchanged, otherwise the history holds the three current winds |
| FfbForces.WindOnAircraft | fsffb/core/ffb_calculator.py:399-405 | the rotation into the aircraft frame maps a zero horizontal wind change to zero |
| FfbForces.WindTerm | fsffb/core/ffb_calculator.py:411-415 | a wind term is clamped to ±the wind intensity limit, equals filtered · gain when that is within the limit, and is 0 for a zero filtered derivative |
| FfbForces.ConstantForceOf | fsffb/core/ffb_calculator.py:375-448 | roll and pitch forces lie in [-1, 1]; the magnitude is 0 while the autopilot flies and otherwise the polar magnitude of (roll, pitch); the direction is atan2(pitch, roll) in degrees |
| FfbForces.RollIsWindTerm | fsffb/core/ffb_calculator.py:411-427 | with a wind limit of at most 1 the roll clamp never bites: the roll force is exactly the negated lateral wind term |
| FfbForces.CalmLevelFlight | fsffb/core/ffb_calculator.py:375-448 | in still air at 1 g with no droop moment there is no constant force at all |
| FfbForces.PitchForwardUnderLoad | fsffb/core/ffb_calculator.py:384-426 | under positive load (G >= 1) in still air with non-negative gains, the pitch force never pulls the stick aft |
| FfbForces.ShakerAsWritten | fsffb/core/ffb_calculator.py:456-458 | the shaker magnitude as written, `(1 - abs(aoa - 1.2 stall) / (0.3 stall)) * intensity`, fails (ZeroDivisionError) exactly when the stall threshold is 0 |
| FfbForces.ShakerDividesByZeroOnXPlane | fsffb/core/ffb_calculator.py:456-458 | an airborne X-Plane frame with a positive AoA and no `StallAoA` reaches the division by zero |
| FfbForces.Shaker | fsffb/core/ffb_calculator.py:456-458 | the corrected shaker: the source's value whenever the threshold is non-zero, and 0 (no shaker band) when it is 0 |
| FfbForces.ShakerPeak | fsffb/core/ffb_calculator.py:458 | the shaker peaks at full intensity at 1.2 times the stall threshold |
| FfbForces.ShakerAtMostIntensity | fsffb/core/ffb_calculator.py:458 | above a positive threshold the shaker never exceeds its intensity |
| FfbForces.ShakerBand | fsffb/core/ffb_calculator.py:458 | with a positive threshold and intensity, the shaker magnitude is positive exactly within 0.3 thresholds of its peak |
| FfbForces.DamperX | fsffb/core/ffb_calculator.py:530-531 | (with the stall test of lines 467-469) the damper's X coefficient always lies in [0, 0.8], and outside a stall with an in-range damper slider it is the slider over 100 |
| FfbForces.Rumble | fsffb/core/ffb_calculator.py:482-508 | the rumble frequency always lies in [15, 60] Hz; the magnitude lies between 0.1 and the rumble intensity, and is 0.1 when the intensity is below 0.1; at 80 kt the rumble is at full intensity and 60 Hz |
| FfbForces.PutIf | fsffb/core/ffb_calculator.py:459-519 | a conditional assignment adds exactly the one name when the condition holds and leaves the dictionary alone otherwise, keeping keys distinct and values numeric |
| FfbForces.VibrationHead | fsffb/core/ffb_calculator.py:450-525 | the conditional vibrations (with the guarded shaker) form a dictionary of distinct names, all from the shaker, rumble and test names, with numeric properties |
| FfbForces.VibrationHeadPresence | fsffb/core/ffb_calculator.py:455-525 | both shakers exactly in an airborne stall, rumble 1 above 5 kt and rumble 2 above 20 kt on the ground, test1 and test2 exactly when their flags are set |
| FfbForces.ConditionTail | fsffb/core/ffb_calculator.py:533-535 | the damper, inertia and friction entries, exactly those three names, with numeric coefficients |
| FfbForces.Merge | fsffb/core/ffb_calculator.py:199 | `{**a, **b}` for dictionaries with no common name keeps a's entries first, then b's, and holds exactly the names of both |
| FfbForces.MergeIsUpdate | fsffb/core/ffb_calculator.py:199 | that concatenation is the dictionary update `a.update(b)` when no key is shared |
| FfbForces.VibrationEffects | fsffb/core/ffb_calculator.py:450-537 | `_calculate_vibration_effects` gives a well-formed effects dictionary that always ends with damper (X coefficient `DamperX`, Y the damper slider over 100), inertia and friction, and holds no name outside the vibration and condition names |
| FfbForces.VibrationPresence | fsffb/core/ffb_calculator.py:450-537 | which names a frame's vibration dictionary holds, both directions: the conditions above plus, always, damper, inertia and friction |
| FfbForces.SpringEffects | fsffb/core/ffb_calculator.py:352-361 | `spring_x` and `spring_y` carry the aileron and elevator coefficients, centred at the physical offsets |
| FfbForces.ConstantEffect | fsffb/core/ffb_calculator.py:443-448 | the single `constant_force` entry carries the force's magnitude |
| FfbForces.FrameNamesDisjoint | fsffb/core/ffb_calculator.py:199 | the spring, constant-force and vibration dictionaries never share a name, so the merge loses nothing |
| FfbForces.FrameEffects | fsffb/core/ffb_calculator.py:199 | the merged effects are well formed, hold exactly the springs, the constant force and the vibration names, in that order |
| FfbForces.FrameEffectsIsUpdate | fsffb/core/ffb_calculator.py:199 | the merged frame effects are exactly the dictionary unpacking `{**springs, **constant, **vibration}` |
| FfbCalculator.Field | fsffb/core/ffb_calculator.py:172-174 | `telemetry.get(key, 0.0)` is the stored value when present and 0.0 otherwise |
| FfbCalculator.OffsetsDict | fsffb/core/ffb_calculator.py:252-253 | the offsets dictionary has distinct keys `x` and `y` holding the offsets |
| FfbCalculator.EffectsOf | fsffb/core/ffb_calculator.py:189-199 | the frame's effects are well formed, at least six entries, starting with the two springs and the constant force |
| FfbCalculator.FrameDebugIsUpdate | fsffb/core/ffb_calculator.py:437-441 | (on the dictionary reset at line 190) the debug dictionary after `debug_data.update(...)` with the wind and autopilot values is a dictionary with distinct keys, the aerodynamic values followed by the wind ones |
| FfbCalculator.FrameOf | fsffb/core/ffb_calculator.py:177-201 | `process_frame` past its state changes, with the guarded shaker: the effects are well formed, start with `spring_x`, `spring_y` (carrying the aerodynamic coefficients) and `constant_force` (magnitude 0 while the autopilot flies); no axes exactly when forwarding is off; the virtual offset is 0 under a followed autopilot |
| FfbCalculator.FrameSpringsBounded | fsffb/core/ffb_calculator.py:320-345 | with in-range coefficient caps, both spring coefficients a frame sends lie in [0, 1] |
| FfbCalculator.GetScaledParams | fsffb/core/ffb_calculator.py:86-123 | the copy-then-divide loop returns exactly the scaled parameters `ScaledOf` gives for the table's values |
| FfbCalculator.StickForcesOf | fsffb/core/ffb_calculator.py:171-174 | the stored stick forces are the telemetry's `StickForcePitch`, `StickForceRoll` and `StickForceYaw`, 0.0 when absent |
| FfbCalculator.Calculator.constructor | fsffb/core/ffb_calculator.py:41-64 | zero stick forces, empty debug data and history, last frame time now, and two fresh filters at rest (time constants 0.4 and 1) |
| FfbCalculator.Calculator.UpdateParameter | fsffb/core/ffb_calculator.py:67-72 | sets a known parameter's value, changing nothing else; an unknown name changes nothing |
| FfbCalculator.Calculator.GetStickForces | fsffb/core/ffb_calculator.py:74-76 | returns the stored stick forces |
| FfbCalculator.Calculator.GetDebugData | fsffb/core/ffb_calculator.py:78-80 | returns the stored debug data |
| FfbCalculator.Calculator.CalculateTimeDerivative | fsffb/core/ffb_calculator.py:125-149 | returns the derivative and leaves the history as `DerivativeStep` says |
| FfbCalculator.Calculator.Advance | fsffb/core/ffb_calculator.py:166-174 | (with the wind filtering of lines 389-441) the clock, stick forces, wind history, both filters and the debug data advance in the source's order; the filtered derivatives are those of the rotated X and the vertical wind changes |
| FfbCalculator.Calculator.ComputeFrame | fsffb/core/ffb_calculator.py:166-201 | after the state advances, the outputs are those of `FrameOf` at the new filter values, with the guarded shaker |
| FfbCalculator.Calculator.ProcessFrame | fsffb/core/ffb_calculator.py:151-201 | empty telemetry clears the debug data and returns three empty dictionaries, touching nothing else; otherwise the state advances and the outputs are `FrameOf`'s at the table's scaled parameters (with the guarded shaker) |
| MsfsSimVars.NewSimVar | fsffb/telemetry/msfs_manager.py:43-54 | a new variable keeps the given name, variable, units, scale and mutator with no index; its data type is INT32 when the SimConnect unit is `bool` or `enum` in any case, and the declared type otherwise |
| MsfsSimVars.Int32Units | fsffb/telemetry/msfs_manager.py:53-54 | the unit test is case-insensitive: `Bool`, `BOOL`, `Enum` and `enum` force INT32 |
| MsfsSimVars.OtherUnitsNotInt32 | fsffb/telemetry/msfs_manager.py:53-54 | the unit test is an exact match: `Number`, `Boolean` and the empty unit keep the declared type |
| MsfsSimVars.Calculate | fsffb/telemetry/msfs_manager.py:56-61 | the mutator is applied first, then the scale; without a scale the mutated reading is returned, a numeric reading is multiplied by the scale, and scaling a string fails (TypeError) |
| MsfsSimVars.CalculateIdentity | fsffb/telemetry/msfs_manager.py:56-61 | without mutator and scale a reading passes through unchanged |
| MsfsSimVars.CalculateMutatesFirst | fsffb/telemetry/msfs_manager.py:56-61 | the calculation is the scale-only calculation of the mutated reading |
| MsfsSimVars.SurfaceName | fsffb/telemetry/msfs_manager.py:32-39 | the SurfaceType mutator always yields a string: the surface's name for codes 0-24 and `"unknown"` otherwise |
| MsfsSimVars.SurfaceNames | fsffb/telemetry/msfs_manager.py:32-39 | codes 0-24 give their own names, every other integer gives `"unknown"`, and `"unknown"` is not itself a surface name |
| MsfsSimVars.ArrayOf | fsffb/telemetry/msfs_manager.py:77-102 | an array keeps its configuration and holds as many elements as values (one per keyword, or max − min + 1), each element at its own index |
| MsfsSimVars.ArrayOfElements | fsffb/telemetry/msfs_manager.py:88-102 | every element is named after the array, has the array's unit, scale and type (INT32 for bool or enum units), no mutator, and every value starts at 0 |
| MsfsSimVars.KeywordElements | fsffb/telemetry/msfs_manager.py:88-95 | with keywords, element i is the variable with `<>` replaced by keyword i, at index i |
| MsfsSimVars.RangeElements | fsffb/telemetry/msfs_manager.py:96-102 | without keywords, element `var:k` for each k in [min, max] sits at index k − min |
| MsfsSimVars.BuildKeywordElements | fsffb/telemetry/msfs_manager.py:88-95 | the keyword loop builds one element per keyword, element j being the specified one |
| MsfsSimVars.BuildRangeElements | fsffb/telemetry/msfs_manager.py:96-102 | the `range(min, max + 1)` loop builds max − min + 1 elements (none when max < min), element j being the specified one |
| MsfsSimVars.BuildArray | fsffb/telemetry/msfs_manager.py:77-102 | the constructor builds exactly the array `ArrayOf` specifies |
| MsfsSimVars.CloneProperties | fsffb/telemetry/msfs_manager.py:104-108 | a clone forgets every change to the original's elements and values, has all values 0, is well indexed, equals a fresh original, and cloning twice is cloning once |
| MsfsSimVars.BuildDefault | fsffb/telemetry/msfs_manager.py:143-204 | each line of the default list builds an object with that line's name, an array exactly for the array lines, and arrays well indexed |
| MsfsSimVars.DefaultSimVars | fsffb/telemetry/msfs_manager.py:143-204 | the default table has one object per line, in order |
| MsfsSimVars.ByName | fsffb/telemetry/msfs_manager.py:132 | `{sv.name: sv for sv in entries}` as the list of (name, object) pairs in order, before later names overwrite earlier ones |
| MsfsSimVars.DefaultsWellFormed | fsffb/telemetry/msfs_manager.py:143-204 | every array of the default table is well indexed |
| MsfsSimVars.DefaultHeadingRows | fsffb/telemetry/msfs_manager.py:157-202 | the default list has 46 objects; `Heading` appears twice, in degrees and, last of all, in radians |
| MsfsSimVars.DefaultHeadingIsRadians | fsffb/telemetry/msfs_manager.py:157-202 | in the name dictionary `Heading` resolves to the later, radians entry |
| MsfsSubstitute.Plains | fsffb/telemetry/msfs_manager.py:218-221 | the plain overrides, one plain entry per queued SimVar, in order |
| MsfsSubstitute.PlainOverridesAt | fsffb/telemetry/msfs_manager.py:221 | `override_dict` starts with a key exactly for each queued plain override's name, each mapping to a plain entry |
| MsfsSubstitute.PlainOverridesLast | fsffb/telemetry/msfs_manager.py:221 | among plain overrides with the same name, the last one queued wins |
| MsfsSubstitute.LastNamed | fsffb/telemetry/msfs_manager.py:221 | the position of the last queued override with a name, and -1 exactly when none has it |
| MsfsSubstitute.AddClonesFails | fsffb/telemetry/msfs_manager.py:223-226 | the clone loop raises (a plain SimVar has no `clone`) exactly when an element override names a plain default that no plain override replaces |
| MsfsSubstitute.AddClonesAt | fsffb/telemetry/msfs_manager.py:223-226 | after the clone loop a name is overridden exactly when it was before or it names a default array that an element override names; existing overrides are kept and a new one is the clone of the default array |
| MsfsSubstitute.PatchOne | fsffb/telemetry/msfs_manager.py:230-231 | placing one element override changes only the array's elements, never their number |
| MsfsSubstitute.LastHit | fsffb/telemetry/msfs_manager.py:228-231 | the override placed last at an index names the array and carries that index |
| MsfsSubstitute.PatchedAt | fsffb/telemetry/msfs_manager.py:228-232 | slot i of the patched array holds the last element override naming the array with index i, or the original element; length, configuration and values never change, so an out-of-range index is ignored |
| MsfsSubstitute.PatchedWellIndexed | fsffb/telemetry/msfs_manager.py:228-232 | patching keeps every element at its own index |
| MsfsSubstitute.PlaceElementsFails | fsffb/telemetry/msfs_manager.py:228-232 | the placement loop raises exactly when an element override names an override but has no index, or names a plain override with a non-negative index |
| MsfsSubstitute.PlaceElementsAt | fsffb/telemetry/msfs_manager.py:228-232 | after a successful placement loop the keys are unchanged, plain overrides are untouched and each overriding array is its patched version |
| MsfsSubstitute.SubstituteFails | fsffb/telemetry/msfs_manager.py:215-236 | `substitute_simvars` raises exactly when some element override fails in one of the two loops |
| MsfsSubstitute.SubstituteAt | fsffb/telemetry/msfs_manager.py:215-238 | the merged table keeps the defaults' names in their places and appends new names; a name with a plain override maps to the last such override; a default array named only by element overrides maps to its clone patched by them; every other default is unchanged |
| MsfsSubstitute.SubstituteWellFormed | fsffb/telemetry/msfs_manager.py:215-238 | merging a well-formed default table gives a table whose arrays are all well indexed |
| MsfsSubstitute.Values | fsffb/telemetry/msfs_manager.py:238 | `final_list` is the merged table's entries in its order |
| MsfsSubstitute.VarNames | fsffb/telemetry/msfs_manager.py:241 | the simulator variables of a list of elements, in order |
| MsfsSubstitute.EntrySlots | fsffb/telemetry/msfs_manager.py:266-276 | the subscription slots of an entry: the variable itself, or every element of an array tagged with the array's name |
| MsfsSubstitute.SlotVars | fsffb/telemetry/msfs_manager.py:270-274 | the variables of the subscription slots, in subscription order |
| MsfsSubstitute.TrackerPermutesSlots | fsffb/telemetry/msfs_manager.py:239-276 | the tracker (plain variables first, then array elements) is a permutation of the subscription's variables, so comparing trackers detects every added or removed variable |
| MsfsSubstitute.TrackerSeesOnlyVariables | fsffb/telemetry/msfs_manager.py:239-255 | two tables that differ only in units, data types, scales or mutators have the same tracker, so `_subscribe` keeps the old subscription |
| MsfsSubstitute.PlainPair | fsffb/telemetry/msfs_manager.py:243 | a plain entry contributes the pair (name, variable) to `sv_dict`, an array none |
| MsfsSubstitute.ElementPairsOf | fsffb/telemetry/msfs_manager.py:244-246 | an array contributes (`name:index`, variable) for each element, a plain entry none |
| MsfsSubstitute.SvDictKeys | fsffb/telemetry/msfs_manager.py:243-246 | `sv_dict` has a key exactly for each plain entry's name and each element's `name:index` |
| MsfsSubstitute.SvDictValues | fsffb/telemetry/msfs_manager.py:243-246 | each key of `sv_dict` maps to the variable of an entry with that key |
| MsfsSubstitute.Substitute | fsffb/telemetry/msfs_manager.py:215-238 | with no element overrides the merge cannot raise; a successful merge keeps every default name in its place, with the new names after them |
| MsfsManager.IndexField | fsffb/telemetry/msfs_manager.py:210 | `name.split(":")[1]` is the text after the first `:` up to the next one, and never contains a `:` |
| MsfsManager.ElementOverride | fsffb/telemetry/msfs_manager.py:208-211 | an element override is named by the text before the first `:`, carries the parsed index, and keeps the given variable, unit and scale |
| MsfsManager.SentPart | fsffb/telemetry/msfs_manager.py:309-317 | the events sent to SimConnect are queued events not starting with `L:`, in order |
| MsfsManager.LvarPart | fsffb/telemetry/msfs_manager.py:309-312 | each `L:` event becomes a queued datum with its data and units `"number"` |
| MsfsManager.EventsPartition | fsffb/telemetry/msfs_manager.py:307-317 | every queued event goes exactly one way: to SimConnect or to the simulation-data queue, none is lost |
| MsfsManager.Decode | fsffb/telemetry/msfs_manager.py:387-409 | decoding keeps the set of arrays and each array's length, and an empty packet cannot fail |
| MsfsManager.DecodeKeeps | fsffb/telemetry/msfs_manager.py:387-409 | decoding a packet never adds or drops an array or changes an array's length, keeps every frame key, and keeps the frame a dictionary |
| MsfsManager.DecodeLastPlain | fsffb/telemetry/msfs_manager.py:400-406 | a plain variable's value in a packet ends up in the frame under its name when no later item writes that name |
| MsfsManager.DecodeUntouched | fsffb/telemetry/msfs_manager.py:387-409 | a frame key that no item writes keeps its value |
| MsfsManager.InitialFrame | fsffb/telemetry/msfs_manager.py:387 | the frame starts as `{"SimPaused": paused}` |
| MsfsManager.Latch | fsffb/telemetry/msfs_manager.py:411-422 | the latch ends closed exactly after a stopped frame; STOP is announced exactly on a stopped frame while the latch is open, and an announced frame is also delivered; a frame is withheld exactly when it is stopped and the latch is already closed |
| MsfsManager.StoppedRunOnce | fsffb/telemetry/msfs_manager.py:414-419 | a run of stopped frames after running ones is announced (STOP) and delivered exactly once; after an announced stop, none |
| MsfsManager.RunningAllDelivered | fsffb/telemetry/msfs_manager.py:420-422 | running frames are all delivered and never announce STOP |
| MsfsManager.LatchRunBounds | fsffb/telemetry/msfs_manager.py:411-422 | over any run of frames, announcements never outnumber deliveries, deliveries never exceed the frames, and every running frame is delivered |
| MsfsManager.Stops | fsffb/telemetry/msfs_manager.py:411-412 | the number of stopped frames of a run is at most its length |
| MsfsManager.ComputeTracker | fsffb/telemetry/msfs_manager.py:239-241 | the comprehension and loop build exactly `Tracker` of the merged table (plain variables first, then array elements) |
| MsfsManager.UpdateConcat | fsffb/telemetry/msfs_manager.py:243-246 | updating a dictionary with two lists in turn is updating with their concatenation |
| MsfsManager.PutElements | fsffb/telemetry/msfs_manager.py:245-246 | the inner loop puts each element's `name:index` key in order, the update with the array's pairs |
| MsfsManager.ComputeSvDict | fsffb/telemetry/msfs_manager.py:243-246 | the comprehension and loops build exactly `SvDict` of the merged table |
| MsfsManager.AppendElements | fsffb/telemetry/msfs_manager.py:269-272 | an array's elements are subscribed in order |
| MsfsManager.ComputeSlots | fsffb/telemetry/msfs_manager.py:266-276 | the subscription loop gives exactly `Slots` of the merged table: arrays expanded into their elements in place |
| MsfsManager.Manager.constructor | fsffb/telemetry/msfs_manager.py:117-141 | the default table, empty queues, trackers and subscription, flags cleared, both ids equal to the process id |
| MsfsManager.Manager.AddSimVar | fsffb/telemetry/msfs_manager.py:206-213 | a name without `:` queues a plain override; a name with `:` queues an element override with the parsed index, and nothing when `int()` fails |
| MsfsManager.Manager.SubstituteSimVars | fsffb/telemetry/msfs_manager.py:215-248 | on success both queues are emptied, the tracker and `sv_dict` are those of the merged table, which is returned; when the merge raises nothing changes |
| MsfsManager.Manager.Subscribe | fsffb/telemetry/msfs_manager.py:250-282 | after a successful merge an unchanged tracker keeps the subscription; otherwise the definition id moves on (except the first time), the subscription becomes the merged table's slots and the tracker becomes current |
| MsfsManager.Manager.Resubscribe | fsffb/telemetry/msfs_manager.py:254-277 | the part of `_subscribe` after the merge, with the same two cases |
| MsfsManager.Manager.RequestResubscribe | fsffb/telemetry/msfs_manager.py:284-286 | sets the resubscribe flag |
| MsfsManager.Manager.SetSimdatum | fsffb/telemetry/msfs_manager.py:288-290 | appends one datum to the queue |
| MsfsManager.Manager.SendEvent | fsffb/telemetry/msfs_manager.py:292-296 | appends one event, except the placeholder `DO_NOT_SEND` |
| MsfsManager.Manager.TxSimdatums | fsffb/telemetry/msfs_manager.py:298-305 | the queue is drained and every datum goes to SimConnect, oldest first |
| MsfsManager.Manager.TxEvents | fsffb/telemetry/msfs_manager.py:307-317 | the event queue is drained oldest first; `L:` events join the datum queue with units `"number"`, the others go to SimConnect |
| MsfsManager.Manager.HandleEvent | fsffb/telemetry/msfs_manager.py:362-380 | pause and sim-state events store their data, start and stop set the started flag, and each of the four reaches the event callback (with data only for pause and sim state); other ids are ignored |
| MsfsManager.Manager.HandleSimobjectData | fsffb/telemetry/msfs_manager.py:382-422 | a packet for another request or definition is ignored; otherwise the decoded frame starts with the pause state, a running frame is delivered and opens the latch, a stopped frame gets `STOP = 1` and is announced and delivered only when the latch was open |
| MsfsManager.Manager.Quit | fsffb/telemetry/msfs_manager.py:424-426 | sets the quit flag |
| SimController.NewController | fsffb/hardware/simulator_controller.py:32-44 | a controller is built exactly for an MSFS or an X-Plane manager and keeps it; anything else gives the TypeError with the source's message |
| SimController.Trunc | fsffb/hardware/simulator_controller.py:73 | Python's `int()` of a float: the floor for a non-negative value, minus the floor of the negation for a negative one |
| SimController.TruncTowardZero | fsffb/hardware/simulator_controller.py:73 | `int()` moves toward zero by less than one, never changes the sign and is odd (`int(-x) == -int(x)`) |
| SimController.AxisValueRange | fsffb/hardware/simulator_controller.py:73-75 | a stick position in [-1, 1] becomes an event value in [-16383, 16383]; the ends map to ±16383 and the centre to 0 |
| SimController.AxisEvents | fsffb/hardware/simulator_controller.py:69-75 | MSFS receives one AILERON_SET for `jx` (first) and one ELEVATOR_SET for `jy` (last), each only when the key is present, carrying the scaled value; no other axis (the rudder line is commented out) |
| SimController.SendAxisData | fsffb/hardware/simulator_controller.py:48-79 | `None` changes nothing; on X-Plane exactly one AXIS command joins the queue; on MSFS exactly the aileron/elevator events join the event queue; nothing else of either manager changes |
| SimController.SetOverride | fsffb/hardware/simulator_controller.py:81-95 | on X-Plane exactly one OVERRIDE command joins the queue; on MSFS the manager is left unchanged |
| XPlaneManager.ConvertValue | fsffb/telemetry/xplane_manager.py:110-119 | a value with `~` becomes a list of exactly its `~`-separated parts, none of them a list; otherwise a value with `.` is a float when it parses as one, one without `.` an int when it parses as one, and the raw text is kept exactly when that read fails |
| XPlaneManager.ParsePairs | fsffb/telemetry/xplane_manager.py:100-104 | the parsed telemetry dictionary never holds a key twice |
| XPlaneManager.ParsePairsKeys | fsffb/telemetry/xplane_manager.py:100-104 | a key is in the parsed dictionary exactly when some segment containing `=` names it before its first `=` |
| XPlaneManager.ParsePairsLastWins | fsffb/telemetry/xplane_manager.py:101-104 | a key given in several segments keeps the converted value of its last segment (the text after the first `=`) |
| XPlaneManager.AxisPieces | fsffb/telemetry/xplane_manager.py:136 | an AXIS payload has one `key=value` piece per axis |
| XPlaneManager.BoolText | fsffb/telemetry/xplane_manager.py:147 | `str(enabled).lower()` is `true` or `false` |
| XPlaneManager.SubscribePieces | fsffb/telemetry/xplane_manager.py:160 | a SUBSCRIBE payload has exactly five `key=value` pieces |
| XPlaneManager.Manager.constructor | fsffb/telemetry/xplane_manager.py:33-67 | a new manager has an empty command queue, has sent and delivered nothing, is running and not asked to quit; whether it has sockets is the outcome of the socket setup |
| XPlaneManager.Manager.SendAxisData | fsffb/telemetry/xplane_manager.py:129-137 | exactly one `AXIS:` command joins the back of the queue |
| XPlaneManager.Manager.SetOverride | fsffb/telemetry/xplane_manager.py:139-147 | exactly one `OVERRIDE:` command joins the back of the queue |
| XPlaneManager.Manager.SubscribeDataref | fsffb/telemetry/xplane_manager.py:149-161 | exactly one `SUBSCRIBE:` command joins the back of the queue |
| XPlaneManager.Manager.SendCommand | fsffb/telemetry/xplane_manager.py:121-127 | the command goes out exactly when the sockets exist |
| XPlaneManager.Manager.DrainQueue | fsffb/telemetry/xplane_manager.py:79-81 | the queue ends empty and its commands were sent oldest first (when the sockets exist) |
| XPlaneManager.Manager.RunOnceAsWritten | fsffb/telemetry/xplane_manager.py:72-76 | the loop as written: without sockets the thread stops (the `time.sleep` raises NameError because `time` is imported only at line 177 under `__main__`) and nothing else changes; with sockets it drains the queue and delivers a non-empty parse |
| XPlaneManager.Manager.RunOnce | fsffb/telemetry/xplane_manager.py:69-94 | one intended pass: without sockets nothing changes; with sockets the queue is sent in order and emptied, then a received datagram whose parse is non-empty reaches the callback, and a timeout or empty parse delivers nothing |
| XPlaneManager.Manager.Quit | fsffb/telemetry/xplane_manager.py:163-165 | the quit flag is set, so the loop ends at its next test |
| XPlaneManager.NoSocketsEndsThread | fsffb/telemetry/xplane_manager.py:72-76 | a manager whose sockets failed loses its thread on the first pass as written |
| XPlaneManager.NoSocketsIdles | fsffb/telemetry/xplane_manager.py:72-76 | with the intended idle, the same manager keeps running and sends nothing |
| XPlaneManager.ParseTelemetry | fsffb/telemetry/xplane_manager.py:96-105 | the parsed telemetry is a dictionary: each key at most once (which keys, see XPlaneManager.ParsePairsKeys) |
| XPlaneManager.AxisCommand | fsffb/telemetry/xplane_manager.py:136-137 | the datagram starts with `AXIS:`, and is exactly `AXIS:` only when there are no axes |
| XPlaneLink.EntryPieces | xplane-plugin/FSFFB-XPP.cpp:479-481 | one `key=value` piece per telemetry entry |
| XPlaneLink.Converted | fsffb/telemetry/xplane_manager.py:104 | one converted entry per telemetry entry |
| XPlaneLink.TelemetryTextJoin | xplane-plugin/FSFFB-XPP.cpp:477-481 | the telemetry datagram of a non-empty map is its `key=value` pieces joined by `;` with one more `;` at the end |
| XPlaneLink.TelemetryPieces | fsffb/telemetry/xplane_manager.py:100 | `strip(';').split(';')` of a non-empty telemetry datagram gives back exactly the entries' pieces |
| XPlaneLink.StripTelemetry | fsffb/telemetry/xplane_manager.py:100 | stripping the `;` ends of a non-empty telemetry datagram leaves the pieces joined by `;` |
| XPlaneLink.ParseEntryPieces | fsffb/telemetry/xplane_manager.py:101-104 | parsing the pieces of distinct keys free of `=` gives every key with its converted value, in order |
| XPlaneLink.TelemetryRoundTrip | fsffb/telemetry/xplane_manager.py:96-108 | what the plugin's telemetry map sends (keys free of `=`/`;`, values free of `;`) the application parses back to every key, in the map's order, with its value as `_convert_value` reads it |
| XPlaneLink.EmptyTelemetry | fsffb/telemetry/xplane_manager.py:96-105 | an empty telemetry map travels as the empty text and parses back to no entries, so the callback is not called |
| XPlaneLink.GetlineJoin | xplane-plugin/FSFFB-XPP.cpp:493 | the `getline(…, ',')` loop takes a `,`-join of non-empty separator-free pieces back apart into exactly those pieces |
| XPlaneLink.AxisRoundTrip | xplane-plugin/FSFFB-XPP.cpp:489-500 | an AXIS command from `send_axis_data` (xplane_manager.py:136-137) with plain keys and values `stof` reads, fitting the 1024-byte receive buffer, sets every axis it names to the value read, keeps every other axis, and changes no flag or subscription |
| XPlaneLink.OverrideCommandHeader | xplane-plugin/FSFFB-XPP.cpp:586-590 | an OVERRIDE datagram splits at its first `:` into the header `OVERRIDE` and `type=true|false` |
| XPlaneLink.OverridePayloadReads | xplane-plugin/FSFFB-XPP.cpp:512-515 | the plugin reads back the type and the `boolalpha` boolean the application wrote; the boolean is assigned, not left unset |
| XPlaneLink.OverrideRoundTrip | xplane-plugin/FSFFB-XPP.cpp:505-542 | an OVERRIDE command from `set_override` (xplane_manager.py:147) that fits the receive buffer sets exactly the named flag (joystick, pedals or collective) to the value sent and leaves everything else; an unknown type changes nothing |
| XPlaneLink.SubscribePairsCons | xplane-plugin/FSFFB-XPP.cpp:550-553 | the reader takes one `key=value,` pair off the front of the payload, whatever value it held before, and that value is the one a later bare key receives |
| XPlaneLink.SubscribePairsJoin | xplane-plugin/FSFFB-XPP.cpp:550-553 | the reader takes `key=value` pieces joined by `,` apart into the same keys and values, in order, when no key holds `=` and no value `,`, whatever value it held before |
| XPlaneLink.IntToStringPlain | fsffb/telemetry/xplane_manager.py:160 | a formatted precision holds no `,`, newline or NUL |
| XPlaneLink.SubscribePayloadPairs | fsffb/telemetry/xplane_manager.py:160 | the plugin reads the application's SUBSCRIBE payload as exactly the five pairs dataref, type, tag, precision and conversion, in that order |
| XPlaneLink.SubscribeParams | xplane-plugin/FSFFB-XPP.cpp:555-562 | from those five pairs the plugin takes the dataref, type, tag, precision text and conversion text the application wrote |
| XPlaneLink.ReceiveSubscribe | xplane-plugin/FSFFB-XPP.cpp:543-566 | a SUBSCRIBE datagram that fits the receive buffer and whose parameters, read as the source's loop reads them (a trailing key without `=` takes the previous value), have numbers that parse changes only the subscriptions: it registers the dataref with its tag, type, precision and conversion when X-Plane knows it, and nothing otherwise |
| XPlaneLink.SubscribeApplied | xplane-plugin/FSFFB-XPP.cpp:555-565 | a SUBSCRIBE payload whose parameters, read as the source's loop reads them, have numbers that parse adds the subscription for a known dataref and leaves the rest of the state alone |
| XPlaneLink.SubscribePayloadPlain | fsffb/telemetry/xplane_manager.py:160 | a SUBSCRIBE payload built of plain fields holds no newline or NUL, so the plugin's `getline` reads it whole |
| XPlaneLink.SubscribeCommandHeader | xplane-plugin/FSFFB-XPP.cpp:586-590 | a SUBSCRIBE datagram of plain fields splits into the header `SUBSCRIBE` and its payload |
| XPlaneLink.SubscribeRoundTrip | xplane-plugin/FSFFB-XPP.cpp:543-566 | a SUBSCRIBE command from `subscribe_dataref` (xplane_manager.py:149-161) with plain fields and numbers the plugin reads back, fitting the receive buffer, registers exactly that subscription when X-Plane knows the dataref and nothing otherwise; no other state changes |
| XPlaneLink.FloatArrayReadsAsList | fsffb/telemetry/xplane_manager.py:112-113 | a float array of at least two elements sent with a fixed size (FSFFB-XPP.cpp:305-308) reads back as a list with one converted item per element |
| XPlaneLink.SubscribePairsLast | xplane-plugin/FSFFB-XPP.cpp:550-553 | the reader takes the last `key=value` of the payload as one pair, whatever value it held before |
| XPlanePlugin.LessIrreflexive | xplane-plugin/FSFFB-XPP.cpp:167 | the `std::string` key order of `std::map` is irreflexive |
| XPlanePlugin.LessTransitive | xplane-plugin/FSFFB-XPP.cpp:167 | the key order is transitive |
| XPlanePlugin.LessTotal | xplane-plugin/FSFFB-XPP.cpp:167 | any two distinct keys are ordered one way or the other |
| XPlanePlugin.AscendingDistinct | xplane-plugin/FSFFB-XPP.cpp:167 | a map kept in key order holds no key twice |
| XPlanePlugin.Assign | xplane-plugin/FSFFB-XPP.cpp:352-439 | `telemetryData[key] = value` replaces an entry or inserts one: the map keeps its size or grows by one |
| XPlanePlugin.AssignContents | xplane-plugin/FSFFB-XPP.cpp:352-439 | after `m[k] = v` the map holds `v` at `k` and every other entry unchanged |
| XPlanePlugin.AssignAscending | xplane-plugin/FSFFB-XPP.cpp:352-439 | `m[k] = v` keeps the map in key order and adds no key but `k` |
| XPlanePlugin.TelemetryText | xplane-plugin/FSFFB-XPP.cpp:474-481 | the telemetry datagram of a non-empty map is non-empty and ends with `;` (its exact shape is XPlaneLink.TelemetryTextJoin) |
| XPlanePlugin.ArraySize | xplane-plugin/FSFFB-XPP.cpp:270-276 | the number of elements formatted never exceeds the dataref's size: `fixed_size` replaces it only when positive and no larger |
| XPlanePlugin.ElementTexts | xplane-plugin/FSFFB-XPP.cpp:290-303 | one text per formatted element, each the element times the conversion factor in fixed notation with the precision |
| XPlanePlugin.LastNotTrim | xplane-plugin/FSFFB-XPP.cpp:312 | `find_last_not_of("~0.000")` treats its argument as a set of characters: the last position outside `~`, `0`, `.`, or none when every character is in the set |
| XPlanePlugin.TrimAsWritten | xplane-plugin/FSFFB-XPP.cpp:310-317 | the trim as written keeps a prefix, cut right after the last character outside `~`, `0`, `.` (whole when there is none); everything cut is from that set |
| XPlanePlugin.TrimAsWrittenEatsDigits | xplane-plugin/FSFFB-XPP.cpp:310-317 | the trim as written turns `10.000~0.000` into `1`, while the corrected trim gives `10.000` |
| XPlanePlugin.LastNonZero | xplane-plugin/FSFFB-XPP.cpp:265-266 | the position of the last element that is not a zero text, or none when all are |
| XPlanePlugin.KeptCount | xplane-plugin/FSFFB-XPP.cpp:265-266 | the corrected trim keeps at least one element of a non-empty array, drops only trailing zero elements, and the last kept element is non-zero whenever any is dropped |
| XPlanePlugin.TrimZeroElementsKeepsElements | xplane-plugin/FSFFB-XPP.cpp:265-266 | the corrected trim (drop whole trailing zero elements, as the comment promises) keeps a prefix of the elements intact: splitting its result at `~` gives exactly the kept elements |
| XPlanePlugin.TrimZeroElements | xplane-plugin/FSFFB-XPP.cpp:265-266 | the corrected trim keeps the first element whole (the trim as written cuts `10.000` down to `1`) |
| XPlanePlugin.FixedArraySplits | xplane-plugin/FSFFB-XPP.cpp:305-308 | with a positive `fixed_size` nothing is trimmed: the string splits back into exactly the formatted elements, `min(fixed_size, size)` of them |
| XPlanePlugin.FormatElements | xplane-plugin/FSFFB-XPP.cpp:290-303 | the formatting loop produces exactly the element texts, joined with `~` after every element but the last |
| XPlanePlugin.CountKept | xplane-plugin/FSFFB-XPP.cpp:310-317 | the corrected trim's backward scan counts exactly the kept elements |
| XPlanePlugin.FloatArrayToString | xplane-plugin/FSFFB-XPP.cpp:268-318 | models the corrected trim: the result is the formatted elements joined by `~`, whole with a positive `fixed_size`, otherwise without the trailing zero elements |
| XPlanePlugin.NonZeroCount | xplane-plugin/FSFFB-XPP.cpp:330-338 | a gear slot has at most three non-zero coordinates, and none exactly when X, Y and Z are all 0 |
| XPlanePlugin.GetNumGear | xplane-plugin/FSFFB-XPP.cpp:321-344 | as written: the result lies in [0, 3], no slot has more non-zero coordinates, and a positive result is attained by some slot |
| XPlanePlugin.GearCount | xplane-plugin/FSFFB-XPP.cpp:346-363 | the corrected count of gear entries, the slots with any non-zero coordinate, never exceeds the slots examined |
| XPlanePlugin.GearCountOfLegs | xplane-plugin/FSFFB-XPP.cpp:346-363 | with `legs` gear legs in the leading slots and nothing after, the corrected count is `legs` |
| XPlanePlugin.GetNumGearCapsAtThree | xplane-plugin/FSFFB-XPP.cpp:321-344 | an aircraft with four gear legs is reported as having three gear entries by the function as written |
| XPlanePlugin.IsXPlane12OrNewer | xplane-plugin/FSFFB-XPP.cpp:631-644 | as written: on six-digit internal versions the prefix test holds exactly on 120000..129999 |
| XPlanePlugin.IsXPlane12OrNewerMissesThirteen | xplane-plugin/FSFFB-XPP.cpp:631-644 | version 130000 fails the test as written though the intended test accepts it |
| XPlanePlugin.IsXPlaneAtLeast12Agrees | xplane-plugin/FSFFB-XPP.cpp:631-644 | the intended test (`version >= 120000`) agrees with the test as written on X-Plane 10, 11 and 12 and stays true for every later version |
| XPlanePlugin.AircraftNameDataRef | xplane-plugin/FSFFB-XPP.cpp:658-663 | models the corrected version test: `acf_ui_name` from version 12 on, `acf_descrip` before |
| XPlanePlugin.Line | xplane-plugin/FSFFB-XPP.cpp:590 | `getline` yields no newline, and a newline-free text whole |
| XPlanePlugin.CString | xplane-plugin/FSFFB-XPP.cpp:583-586 | the buffer read as a C string holds no NUL, and a NUL-free datagram whole |
| XPlanePlugin.SplitHeader | xplane-plugin/FSFFB-XPP.cpp:586-590 | the data type holds no `:` and the payload no newline |
| XPlanePlugin.SplitHeaderOf | xplane-plugin/FSFFB-XPP.cpp:586-590 | `type:payload` splits back into exactly its type and payload |
| XPlanePlugin.ApplyAxis | xplane-plugin/FSFFB-XPP.cpp:489-500 | the loop runs to the end exactly when `stof` reads the value of every token holding a `=`, and never removes an axis |
| XPlanePlugin.ApplyAxisStaysFailed | xplane-plugin/FSFFB-XPP.cpp:493-499 | once a `stof` has thrown, the later tokens change nothing |
| XPlanePlugin.ApplyAxisKeepsOthers | xplane-plugin/FSFFB-XPP.cpp:493-499 | an axis no token names keeps its previous value or stays absent |
| XPlanePlugin.ApplyAxisSetsLast | xplane-plugin/FSFFB-XPP.cpp:493-499 | when no `stof` throws, every named axis holds the value of the last token naming it |
| XPlanePlugin.SkipSpace | xplane-plugin/FSFFB-XPP.cpp:515 | `>>` skips leading white space: what is left is empty or starts with a non-space |
| XPlanePlugin.ReadBool | xplane-plugin/FSFFB-XPP.cpp:515 | `>> boolalpha` assigns nothing exactly when only white space is left |
| XPlanePlugin.OverrideRequest | xplane-plugin/FSFFB-XPP.cpp:512-515 | an empty payload yields no request (the first `getline` extracts nothing); otherwise a keyword free of `=`, and the boolean is left unassigned exactly when the payload has no `=` or only white space after it |
| XPlanePlugin.SubscribePairsFrom | xplane-plugin/FSFFB-XPP.cpp:546-553 | no pair exactly for an empty payload; a last segment without `=` becomes one key holding the previous value, since `key` and `value` outlive the loop and the failing `getline` does not erase `value` |
| XPlanePlugin.SubscribePairs | xplane-plugin/FSFFB-XPP.cpp:546-553 | the pair reader, with `value` starting empty, yields no pair exactly for an empty payload |
| XPlanePlugin.SubscribeBareKeyTakesPreviousValue | xplane-plugin/FSFFB-XPP.cpp:550-553 | `key=value,bare` reads as the pairs (key, value) and (bare, value): the trailing bare key takes the previous value |
| XPlanePlugin.ParamsOf | xplane-plugin/FSFFB-XPP.cpp:547-553 | the parameter map is empty exactly when no pair was read, and holds no more keys than pairs |
| XPlanePlugin.ParamsOfLastWins | xplane-plugin/FSFFB-XPP.cpp:547-553 | a parameter is present exactly when some pair names it, and holds the value of the last such pair |
| XPlanePlugin.ApplyOverride | xplane-plugin/FSFFB-XPP.cpp:505-542 | an OVERRIDE never changes the axes or the subscriptions |
| XPlanePlugin.OverrideOnlyKnownKeywords | xplane-plugin/FSFFB-XPP.cpp:520-540 | only `joystick`, `pedals` and `collective` change a flag, each only its own, to the value read (or the uninitialised value when none was read) |
| XPlanePlugin.OverrideWithoutValueUnset | xplane-plugin/FSFFB-XPP.cpp:512-524 | for `joystick` and `joystick=` the flag written is whatever the uninitialised `overrideValue` holds: both outcomes occur |
| XPlanePlugin.ApplySubscribe | xplane-plugin/FSFFB-XPP.cpp:543-566 | a SUBSCRIBE, with its pairs read as the source's loop reads them, changes only the subscriptions, adds at most one, and changes nothing when `stoi`/`stof` throws (RegisterDataRef, lines 226-238, keeps only a known dataref) |
| XPlanePlugin.Process | xplane-plugin/FSFFB-XPP.cpp:487-572 | a data type other than AXIS, OVERRIDE and SUBSCRIBE changes nothing |
| XPlanePlugin.Receive | xplane-plugin/FSFFB-XPP.cpp:574-590 | an empty datagram and one longer than the 1024-byte buffer (Winsock's `recvfrom` fails) change nothing; any other is split into type and payload and processed |
| XPlanePlugin.Plugin.constructor | xplane-plugin/FSFFB-XPP.cpp:167-168 | a new plugin holds an empty telemetry map, has sent nothing, and starts with the four axes `jx`, `jy`, `px`, `cy` at 0, no override and no subscription |
| XPlanePlugin.Plugin.SetTelemetry | xplane-plugin/FSFFB-XPP.cpp:352-439 | `telemetryData[key] = value` keeps the map valid and in key order, holding `value` at `key` and every other entry unchanged |
| XPlanePlugin.Plugin.FormatAndSendTelemetryData | xplane-plugin/FSFFB-XPP.cpp:474-485 | exactly one datagram, the map's telemetry text, is sent |
| XPlanePlugin.Plugin.ProcessReceivedData | xplane-plugin/FSFFB-XPP.cpp:487-572 | the new state and outcome are those of the dispatch on the data type |
| XPlanePlugin.Plugin.HandleAxis | xplane-plugin/FSFFB-XPP.cpp:489-504 | the token loop leaves the axes and the outcome the AXIS rule gives for the payload's `,` tokens |
| XPlanePlugin.Plugin.HandleOverride | xplane-plugin/FSFFB-XPP.cpp:505-542 | the new state is the OVERRIDE rule's, with `unset` as the uninitialised boolean |
| XPlanePlugin.Plugin.HandleSubscribe | xplane-plugin/FSFFB-XPP.cpp:543-566 | the new state and outcome are the SUBSCRIBE rule's, on the pairs as the source's loop reads them |
| XPlanePlugin.Plugin.ReceiveData | xplane-plugin/FSFFB-XPP.cpp:574-601 | a datagram that fits the 1024-byte buffer is split into type and payload and processed; an empty or oversized one changes nothing; the new state and outcome are those of the receive rule |

## Left out

- Numeric.FilterStep, Numeric.LowPassFilter.Process: require `tc + dt != 0` for a positive time constant; `LowPassFilter.process` (fsffb/utils.py:125) raises ZeroDivisionError when the clock steps back by exactly the time constant, and the model does not reproduce that exception.
- FfbCalculator.Calculator.Advance, FfbCalculator.Calculator.ComputeFrame, FfbCalculator.Calculator.ProcessFrame: for the same reason require the frame's `dt = now - last` to differ from -0.4 and -1.0, the negated time constants of the two wind filters; a backward clock step of exactly that size raises ZeroDivisionError in the source.
- FfbCalculator.Calculator.CalculateTimeDerivative: is reached only through the frame, so it carries the frame's exclusions; its own contract has none.
- FfbForces.AeroDefined: requires a positive propeller diameter, which excludes the NameError on the unbound `mixing_factor` (fsffb/core/ffb_calculator.py:295, 368; the slider minimum is 1), and a positive air density, which excludes the division at line 293; it also requires a well-formed thrust list and, on MSFS, the design speed fields.
- FfbForces.ConstantDefined: requires `DynPressure != -1`, which excludes the ZeroDivisionError of the droop term's `1 + DynPressure`.
- FfbForces.OffsetsDefined: requires trim following whenever `ap_trim_only` is set on the MSFS autopilot path (otherwise `elev_trim_pct` is unbound, fsffb/core/ffb_calculator.py:212-232) and a two-element `AileronDeflPctLR` (the default `0` is indexed at line 238); the model does not reproduce these crashes.
- FfbForces.Numbers: requires every telemetry value the calculator does arithmetic on to be a number; a non-numeric value raises TypeError in the source.
- EffectTables.DirectionByte: floats are modelled as exact reals, so `(90 - d) % 360` is below 360 and the byte is at most 254; with IEEE doubles the remainder of a tiny negative value rounds to 360.0 and gives 255. The same holds for every other float computation in the model (for example XPlanePlugin.Scaled, which multiplies without `float` rounding).
- XPlanePlugin.Receive, XPlanePlugin.Plugin.ReceiveData: a datagram longer than the 1024-byte buffer is dropped, as Winsock's `recvfrom` does (WSAEMSGSIZE); POSIX would deliver its first 1024 bytes instead, which is not modelled. A datagram of exactly 1024 bytes is processed whole, although `buffer[recvlen] = 0` (xplane-plugin/FSFFB-XPP.cpp:583) then writes one byte past the buffer, which is undefined behaviour. Lengths are counted in characters, which equals bytes for the ASCII commands the application sends.
- XPlanePlugin.OverrideRequest, XPlanePlugin.ApplyOverride: where the source never assigns `overrideValue` (no `=`, or only white space after it), the flag and the datarefs take `CppNumbers.unsetBool`, an arbitrary but fixed boolean; reading an uninitialised `bool` is undefined behaviour in C++, and a value that is neither true nor false is not modelled.
- XPlanePlugin.AxisToken, XPlanePlugin.ApplyAxis: a `stof` that throws is the outcome `ok == false` with the axes written so far; in the plugin the exception escapes the receive thread and ends the process (`std::terminate`). The same applies to `stoi`/`stof` in XPlanePlugin.ApplySubscribe.
- MsfsSubstitute.Substitute: the AttributeError and TypeError the source raises (a `clone` or `.vars` on a plain SimVar, `int(None)`) are `Err` values; in the source they end the SimConnect thread.
- FfbCalculator.Calculator: holds its own copy of the parameter table; `FFBCalculator.__init__` (fsffb/core/ffb_calculator.py:49) keeps a reference to the caller's dictionary, so edits by the caller are not seen by the model.
- MsfsManager.Manager.HandleSimobjectData: delivers a copy of each array's values; the source delivers the live list (fsffb/telemetry/msfs_manager.py:404), which later packets mutate in place.
- MsfsManager.Manager.Resubscribe: rebuilds the array values as zeros from the new entries; the source's default arrays are the same objects across subscriptions and keep their last values.
- MsfsManager.Decode: skips an item whose index is out of range and reads the next item aligned; the source (fsffb/telemetry/msfs_manager.py:391-393) has advanced only past the DWORD index when the IndexError is caught, so the rest of that packet is misread.
- Joystick: the device connection, `hid.enumerate`/`open_path`, the 10 s retry, the polling thread, the lock and `close()` (fsffb/hardware/joystick_manager.py:120-180, 513-529) are I/O and concurrency; the device is an `isConnected` flag and a log of written reports, reads are incoming byte sequences.
- XPlaneManager: the sockets, the receive timeout and `_cleanup` are I/O; the sockets are a flag and a received datagram is a parameter (`None` is a timeout).
- MsfsManager: SimConnect dispatch, the read loop, the RECV_OPEN version mapping, the connect loop and the subscription calls (fsffb/telemetry/msfs_manager.py:259-283, 319-360, 428-443) are I/O; the ctypes decoding of a data packet is replaced by a list of (index, value) pairs.
- XPlanePlugin: winsock setup, the receive thread, XPLM dataref reads and writes, the flight-loop callback, `CollectTelemetryData` (xplane-plugin/FSFFB-XPP.cpp:369-470) and the debug log are I/O; dataref writes are logged, and the set of datarefs X-Plane knows is a parameter.
- Numeric.Transcendentals: `exp`, `sqrt`, `atan2`, `sin`, `cos`, `pow` and the prop-wash and never-exceed formulas built from them are uninterpreted beyond `exp(0) = 1`, `exp(-5.5) < 1`, `exp > 0`, `sqrt(0) = 0`, `sqrt >= 0` and `pi > 0`; the 3-D `Vector` rotations (fsffb/utils.py:65-90) are not part of this model.
- XPlaneManager.PyNumbers, XPlanePlugin.CppNumbers: number formatting and parsing are parameters; the model proves nothing about the digits they produce.
- FfbCalculator.Calculator.ProcessFrame: the wall clock (`time.time()`, fsffb/core/ffb_calculator.py:167-169) is the parameter `now`.
- Presets.PresetManager: reading and writing the presets file (fsffb/core/presets.py:237-266) and the module-level instance are left out; the constructor takes the file's parsed content.
- Logging, the Qt user interface, `main.py` orchestration, the PMDG samples and the build scripts are not part of this model.

## Findings

| source | as written | input that shows it | evidently intended | confidence | as-written member | corrected member |
|---|---|---|---|---|---|---|
| fsffb/core/ffb_calculator.py:456-458 | the stick-shaker magnitude divides by `0.3 * StallAoA * stall_aoa_ratio` | an airborne X-Plane frame with AoA > 0: the plugin sends `WarnAlpha` and never `StallAoA`, so the threshold is 0 and the frame raises ZeroDivisionError (likewise MSFS with the ratio slider at 0) | no shaker band when the threshold is 0 | not executed | FfbForces.ShakerAsWritten, FfbForces.ShakerDividesByZeroOnXPlane | FfbForces.Shaker, FfbForces.ShakerPeak, FfbForces.ShakerBand (used by FfbCalculator.FrameOf and FfbCalculator.Calculator.ProcessFrame) |
| xplane-plugin/FSFFB-XPP.cpp:309-317 | `find_last_not_of("~0.000")` treats its argument as a set of characters, so the trim also removes the trailing `0`s and `.` of the last non-zero element | the elements `10.000~0.000` are trimmed to `1`; latent, since the trim runs only without a positive `fixed_size`, i.e. when `gActiveNumGear` or `gActiveNumEngines` is 0 (lines 361-363, 430-434) | drop whole trailing zero elements, as the comment at lines 265-266 says | not executed | XPlanePlugin.TrimAsWritten, XPlanePlugin.TrimAsWrittenEatsDigits | XPlanePlugin.TrimZeroElementsKeepsElements, XPlanePlugin.FloatArrayToString |
| xplane-plugin/FSFFB-XPP.cpp:631-644 | `IsXPlane12OrNewer` tests whether the decimal version starts with `12` | an internal version 130000 (assuming X-Plane 13 reports 13xxxx) fails the test, so `XPluginStart` (line 658) reads the aircraft name from `acf_descrip` | version >= 120000 | not executed | XPlanePlugin.IsXPlane12OrNewer, XPlanePlugin.IsXPlane12OrNewerMissesThirteen | XPlanePlugin.IsXPlaneAtLeast12Agrees, XPlanePlugin.AircraftNameDataRef |
| fsffb/telemetry/xplane_manager.py:72-76 | without sockets the loop calls `time.sleep(1)`, but `time` is imported only under `if __name__ == '__main__'` (line 177) | a manager whose socket setup failed: the first pass raises NameError and the thread ends | idle and retry | not executed | XPlaneManager.Manager.RunOnceAsWritten, XPlaneManager.NoSocketsEndsThread | XPlaneManager.Manager.RunOnce, XPlaneManager.NoSocketsIdles |
| xplane-plugin/FSFFB-XPP.cpp:321-344 | `GetNumGear` returns the largest number of non-zero coordinates in one gear slot, at most 3, and `GetACDetails` (lines 350-363) uses it as the number of gear entries | an aircraft with four gear legs is reported with three gear entries | the number of slots holding a gear leg | not executed | XPlanePlugin.GetNumGear, XPlanePlugin.GetNumGearCapsAtThree | XPlanePlugin.GearCount, XPlanePlugin.GearCountOfLegs |
