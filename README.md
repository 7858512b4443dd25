# Glove calibrators and gesture detectors, in Dafny

This project models two small pieces of the glove firmware's sensor-to-wire
path and proves properties of them.

- **Calibrators** (`open-gloves/Calibration.hpp`). Three strategies turn a raw
  sample of an integral type `T` into a value in `[output_min, output_max]`:
  - `MinMaxCalibrator` tracks the smallest and largest sample seen.
  - `CenterPointDeviationCalibrator` tracks the range of motion in sensor
    units and reports the clamped deviation from its centre.
  - `FixedCenterPointDeviationCalibrator` does the same around the fixed
    centre `sensor_max / 2`.

  The module also models `accurateMap`, `simpleAccurateMap` and the
  `Calibrated` enable/disable flag.
- **Gesture detectors** (`firmware/lucidgloves-firmware/Gesture.hpp`). A
  `Gesture` holds one boolean and encodes it into a caller's buffer with
  `snprintf`. Each `readInput` recomputes that boolean from the current finger
  flexion readings with a strict `> ANALOG_MAX / 2` threshold:
  - Grab averages four fingers.
  - Trigger reads one finger.
  - Pinch averages two fingers.

Files:
- `numerics.dfy` (module `Numerics`): C++ arithmetic. Integer `/` truncates
  toward zero (`TruncDiv`), and a `float` stored back into an integral type
  loses its fractional part (`TruncToInt`).
- `arduino.dfy` (module `Arduino`): Arduino's `constrain` and `map`, by their
  documented definitions.
- `calibration.dfy` (module `Calibration`): `accurateMap`, the three
  calibrators as classes, and the `Calibrated` flag.
- `gesture.dfy` (module `Gestures`): the threshold predicates, `snprintf`'s
  storing rule, the `Gesture` class, and one class for each of the three
  detectors.

How the model represents the source:
- `T` is `int`. Each template value parameter (`output_min`, `sensor_max`, …)
  is a `const` field that the constructor sets.
- `float` arithmetic is exact `real` arithmetic. Every point where the source
  stores a float result into a `T` truncates toward zero.
- Methods change state. They have `modifies` clauses and state the new value
  of every field.
- Each `calibrate` is `const` in C++, so it is a function. The stateful
  calibrators' `Calibrate` has `reads this`; the fixed variant reads only
  `const` fields and needs no `reads` clause.
- C++ subclasses are modelled by composition. Each detector class owns a
  `Gesture` and its `ReadInput` modifies only that object's `value`.
- `Finger::flexionValue()` and `ANALOG_MAX` are parameters of `ReadInput`.
  The `EncodingType` character is a constructor argument.

Two clients check the scenarios of the design against the contracts alone:
- `Calibration.MinMaxScenario` uses outputs `[0, 1000]` and samples 100, 500
  and 900. Afterwards, 900 calibrates to 1000 and 100 calibrates to 0. After a
  reset, 900, 100 and -20 all calibrate to 500; that every input does is
  `MinMaxCalibrator.Calibrate`'s own contract.
- `Gestures.TriggerScenario` uses `ANALOG_MAX` = 4095. A reading of 2457
  presses the trigger and a reading of 1638 releases it.

Where the design description and the code disagree, the model follows the
code:
- The design says `MinMaxCalibrator::calibrate` returns the output midpoint
  when the observed minimum equals the observed maximum. The code has no such
  guard: it divides by zero in `accurateMap`. That state is reachable with a
  single in-range `update` after a reset (`SingleSampleCollapsesRange`).
  `Calibrate` therefore requires `valueMin != valueMax`, and the model invents
  no fallback.
- The design says the tracked bounds start at the type's extremes. The code
  starts them at `output_max` and `output_min` (`MinMaxCalibrator`) and at
  `sensor_max` and `0` (`CenterPointDeviationCalibrator`). The model uses the
  code's values.
- The design says an active gesture writes its symbol. The code writes only
  the terminator (see Findings).

## Model

| member | source | states |
|---|---|---|
| `Numerics.TruncDiv` | firmware/lucidgloves-firmware/Gesture.hpp:46-47 | C++ integer division: the quotient's magnitude is the floor of the magnitudes, its sign is the product of the signs, and it agrees with Euclidean division on non-negative operands |
| `Numerics.TruncToInt` | open-gloves/Calibration.hpp:57 | storing a float in an integral `T` discards the fraction: the result is within one unit of the value, on the zero side |
| `Numerics.TruncHalf` | open-gloves/Calibration.hpp:54 | `n / 2.0f` stored in a `T` equals the C++ integer quotient `n / 2` |
| `Numerics.TruncDivMonotone` | firmware/lucidgloves-firmware/Gesture.hpp:46-47 | truncating division by a positive divisor preserves order, for negative dividends too |
| `Arduino.Constrain` | open-gloves/Calibration.hpp:60 | the result lies in `[low, high]` when that range is proper; an in-range value passes unchanged; a value beyond an end becomes that end |
| `Arduino.Map` | open-gloves/Calibration.hpp:95 | `in_min` maps to `out_min` and `in_max` to `out_max`; with an increasing input range and a non-decreasing output range, inputs inside the range land inside the output range |
| `Arduino.MapMonotone` | open-gloves/Calibration.hpp:95 | `map` preserves the order of its inputs |
| `Calibration.AccurateMap` | open-gloves/Calibration.hpp:3-5 | `in_min` maps exactly to `out_min` and `in_max` to `out_max` |
| `Calibration.SimpleAccurateMap` | open-gloves/Calibration.hpp:7-10 | equals `accurateMap` with both minimums at zero |
| `Calibration.AccurateMapMonotone` | open-gloves/Calibration.hpp:3-5 | `accurateMap` is non-decreasing in `x` when `in_min < in_max` and `out_min <= out_max` |
| `Calibration.AccurateMapInverse` | open-gloves/Calibration.hpp:3-5 | mapping into a range and back with the ranges swapped returns the input |
| `Calibration.ToSensorUnits` | open-gloves/Calibration.hpp:89 | an input in output units, remapped onto `[0, sensor_max]` and truncated: `output_min` goes to 0, `output_max` goes to `sensor_max`, and inputs in between stay inside the sensor range |
| `Calibration.ToSensorUnitsMonotone` | open-gloves/Calibration.hpp:89 | the remap to sensor units preserves order |
| `Calibration.Center` | open-gloves/Calibration.hpp:86 | the centre is the C++ integer midpoint `(range_min + range_max) / 2` and lies inside a proper range |
| `Calibration.ClampedDeviation` | open-gloves/Calibration.hpp:91-92 | the deviation passed to `map` lies in `[-driver_max_deviation, driver_max_deviation]` for every input; a deviation already within that range passes unchanged |
| `Calibration.DeviationCalibrate` | open-gloves/Calibration.hpp:84-96 | the shared deviation mapping stays in `[output_min, output_max]` for every input and centre; a deviation at or beyond the limit gives the matching end of the output range |
| `Calibration.DeviationAtCenter` | open-gloves/Calibration.hpp:84-96 | an input exactly on the centre gives the middle of the output range |
| `Calibration.DeviationCalibrateMonotone` | open-gloves/Calibration.hpp:84-96 | the deviation mapping is non-decreasing in the input |
| `Calibration.AsWrittenUpdate` | open-gloves/Calibration.hpp:78-82 | a bound that the raw input passes is replaced by the input remapped to sensor units; a bound it does not pass is kept |
| `Calibration.SensorUnitUpdate` | open-gloves/Calibration.hpp:78-82 | the intended update: the range only widens, and it contains the remapped sample afterwards |
| `Calibration.AsWrittenUpdateCanNarrow` | open-gloves/Calibration.hpp:80-81 | the update as written can raise `range_min` above both its old value and `range_max` |
| `Calibration.UpdatesAgreeOnIdentityScale` | open-gloves/Calibration.hpp:80-81 | when output units equal sensor units, the update as written is the intended update |
| `Calibration.Calibrated.constructor` | open-gloves/Calibration.hpp:24-25 | the flag starts at the value given |
| `Calibration.Calibrated.EnableCalibration` | open-gloves/Calibration.hpp:16-18 | sets the flag |
| `Calibration.Calibrated.DisableCalibration` | open-gloves/Calibration.hpp:20-22 | clears the flag |
| `Calibration.MinMaxCalibrator.constructor` | open-gloves/Calibration.hpp:38 | starts in the inverted range `value_min = output_max`, `value_max = output_min` |
| `Calibration.MinMaxCalibrator.Reset` | open-gloves/Calibration.hpp:40-43 | restores the constructor's state, which for a proper output range is the uncalibrated state; it sets fixed values, so it is idempotent |
| `Calibration.MinMaxCalibrator.Update` | open-gloves/Calibration.hpp:45-49 | afterwards `value_min <= input <= value_max`; `value_min` never rises and `value_max` never falls |
| `Calibration.MinMaxCalibrator.Calibrate` | open-gloves/Calibration.hpp:51-61 | uncalibrated: `(output_min + output_max) / 2` truncated, whatever the input; otherwise a value in `[output_min, output_max]`, with `value_min` mapped to `output_min` and `value_max` to `output_max`; it reads the state and changes nothing |
| `Calibration.MinMaxCalibrateMonotone` | open-gloves/Calibration.hpp:51-61 | once calibrated, `calibrate` is non-decreasing in the input |
| `Calibration.MinMaxCalibrateSaturates` | open-gloves/Calibration.hpp:56-60 | a sample at or beyond an observed bound gives the matching end of the output range |
| `Calibration.SingleSampleCollapsesRange` | open-gloves/Calibration.hpp:45-57 | after a reset, one in-range `update` leaves `value_min == value_max`, the state in which `calibrate` divides by zero |
| `Calibration.CenterPointDeviationCalibrator.constructor` | open-gloves/Calibration.hpp:71 | starts with `range_min = sensor_max`, `range_max = 0` |
| `Calibration.CenterPointDeviationCalibrator.Reset` | open-gloves/Calibration.hpp:73-76 | restores `range_min = sensor_max`, `range_max = 0` |
| `Calibration.CenterPointDeviationCalibrator.Update` | open-gloves/Calibration.hpp:78-82 | the new range is the as-written update of the old one; no other field changes |
| `Calibration.CenterPointDeviationCalibrator.Calibrate` | open-gloves/Calibration.hpp:84-96 | stays in `[output_min, output_max]` for every input and every tracked range; saturates at the ends when the deviation from the centre reaches the limit |
| `Calibration.FixedCenterPointDeviationCalibrator.constructor` | open-gloves/Calibration.hpp:103-104 | fixes the template parameters; there is no mutable state |
| `Calibration.FixedCenterPointDeviationCalibrator.Reset` | open-gloves/Calibration.hpp:106 | does nothing: with no `modifies` clause it can change no state |
| `Calibration.FixedCenterPointDeviationCalibrator.Update` | open-gloves/Calibration.hpp:107 | ignores its input and does nothing: with no `modifies` clause it can change no state |
| `Calibration.FixedCenterPointDeviationCalibrator.Calibrate` | open-gloves/Calibration.hpp:109-121 | the same bounds and saturation around the centre `sensor_max / 2` |
| `Calibration.FreshCenterMatchesFixed` | open-gloves/Calibration.hpp:106-111 | a new or reset `CenterPointDeviationCalibrator` calibrates every input exactly as the fixed variant does |
| `Gestures.GrabActive` | firmware/lucidgloves-firmware/Gesture.hpp:46-47 | the grab condition: the truncated mean of the four readings exceeds `ANALOG_MAX / 2`, both in C++ integer division |
| `Gestures.TriggerActive` | firmware/lucidgloves-firmware/Gesture.hpp:64 | the trigger condition: the index reading exceeds `ANALOG_MAX / 2` |
| `Gestures.PinchActive` | firmware/lucidgloves-firmware/Gesture.hpp:80 | the pinch condition: the truncated mean of thumb and index exceeds `ANALOG_MAX / 2` |
| `Gestures.GrabThreshold` | firmware/lucidgloves-firmware/Gesture.hpp:45-48 | grab is active exactly when the four readings sum to at least `4 * (ANALOG_MAX / 2 + 1)` |
| `Gestures.GrabThresholdIsStrict` | firmware/lucidgloves-firmware/Gesture.hpp:45-48 | a mean equal to `ANALOG_MAX / 2` is not a grab; a mean one unit higher is |
| `Gestures.PinchThreshold` | firmware/lucidgloves-firmware/Gesture.hpp:78-81 | pinch is active exactly when thumb plus index is at least `2 * (ANALOG_MAX / 2 + 1)` |
| `Gestures.GrabMonotone` | firmware/lucidgloves-firmware/Gesture.hpp:46-47 | flexing any of the four fingers further never releases an active grab |
| `Gestures.PinchMonotone` | firmware/lucidgloves-firmware/Gesture.hpp:80 | flexing thumb or index further never releases an active pinch |
| `Gestures.GrabSymmetric` | firmware/lucidgloves-firmware/Gesture.hpp:46-47 | grab is unchanged by swapping neighbouring fingers, and so by any reordering |
| `Gestures.PinchSymmetric` | firmware/lucidgloves-firmware/Gesture.hpp:80 | pinch is unchanged by swapping thumb and index |
| `Gestures.SnprintfStored` | firmware/lucidgloves-firmware/Gesture.hpp:22 | `snprintf` stores at most `n` characters: a prefix of the formatted text, then a terminator |
| `Gestures.OneByteSlotHoldsOnlyTerminator` | firmware/lucidgloves-firmware/Gesture.hpp:16-23 | a one-character slot receives only the terminator, whatever character was formatted |
| `Gestures.TwoByteSlotHoldsCharacter` | firmware/lucidgloves-firmware/Gesture.hpp:17 | a two-character slot receives the character followed by the terminator |
| `Gestures.Gesture.constructor` | firmware/lucidgloves-firmware/Gesture.hpp:11 | a new gesture keeps its type and is not pressed until its first `readInput` |
| `Gestures.Gesture.IsPressed` | firmware/lucidgloves-firmware/Gesture.hpp:25-27 | reports the stored boolean, without changing it |
| `Gestures.Gesture.Symbol` | firmware/lucidgloves-firmware/Gesture.hpp:22 | the character formatted with `"%c"`: the encoding type when pressed, `'\0'` otherwise |
| `Gestures.Gesture.GetEncodedSize` | firmware/lucidgloves-firmware/Gesture.hpp:16-19 | the slot is one character for every type and value |
| `Gestures.Gesture.Encode` | firmware/lucidgloves-firmware/Gesture.hpp:21-23 | writes exactly `GetEncodedSize()` characters and leaves the rest of the buffer untouched; the character written is the terminator, pressed or not; returns 1 |
| `Gestures.Gesture.EncodeWithTerminator` | firmware/lucidgloves-firmware/Gesture.hpp:17 | with the two-character slot the comment describes, a pressed gesture's symbol reaches the buffer, followed by the terminator |
| `Gestures.GrabGesture.constructor` | firmware/lucidgloves-firmware/Gesture.hpp:38-41 | a new grab gesture is not pressed |
| `Gestures.GrabGesture.ReadInput` | firmware/lucidgloves-firmware/Gesture.hpp:45-48 | the pressed state becomes the grab threshold of the current readings, with no dependence on its previous value |
| `Gestures.TriggerGesture.constructor` | firmware/lucidgloves-firmware/Gesture.hpp:59-60 | a new trigger gesture is not pressed |
| `Gestures.TriggerGesture.ReadInput` | firmware/lucidgloves-firmware/Gesture.hpp:63-65 | pressed exactly when the index reading exceeds `ANALOG_MAX / 2`; no dependence on the previous value |
| `Gestures.PinchGesture.constructor` | firmware/lucidgloves-firmware/Gesture.hpp:73-74 | a new pinch gesture is not pressed |
| `Gestures.PinchGesture.ReadInput` | firmware/lucidgloves-firmware/Gesture.hpp:78-81 | the pressed state becomes the pinch threshold of the current readings; no dependence on the previous value |

## Left out

- The width of `T` is not modelled. Integers are unbounded, so overflow of `T`
  or `int` is not captured. This includes the sum of four flexion readings and
  the products inside `map`.
- `T` is taken to be signed. With an unsigned `T`, `-driver_max_deviation`
  would wrap around.
- `float` rounding is not modelled. `accurateMap` and the `/ 2.0f` midpoints
  use exact reals, then truncate to `T`.
- `Calibration.MinMaxCalibrator.Calibrate` requires `valueMin != valueMax`,
  because the code divides by zero in that state. The model invents no
  fallback value.
- `Calibration.CenterPointDeviationCalibrator.Update` and the deviation
  `Calibrate` functions require `outputMin != outputMax`, because the source
  divides by that span in floating point.
- The deviation `Calibrate` functions also require `driverMaxDeviation != 0`,
  because Arduino's `map` then divides by zero.
- The `Calibrator<T>` interface and the pure virtual
  `Calibrated::resetCalibration` have no body in the source. The
  implementations of `resetCalibration` live in classes that are not part of
  this model.
- `Gesture::setup` is empty and is not modelled.
- `Finger`, `ANALOG_MAX` and `EncodingType` are defined in files that are not
  part of this model. They enter as parameters.
- The model does not include `snprintf`'s negative return on an encoding
  error, which cannot happen with `"%c"`.
- `open-gloves/SerialBTCommunication.hpp` is not part of this model. It is a
  thin I/O wrapper over the serial and Bluetooth libraries.

## Findings

| source | as written | input that shows it | evidently intended | confidence | as-written member | corrected member |
|---|---|---|---|---|---|---|
| open-gloves/Calibration.hpp:80-81 | compares the raw input, in output units, with `range_min`/`range_max`, which are in sensor units | output range `[0, 1000]`, `sensor_max` 4095, range `[2047, 2047]`, `update(600)`: `range_min` becomes 2457, above `range_max` | compare the remapped input, so that the range only widens | medium, not executed | `Calibration.AsWrittenUpdate` (shown by `Calibration.AsWrittenUpdateCanNarrow`) | `Calibration.SensorUnitUpdate` |
| firmware/lucidgloves-firmware/Gesture.hpp:16-23 | `snprintf` into a one-character slot stores only the terminator | a pressed gesture (`value` true, any type): the slot holds `'\0'`, not the symbol | a slot of one character plus `'\0'`, as the comment at line 17 says, so that the symbol is written | medium, not executed | `Gestures.Gesture.Encode` (shown by `Gestures.OneByteSlotHoldsOnlyTerminator`) | `Gestures.Gesture.EncodeWithTerminator` |

`CenterPointDeviationCalibrator.Update` and `Gesture.Encode` model the code as
written. The corrected members are stated beside them and proved to have the
intended property. On the identity scale (`output_min = 0`,
`output_max = sensor_max`) the two updates coincide
(`UpdatesAgreeOnIdentityScale`), so the first finding shows only when output
and sensor units differ.
