/** The calibrators of `open-gloves/Calibration.hpp`: three strategies that map
    a raw sample of an integral type `T` into `[outputMin, outputMax]`.

    `T` is modelled as `int`. The template's value parameters become `const`
    fields fixed by the constructor. The `float` arithmetic of `accurateMap` is
    modelled over exact reals, and every place where a float result is stored
    back into a `T` truncates toward zero (`Numerics.TruncToInt`). */
module Calibration {
  import opened Numerics
  import opened Arduino

  /** `accurateMap`: the linear re-mapping of `[inMin, inMax]` onto
      `[outMin, outMax]` without integer truncation. */
  function AccurateMap(x: real, inMin: real, inMax: real, outMin: real, outMax: real): (r: real)
    requires inMin != inMax
    ensures x == inMin ==> r == outMin
    ensures x == inMax ==> r == outMax
  {
    RealDivCancel(inMax - inMin, outMax - outMin);
    RealZeroDiv(inMax - inMin);
    (x - inMin) * (outMax - outMin) / (inMax - inMin) + outMin
  }

  lemma RealZeroDiv(d: real)
    requires d != 0.0
    ensures 0.0 / d == 0.0
  {
  }

  lemma RealDivCancel(d: real, k: real)
    requires d != 0.0
    ensures d * k / d == k
  {
  }

  /** Division by a positive real preserves order. */
  lemma RealDivMonotone(a: real, b: real, d: real)
    requires a <= b && d > 0.0
    ensures a / d <= b / d
  {
    RealDivAdd(a, b - a, d);
    RealDivNonNegative(b - a, d);
  }

  lemma RealDivAdd(a: real, c: real, d: real)
    requires d != 0.0
    ensures (a + c) / d == a / d + c / d
  {
  }

  lemma RealDivNonNegative(p: real, d: real)
    requires p >= 0.0 && d > 0.0
    ensures p / d >= 0.0
  {
  }

  lemma RealMulMonotone(u: real, v: real, d: real)
    requires u <= v && d >= 0.0
    ensures u * d <= v * d
  {
    assert v * d - u * d == (v - u) * d;
  }

  /** `simpleAccurateMap`: `accurateMap` with both minimums at zero. */
  function SimpleAccurateMap(x: real, inMax: real, outMax: real): (r: real)
    requires inMax != 0.0
    ensures r == AccurateMap(x, 0.0, inMax, 0.0, outMax)
  {
    x * outMax / inMax
  }

  /** Over an increasing input range and a non-decreasing output range,
      `accurateMap` preserves order; with the endpoint equations this keeps the
      image of `[inMin, inMax]` inside `[outMin, outMax]`. */
  lemma AccurateMapMonotone(x: real, y: real, inMin: real, inMax: real, outMin: real, outMax: real)
    requires inMin < inMax && outMin <= outMax && x <= y
    ensures AccurateMap(x, inMin, inMax, outMin, outMax) <= AccurateMap(y, inMin, inMax, outMin, outMax)
  {
    RealMulMonotone(x - inMin, y - inMin, outMax - outMin);
    RealDivMonotone((x - inMin) * (outMax - outMin), (y - inMin) * (outMax - outMin), inMax - inMin);
  }

  /** Mapping from one range to another and back again is the identity. */
  lemma AccurateMapInverse(x: real, inMin: real, inMax: real, outMin: real, outMax: real)
    requires inMin != inMax && outMin != outMax
    ensures AccurateMap(AccurateMap(x, inMin, inMax, outMin, outMax), outMin, outMax, inMin, inMax) == x
  {
    var run, rise := inMax - inMin, outMax - outMin;
    var t := (x - inMin) / run;
    assert (x - inMin) * rise / run == t * rise;
    var y := AccurateMap(x, inMin, inMax, outMin, outMax);
    assert y - outMin == t * rise;
    assert (y - outMin) * run / rise == t * run;
    assert t * run == x - inMin;
  }

  /** The input, given in output units, remapped onto the sensor's range of
      motion `[0, sensorMax]` and stored in a `T` (Calibration.hpp lines 80,
      81, 89 and 114). */
  function ToSensorUnits(input: int, outputMin: int, outputMax: int, sensorMax: int): (s: int)
    requires outputMin != outputMax
    ensures input == outputMin ==> s == 0
    ensures input == outputMax ==> s == sensorMax
    ensures outputMin < outputMax && 0 <= sensorMax && outputMin <= input <= outputMax ==> 0 <= s <= sensorMax
  {
    var mapped := AccurateMap(input as real, outputMin as real, outputMax as real, 0.0, sensorMax as real);
    TruncToIntOfInt(0);
    TruncToIntOfInt(sensorMax);
    if outputMin < outputMax && 0 <= sensorMax && outputMin <= input <= outputMax then
      AccurateMapMonotone(outputMin as real, input as real, outputMin as real, outputMax as real, 0.0, sensorMax as real);
      AccurateMapMonotone(input as real, outputMax as real, outputMin as real, outputMax as real, 0.0, sensorMax as real);
      TruncToInt(mapped)
    else
      TruncToInt(mapped)
  }

  lemma ToSensorUnitsMonotone(x: int, y: int, outputMin: int, outputMax: int, sensorMax: int)
    requires outputMin < outputMax && 0 <= sensorMax && x <= y
    ensures ToSensorUnits(x, outputMin, outputMax, sensorMax) <= ToSensorUnits(y, outputMin, outputMax, sensorMax)
  {
    AccurateMapMonotone(x as real, y as real, outputMin as real, outputMax as real, 0.0, sensorMax as real);
    TruncToIntMonotone(
      AccurateMap(x as real, outputMin as real, outputMax as real, 0.0, sensorMax as real),
      AccurateMap(y as real, outputMin as real, outputMax as real, 0.0, sensorMax as real));
  }

  /** The centre of a tracked range, `(range_min + range_max) / 2.0f` stored in
      a `T`: the C++ integer midpoint, which lies inside the range. */
  function Center(rangeMin: int, rangeMax: int): (c: int)
    ensures c == TruncDiv(rangeMin + rangeMax, 2)
    ensures rangeMin <= rangeMax ==> rangeMin <= c <= rangeMax
  {
    TruncHalf(rangeMin + rangeMax);
    TruncToInt((rangeMin + rangeMax) as real / 2.0)
  }

  /** Steps 2 and 3 of both deviation calibrators: the input in sensor units,
      less the centre, clamped to the deviation the driver supports. */
  function ClampedDeviation(center: int, input: int, outputMin: int, outputMax: int,
                            sensorMax: int, driverMaxDeviation: int): (d: int)
    requires outputMin != outputMax
    ensures driverMaxDeviation >= 0 ==> -driverMaxDeviation <= d <= driverMaxDeviation
    ensures var dev := ToSensorUnits(input, outputMin, outputMax, sensorMax) - center;
      -driverMaxDeviation <= dev <= driverMaxDeviation ==> d == dev
  {
    Constrain(ToSensorUnits(input, outputMin, outputMax, sensorMax) - center,
              -driverMaxDeviation, driverMaxDeviation)
  }

  /** The `calibrate` of both deviation calibrators, given the centre: the
      clamped deviation mapped with Arduino's `map` from
      `[-driverMaxDeviation, driverMaxDeviation]` onto the output range. The
      result stays in the output range for every input, and a deviation at or
      beyond the limit saturates at the matching end. */
  function DeviationCalibrate(center: int, input: int, outputMin: int, outputMax: int,
                              sensorMax: int, driverMaxDeviation: int): (r: int)
    requires outputMin != outputMax && driverMaxDeviation != 0
    ensures driverMaxDeviation > 0 && outputMin <= outputMax ==> outputMin <= r <= outputMax
    ensures var dev := ToSensorUnits(input, outputMin, outputMax, sensorMax) - center;
      driverMaxDeviation > 0 && dev >= driverMaxDeviation ==> r == outputMax
    ensures var dev := ToSensorUnits(input, outputMin, outputMax, sensorMax) - center;
      driverMaxDeviation > 0 && dev <= -driverMaxDeviation ==> r == outputMin
  {
    Map(ClampedDeviation(center, input, outputMin, outputMax, sensorMax, driverMaxDeviation),
        -driverMaxDeviation, driverMaxDeviation, outputMin, outputMax)
  }

  /** An input that sits exactly on the centre gives the middle of the output
      range. */
  lemma DeviationAtCenter(center: int, input: int, outputMin: int, outputMax: int,
                                             sensorMax: int, driverMaxDeviation: int)
    requires outputMin < outputMax && driverMaxDeviation > 0
    requires ToSensorUnits(input, outputMin, outputMax, sensorMax) == center
    ensures DeviationCalibrate(center, input, outputMin, outputMax, sensorMax, driverMaxDeviation)
         == outputMin + (outputMax - outputMin) / 2
  {
    var dmax, rise := driverMaxDeviation, outputMax - outputMin;
    assert ClampedDeviation(center, input, outputMin, outputMax, sensorMax, dmax) == 0;
    var half, odd := rise / 2, rise % 2;
    assert (0 + dmax) * rise == half * (2 * dmax) + dmax * odd by {
      assert rise == 2 * half + odd;
      assert dmax * rise == dmax * (2 * half) + dmax * odd;
    }
    assert 0 <= dmax * odd < 2 * dmax by {
      assert odd == 0 || odd == 1;
    }
    DivUnique((0 + dmax) * rise, 2 * dmax, half, dmax * odd);
  }

  /** Both deviation calibrators are monotone in the input. */
  lemma DeviationCalibrateMonotone(center: int, x: int, y: int, outputMin: int, outputMax: int,
                                                      sensorMax: int, driverMaxDeviation: int)
    requires outputMin < outputMax && 0 <= sensorMax && driverMaxDeviation > 0 && x <= y
    ensures DeviationCalibrate(center, x, outputMin, outputMax, sensorMax, driverMaxDeviation)
         <= DeviationCalibrate(center, y, outputMin, outputMax, sensorMax, driverMaxDeviation)
  {
    var dmax := driverMaxDeviation;
    var sx := ToSensorUnits(x, outputMin, outputMax, sensorMax);
    var sy := ToSensorUnits(y, outputMin, outputMax, sensorMax);
    ToSensorUnitsMonotone(x, y, outputMin, outputMax, sensorMax);
    ConstrainMonotone(sx - center, sy - center, -dmax, dmax);
    MapMonotone(ClampedDeviation(center, x, outputMin, outputMax, sensorMax, dmax),
                ClampedDeviation(center, y, outputMin, outputMax, sensorMax, dmax),
                -dmax, dmax, outputMin, outputMax);
  }

  /** The tracked range of `CenterPointDeviationCalibrator`, in sensor units. */
  datatype SensorRange = SensorRange(min: int, max: int)

  /** `CenterPointDeviationCalibrator::update` as written: a bound is replaced
      when the raw input, in OUTPUT units, passes it, but what is stored is the
      input remapped to SENSOR units. */
  function AsWrittenUpdate(range: SensorRange, input: int, outputMin: int, outputMax: int, sensorMax: int): (updated: SensorRange)
    requires outputMin != outputMax
    ensures input < range.min ==> updated.min == ToSensorUnits(input, outputMin, outputMax, sensorMax)
    ensures input > range.max ==> updated.max == ToSensorUnits(input, outputMin, outputMax, sensorMax)
    ensures input >= range.min ==> updated.min == range.min
    ensures input <= range.max ==> updated.max == range.max
  {
    var s := ToSensorUnits(input, outputMin, outputMax, sensorMax);
    SensorRange(if input < range.min then s else range.min,
                if input > range.max then s else range.max)
  }

  /** The update the comment and the design describe: the input is converted
      to sensor units first and then folded into the range, so the range only
      ever widens and always contains the sample. */
  function SensorUnitUpdate(range: SensorRange, input: int, outputMin: int, outputMax: int, sensorMax: int): (updated: SensorRange)
    requires outputMin != outputMax
    ensures var s := ToSensorUnits(input, outputMin, outputMax, sensorMax);
      updated.min <= s <= updated.max
    ensures updated.min <= range.min && range.max <= updated.max
    ensures updated.min == range.min || updated.min == ToSensorUnits(input, outputMin, outputMax, sensorMax)
    ensures updated.max == range.max || updated.max == ToSensorUnits(input, outputMin, outputMax, sensorMax)
  {
    var s := ToSensorUnits(input, outputMin, outputMax, sensorMax);
    SensorRange(if s < range.min then s else range.min,
                if s > range.max then s else range.max)
  }

  /** The as-written update can NARROW the range: with outputs in `[0, 1000]`
      and a sensor range of 4095, a range `[2047, 2047]` updated with 600 gets
      a minimum of 2457, above both its old minimum and its maximum. */
  lemma AsWrittenUpdateCanNarrow()
    ensures var updated := AsWrittenUpdate(SensorRange(2047, 2047), 600, 0, 1000, 4095);
      updated.min == 2457 && updated.max == 2047
  {
    assert AccurateMap(600.0, 0.0, 1000.0, 0.0, 4095.0) == 2457.0;
    TruncToIntOfInt(2457);
  }

  /** When output units and sensor units coincide (`outputMin == 0` and
      `outputMax == sensorMax`) the as-written update is the intended one. */
  lemma UpdatesAgreeOnIdentityScale(range: SensorRange, input: int, sensorMax: int)
    requires sensorMax != 0
    ensures AsWrittenUpdate(range, input, 0, sensorMax, sensorMax) == SensorUnitUpdate(range, input, 0, sensorMax, sensorMax)
  {
    assert AccurateMap(input as real, 0.0, sensorMax as real, 0.0, sensorMax as real) == input as real;
    TruncToIntOfInt(input);
  }

  /** `Calibrated`: the flag that turns calibration of an input on and off. The
      C++ class leaves the flag uninitialised, so its first value is a
      constructor argument here. */
  class Calibrated {
    var calibrate: bool

    constructor (calibrate: bool)
      ensures this.calibrate == calibrate
    {
      this.calibrate := calibrate;
    }

    method EnableCalibration()
      modifies this
      ensures calibrate
    {
      calibrate := true;
    }

    method DisableCalibration()
      modifies this
      ensures !calibrate
    {
      calibrate := false;
    }
  }

  /** `MinMaxCalibrator<T, output_min, output_max>`: tracks the smallest and
      largest sample seen and maps that observed range onto the output range.
      `valueMin > valueMax` is the "no calibration data yet" state. */
  class MinMaxCalibrator {
    const outputMin: int
    const outputMax: int
    var valueMin: int
    var valueMax: int

    /** Starts with the inverted range `[outputMax, outputMin]`. */
    constructor (outputMin: int, outputMax: int)
      ensures this.outputMin == outputMin && this.outputMax == outputMax
      ensures valueMin == outputMax && valueMax == outputMin
    {
      this.outputMin, this.outputMax := outputMin, outputMax;
      valueMin, valueMax := outputMax, outputMin;
    }

    /** Back to the inverted range the constructor sets; for a proper output
      range that is the uncalibrated state. */
    method Reset()
      modifies this
      ensures valueMin == outputMax && valueMax == outputMin
      ensures outputMin < outputMax ==> valueMin > valueMax
    {
      valueMin := outputMax;
      valueMax := outputMin;
    }

    /** Widens the observed range to take in `input`: afterwards the range
      contains it, and neither bound moved inward. */
    method Update(input: int)
      modifies this
      ensures valueMin == (if input < old(valueMin) then input else old(valueMin))
      ensures valueMax == (if input > old(valueMax) then input else old(valueMax))
      ensures valueMin <= input <= valueMax
      ensures valueMin <= old(valueMin) && old(valueMax) <= valueMax
    {
      if input < valueMin { valueMin := input; }
      if input > valueMax { valueMax := input; }
    }

    /** Uncalibrated: the midpoint `(outputMin + outputMax) / 2` whatever the
      input. Otherwise the input mapped from the observed range and clamped:
      inside the output range, with the observed bounds landing on its ends.
      The source divides by zero when `valueMin == valueMax`, which the
      precondition excludes. */
    function Calibrate(input: int): (r: int)
      reads this
      requires valueMin != valueMax
      ensures valueMin > valueMax ==> r == TruncDiv(outputMin + outputMax, 2)
      ensures outputMin <= outputMax ==> outputMin <= r <= outputMax
      ensures valueMin < valueMax && outputMin <= outputMax && input == valueMin ==> r == outputMin
      ensures valueMin < valueMax && outputMin <= outputMax && input == valueMax ==> r == outputMax
    {
      if valueMin > valueMax then
        TruncHalf(outputMin + outputMax);
        TruncToInt((outputMin + outputMax) as real / 2.0)
      else
        var output := TruncToInt(AccurateMap(input as real, valueMin as real, valueMax as real,
                                             outputMin as real, outputMax as real));
        TruncToIntOfInt(outputMin);
        TruncToIntOfInt(outputMax);
        Constrain(output, outputMin, outputMax)
    }
  }

  /** Once calibrated, `MinMaxCalibrator::calibrate` is monotone in the input. */
  lemma MinMaxCalibrateMonotone(c: MinMaxCalibrator, x: int, y: int)
    requires c.valueMin < c.valueMax && c.outputMin <= c.outputMax && x <= y
    ensures c.Calibrate(x) <= c.Calibrate(y)
  {
    var lo, hi, oMin, oMax := c.valueMin as real, c.valueMax as real, c.outputMin as real, c.outputMax as real;
    AccurateMapMonotone(x as real, y as real, lo, hi, oMin, oMax);
    TruncToIntMonotone(AccurateMap(x as real, lo, hi, oMin, oMax), AccurateMap(y as real, lo, hi, oMin, oMax));
    ConstrainMonotone(TruncToInt(AccurateMap(x as real, lo, hi, oMin, oMax)),
                      TruncToInt(AccurateMap(y as real, lo, hi, oMin, oMax)), c.outputMin, c.outputMax);
  }

  /** A sample outside the observed range, not yet folded in by `update`,
      saturates at the matching end of the output range. */
  lemma MinMaxCalibrateSaturates(c: MinMaxCalibrator, input: int)
    requires c.valueMin < c.valueMax && c.outputMin <= c.outputMax
    ensures input <= c.valueMin ==> c.Calibrate(input) == c.outputMin
    ensures input >= c.valueMax ==> c.Calibrate(input) == c.outputMax
  {
    if input <= c.valueMin {
      MinMaxCalibrateMonotone(c, input, c.valueMin);
    }
    if input >= c.valueMax {
      MinMaxCalibrateMonotone(c, c.valueMax, input);
    }
  }

  /** `CenterPointDeviationCalibrator<T, sensor_max, driver_max_deviation,
      output_min, output_max>`: tracks the range of motion in sensor units and
      reports the deviation of the input from the centre of that range. */
  class CenterPointDeviationCalibrator {
    const sensorMax: int
    const driverMaxDeviation: int
    const outputMin: int
    const outputMax: int
    var rangeMin: int
    var rangeMax: int

    constructor (sensorMax: int, driverMaxDeviation: int, outputMin: int, outputMax: int)
      ensures this.sensorMax == sensorMax && this.driverMaxDeviation == driverMaxDeviation
      ensures this.outputMin == outputMin && this.outputMax == outputMax
      ensures rangeMin == sensorMax && rangeMax == 0
    {
      this.sensorMax, this.driverMaxDeviation := sensorMax, driverMaxDeviation;
      this.outputMin, this.outputMax := outputMin, outputMax;
      rangeMin, rangeMax := sensorMax, 0;
    }

    method Reset()
      modifies this
      ensures rangeMin == sensorMax && rangeMax == 0
    {
      rangeMin := sensorMax;
      rangeMax := 0;
    }

    /** The update exactly as written: the raw input is compared with the
      bounds, and the bound it passes is replaced by the input in sensor
      units. */
    method Update(input: int)
      requires outputMin != outputMax
      modifies this
      ensures SensorRange(rangeMin, rangeMax)
           == AsWrittenUpdate(SensorRange(old(rangeMin), old(rangeMax)), input, outputMin, outputMax, sensorMax)
    {
      if input < rangeMin { rangeMin := ToSensorUnits(input, outputMin, outputMax, sensorMax); }
      if input > rangeMax { rangeMax := ToSensorUnits(input, outputMin, outputMax, sensorMax); }
    }

    /** The deviation from the centre of the tracked range, clamped and mapped
      onto the output range: inside the output range for every input and
      every tracked range. */
    function Calibrate(input: int): (r: int)
      reads this
      requires outputMin != outputMax && driverMaxDeviation != 0
      ensures driverMaxDeviation > 0 && outputMin <= outputMax ==> outputMin <= r <= outputMax
      ensures var dev := ToSensorUnits(input, outputMin, outputMax, sensorMax) - Center(rangeMin, rangeMax);
        driverMaxDeviation > 0 && dev >= driverMaxDeviation ==> r == outputMax
      ensures var dev := ToSensorUnits(input, outputMin, outputMax, sensorMax) - Center(rangeMin, rangeMax);
        driverMaxDeviation > 0 && dev <= -driverMaxDeviation ==> r == outputMin
    {
      DeviationCalibrate(Center(rangeMin, rangeMax), input, outputMin, outputMax, sensorMax, driverMaxDeviation)
    }
  }

  /** `FixedCenterPointDeviationCalibrator`: the same mapping around the fixed
      centre `sensorMax / 2`. It keeps no state: `Reset` and `Update` do
      nothing and, having no `modifies` clause, can change nothing. */
  class FixedCenterPointDeviationCalibrator {
    const sensorMax: int
    const driverMaxDeviation: int
    const outputMin: int
    const outputMax: int

    constructor (sensorMax: int, driverMaxDeviation: int, outputMin: int, outputMax: int)
      ensures this.sensorMax == sensorMax && this.driverMaxDeviation == driverMaxDeviation
      ensures this.outputMin == outputMin && this.outputMax == outputMax
    {
      this.sensorMax, this.driverMaxDeviation := sensorMax, driverMaxDeviation;
      this.outputMin, this.outputMax := outputMin, outputMax;
    }

    method Reset()
    {
    }

    method Update(input: int)
    {
    }

    function Calibrate(input: int): (r: int)
      requires outputMin != outputMax && driverMaxDeviation != 0
      ensures driverMaxDeviation > 0 && outputMin <= outputMax ==> outputMin <= r <= outputMax
      ensures var dev := ToSensorUnits(input, outputMin, outputMax, sensorMax) - TruncDiv(sensorMax, 2);
        driverMaxDeviation > 0 && dev >= driverMaxDeviation ==> r == outputMax
      ensures var dev := ToSensorUnits(input, outputMin, outputMax, sensorMax) - TruncDiv(sensorMax, 2);
        driverMaxDeviation > 0 && dev <= -driverMaxDeviation ==> r == outputMin
    {
      TruncHalf(sensorMax);
      DeviationCalibrate(TruncToInt(sensorMax as real / 2.0), input, outputMin, outputMax, sensorMax, driverMaxDeviation)
    }
  }

  /** A freshly constructed or reset `CenterPointDeviationCalibrator` calibrates
      exactly like the fixed variant with the same parameters, since the centre
      of `[sensorMax, 0]` is `sensorMax / 2`. */
  lemma FreshCenterMatchesFixed(c: CenterPointDeviationCalibrator, f: FixedCenterPointDeviationCalibrator, input: int)
    requires c.rangeMin == c.sensorMax && c.rangeMax == 0
    requires c.sensorMax == f.sensorMax && c.driverMaxDeviation == f.driverMaxDeviation
    requires c.outputMin == f.outputMin && c.outputMax == f.outputMax
    requires c.outputMin != c.outputMax && c.driverMaxDeviation != 0
    ensures c.Calibrate(input) == f.Calibrate(input)
  {
    assert (c.rangeMin + c.rangeMax) as real / 2.0 == f.sensorMax as real / 2.0;
  }

  /** From the reset state, a single sample inside the output range collapses
      the observed range to one point, where `calibrate` would divide by zero
      (`accurateMap` with `in_min == in_max`). */
  method SingleSampleCollapsesRange(c: MinMaxCalibrator, input: int)
    requires c.valueMin == c.outputMax && c.valueMax == c.outputMin
    requires c.outputMin <= input <= c.outputMax
    modifies c
    ensures c.valueMin == c.valueMax == input
  {
    c.Update(input);
  }

  /** Outputs `[0, 1000]` and samples 100, 500 and 900: the observed extremes
      land on the ends of the output range, and after a reset every input
      gives the midpoint again. */
  method MinMaxScenario()
  {
    var c := new MinMaxCalibrator(0, 1000);
    c.Update(100);
    c.Update(500);
    c.Update(900);
    assert c.valueMin == 100 && c.valueMax == 900;
    assert c.Calibrate(900) == 1000;
    assert c.Calibrate(100) == 0;
    c.Reset();
    assert c.Calibrate(900) == 500;
    assert c.Calibrate(100) == 500;
    assert c.Calibrate(-20) == 500;
  }
}
