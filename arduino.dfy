/** The two Arduino core helpers the calibrators call, by their documented
    definitions: the `constrain` macro and `long map(...)`, whose division is
    C++ integer division. */
module Arduino {
  import opened Numerics

  /** `constrain(amt, low, high)`: `low` below the range, `high` above it,
      `amt` itself inside it. */
  function Constrain(amt: int, low: int, high: int): (r: int)
    ensures low <= high ==> low <= r <= high
    ensures low <= amt <= high ==> r == amt
    ensures low <= high && amt <= low ==> r == low
    ensures low <= high && amt >= high ==> r == high
  {
    if amt < low then low else if amt > high then high else amt
  }

  lemma ConstrainMonotone(a: int, b: int, low: int, high: int)
    requires a <= b && low <= high
    ensures Constrain(a, low, high) <= Constrain(b, low, high)
  {
  }

  /** `map(x, in_min, in_max, out_min, out_max)`: the integer linear
      re-mapping of `[in_min, in_max]` onto `[out_min, out_max]`, with the
      product divided by truncation toward zero. Both ends map exactly, and a
      value inside the input range lands inside the output range. */
  function Map(x: int, inMin: int, inMax: int, outMin: int, outMax: int): (r: int)
    requires inMin != inMax
    ensures x == inMin ==> r == outMin
    ensures x == inMax ==> r == outMax
    ensures inMin < inMax && outMin <= outMax && inMin <= x <= inMax ==> outMin <= r <= outMax
  {
    var run := inMax - inMin;
    var rise := outMax - outMin;
    TruncDivExact(rise, run);
    assert x == inMax ==> (x - inMin) * rise == rise * run;
    if inMin < inMax && outMin <= outMax && inMin <= x <= inMax then
      MapStepWithin(x - inMin, run, rise);
      TruncDiv((x - inMin) * rise, run) + outMin
    else
      TruncDiv((x - inMin) * rise, run) + outMin
  }

  /** The core of `map` stays in `[0, rise]` for a delta in `[0, run]`. */
  lemma MapStepWithin(delta: int, run: int, rise: int)
    requires 0 <= delta <= run && run > 0 && rise >= 0
    ensures 0 <= TruncDiv(delta * rise, run) <= rise
  {
    MulMonotone(delta, run, rise);
    assert run * rise == rise * run;
    DivAtMost(delta * rise, run, rise);
  }

  /** `map` over an increasing input range onto a non-decreasing output range
      never reverses the order of its inputs. */
  lemma MapMonotone(x: int, y: int, inMin: int, inMax: int, outMin: int, outMax: int)
    requires inMin < inMax && outMin <= outMax && x <= y
    ensures Map(x, inMin, inMax, outMin, outMax) <= Map(y, inMin, inMax, outMin, outMax)
  {
    var rise := outMax - outMin;
    MulMonotone(x - inMin, y - inMin, rise);
    TruncDivMonotone((x - inMin) * rise, (y - inMin) * rise, inMax - inMin);
  }
}
