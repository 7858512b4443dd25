/** The gesture detectors of `firmware/lucidgloves-firmware/Gesture.hpp`. Each
    holds one boolean, recomputed by `readInput` from the current flexion of
    the fingers it observes, and encodes it into a one-character slot.

    The fingers' `flexionValue()` readings and the `ANALOG_MAX` constant are
    defined outside this model and are parameters of `ReadInput`; the
    `EncodingType` character of each gesture is a constructor argument. C++
    subclasses are modelled by composition: each detector owns a `Gesture`. */
module Gestures {
  import opened Numerics

  /** `(index + middle + ring + pinky) / 4 > ANALOG_MAX / 2` in C++ integer
      arithmetic. */
  predicate GrabActive(index: int, middle: int, ring: int, pinky: int, analogMax: int)
  {
    TruncDiv(index + middle + ring + pinky, 4) > TruncDiv(analogMax, 2)
  }

  /** `index_finger > ANALOG_MAX / 2`. */
  predicate TriggerActive(indexFinger: int, analogMax: int)
  {
    indexFinger > TruncDiv(analogMax, 2)
  }

  /** `(thumb + index_finger) / 2 > ANALOG_MAX / 2` in C++ integer arithmetic. */
  predicate PinchActive(thumb: int, indexFinger: int, analogMax: int)
  {
    TruncDiv(thumb + indexFinger, 2) > TruncDiv(analogMax, 2)
  }

  /** Grab without division: active exactly when the four readings add up to
      at least four times one more than the threshold. */
  lemma GrabThreshold(index: int, middle: int, ring: int, pinky: int, analogMax: int)
    requires analogMax >= 0
    ensures GrabActive(index, middle, ring, pinky, analogMax)
        <==> index + middle + ring + pinky >= 4 * (analogMax / 2 + 1)
  {
    var sum := index + middle + ring + pinky;
    if sum < 0 {
      assert TruncDiv(sum, 4) <= 0;
    } else {
      assert TruncDiv(sum, 4) == sum / 4;
    }
  }

  /** The strict threshold: a truncated mean equal to `ANALOG_MAX / 2` is not a
      grab; a mean one unit above it is. */
  lemma GrabThresholdIsStrict(index: int, middle: int, ring: int, pinky: int, analogMax: int)
    requires analogMax >= 0
    ensures index + middle + ring + pinky == 4 * (analogMax / 2) ==> !GrabActive(index, middle, ring, pinky, analogMax)
    ensures index + middle + ring + pinky == 4 * (analogMax / 2 + 1) ==> GrabActive(index, middle, ring, pinky, analogMax)
  {
    GrabThreshold(index, middle, ring, pinky, analogMax);
  }

  /** Pinch without division: active exactly when thumb and index add up to at
      least twice one more than the threshold. */
  lemma PinchThreshold(thumb: int, indexFinger: int, analogMax: int)
    requires analogMax >= 0
    ensures PinchActive(thumb, indexFinger, analogMax) <==> thumb + indexFinger >= 2 * (analogMax / 2 + 1)
  {
    var sum := thumb + indexFinger;
    if sum < 0 {
      assert TruncDiv(sum, 2) <= 0;
    } else {
      assert TruncDiv(sum, 2) == sum / 2;
    }
  }

  /** Flexing any finger further never releases an active grab. */
  lemma GrabMonotone(index: int, middle: int, ring: int, pinky: int,
                                        index': int, middle': int, ring': int, pinky': int, analogMax: int)
    requires index <= index' && middle <= middle' && ring <= ring' && pinky <= pinky'
    requires GrabActive(index, middle, ring, pinky, analogMax)
    ensures GrabActive(index', middle', ring', pinky', analogMax)
  {
    TruncDivMonotone(index + middle + ring + pinky, index' + middle' + ring' + pinky', 4);
  }

  /** Flexing the thumb or the index further never releases an active pinch. */
  lemma PinchMonotone(thumb: int, indexFinger: int, thumb': int, indexFinger': int, analogMax: int)
    requires thumb <= thumb' && indexFinger <= indexFinger'
    requires PinchActive(thumb, indexFinger, analogMax)
    ensures PinchActive(thumb', indexFinger', analogMax)
  {
    TruncDivMonotone(thumb + indexFinger, thumb' + indexFinger', 2);
  }

  /** Grab does not care which finger is which: swapping neighbours (which
      generates every reordering of the four) leaves it unchanged. */
  lemma GrabSymmetric(index: int, middle: int, ring: int, pinky: int, analogMax: int)
    ensures GrabActive(index, middle, ring, pinky, analogMax) == GrabActive(middle, index, ring, pinky, analogMax)
    ensures GrabActive(index, middle, ring, pinky, analogMax) == GrabActive(index, ring, middle, pinky, analogMax)
    ensures GrabActive(index, middle, ring, pinky, analogMax) == GrabActive(index, middle, pinky, ring, analogMax)
  {
  }

  lemma PinchSymmetric(thumb: int, indexFinger: int, analogMax: int)
    ensures PinchActive(thumb, indexFinger, analogMax) == PinchActive(indexFinger, thumb, analogMax)
  {
  }

  function Min(a: int, b: int): int { if a < b then a else b }

  /** What `snprintf(buf, n, fmt, ...)` stores in `buf` (section 7.21.6.5 of
      ISO C11): the first `n - 1` characters of the formatted text, at most,
      followed by a null character; nothing at all when `n` is zero. Never
      more than `n` characters. */
  function SnprintfStored(n: nat, formatted: seq<char>): (stored: seq<char>)
    ensures |stored| <= n
    ensures n > 0 ==> |stored| == Min(n - 1, |formatted|) + 1 && stored[|stored| - 1] == '\0'
    ensures forall k :: 0 <= k < |stored| - 1 ==> stored[k] == formatted[k]
  {
    if n == 0 then [] else formatted[..Min(n - 1, |formatted|)] + ['\0']
  }

  /** A one-character slot holds only the terminator, whatever was formatted. */
  lemma OneByteSlotHoldsOnlyTerminator(c: char)
    ensures SnprintfStored(1, [c]) == ['\0']
  {
  }

  /** A two-character slot holds the character and then the terminator. */
  lemma TwoByteSlotHoldsCharacter(c: char)
    ensures SnprintfStored(2, [c]) == [c, '\0']
  {
  }

  /** `Gesture`: the state and encoding shared by every detector. */
  class Gesture {
    const encodingType: char
    var value: bool

    /** A new gesture is not pressed until its first `readInput`. */
    constructor (encodingType: char)
      ensures this.encodingType == encodingType && !IsPressed()
    {
      this.encodingType := encodingType;
      value := false;
    }

    function IsPressed(): bool
      reads this
    {
      value
    }

    /** The character `encode` formats with `"%c"`. */
    function Symbol(): char
      reads this
    {
      if value then encodingType else '\0'
    }

    /** The declared slot is one character, for every type and value. */
    function GetEncodedSize(): (size: nat)
      ensures size == 1
    {
      1
    }

    /** `encode` as written: `snprintf` into a slot of `GetEncodedSize()`
      characters. The slot is filled with what `snprintf` stores, so its
      only character is the terminator, pressed or not, and the rest of the
      buffer is untouched; the return value is the length of the formatted
      text, one. */
    method Encode(output: array<char>) returns (count: int)
      requires output.Length >= GetEncodedSize()
      modifies output
      ensures output[..GetEncodedSize()] == SnprintfStored(GetEncodedSize(), [Symbol()])
      ensures output[GetEncodedSize()..] == old(output[GetEncodedSize()..])
      ensures output[0] == '\0'
      ensures count == |[Symbol()]| == 1
    {
      var stored := SnprintfStored(GetEncodedSize(), [Symbol()]);
      OneByteSlotHoldsOnlyTerminator(Symbol());
      output[0] := stored[0];
      count := 1;
    }

    /** The encoding the slot-size comment describes, one character plus the
      terminator: the symbol of a pressed gesture reaches the buffer. */
    method EncodeWithTerminator(output: array<char>) returns (count: int)
      requires output.Length >= GetEncodedSize() + 1
      modifies output
      ensures output[..GetEncodedSize() + 1] == SnprintfStored(GetEncodedSize() + 1, [Symbol()])
      ensures output[GetEncodedSize() + 1..] == old(output[GetEncodedSize() + 1..])
      ensures value ==> output[0] == encodingType
      ensures output[1] == '\0'
      ensures count == 1
    {
      var stored := SnprintfStored(GetEncodedSize() + 1, [Symbol()]);
      TwoByteSlotHoldsCharacter(Symbol());
      output[0] := stored[0];
      output[1] := stored[1];
      count := 1;
    }
  }

  /** `GrabGesture`: pressed when the mean flexion of four fingers is past
      halfway. */
  class GrabGesture {
    const gesture: Gesture

    constructor (encodingType: char)
      ensures fresh(gesture) && gesture.encodingType == encodingType && !gesture.IsPressed()
    {
      gesture := new Gesture(encodingType);
    }

    /** Overwrites the gesture's state from the current readings alone. */
    method ReadInput(index: int, middle: int, ring: int, pinky: int, analogMax: int)
      modifies gesture
      ensures gesture.IsPressed() == GrabActive(index, middle, ring, pinky, analogMax)
    {
      gesture.value := TruncDiv(index + middle + ring + pinky, 4) > TruncDiv(analogMax, 2);
    }
  }

  /** `TriggerGesture`: pressed when the index finger is past halfway. */
  class TriggerGesture {
    const gesture: Gesture

    constructor (encodingType: char)
      ensures fresh(gesture) && gesture.encodingType == encodingType && !gesture.IsPressed()
    {
      gesture := new Gesture(encodingType);
    }

    method ReadInput(indexFinger: int, analogMax: int)
      modifies gesture
      ensures gesture.IsPressed() == TriggerActive(indexFinger, analogMax)
    {
      gesture.value := indexFinger > TruncDiv(analogMax, 2);
    }
  }

  /** `PinchGesture`: pressed when the mean flexion of thumb and index is past
      halfway. */
  class PinchGesture {
    const gesture: Gesture

    constructor (encodingType: char)
      ensures fresh(gesture) && gesture.encodingType == encodingType && !gesture.IsPressed()
    {
      gesture := new Gesture(encodingType);
    }

    method ReadInput(thumb: int, indexFinger: int, analogMax: int)
      modifies gesture
      ensures gesture.IsPressed() == PinchActive(thumb, indexFinger, analogMax)
    {
      gesture.value := TruncDiv(thumb + indexFinger, 2) > TruncDiv(analogMax, 2);
    }
  }

  /** A trigger with `ANALOG_MAX` at 4095: an index finger at about 60% of
      full flexion (2457) presses it, one at about 40% (1638) releases it.
      The encoding character is arbitrary here. */
  method TriggerScenario()
  {
    var trigger := new TriggerGesture('T');
    assert !trigger.gesture.IsPressed();
    trigger.ReadInput(2457, 4095);
    assert trigger.gesture.IsPressed();
    trigger.ReadInput(1638, 4095);
    assert !trigger.gesture.IsPressed();
  }
}
