/** The device's error/status word: the `UQD_ERROR_FLAG` table of the ten
    named conditions and `error_from_bit_set`, which spreads a status word
    into sixteen `uint8` slots. */
module ErrorFlags {
  import opened Options
  import opened Bits

  /** `UQD_ERROR_FLAG`: bit value to (name, description). The descriptions
      keep the whitespace that the source's backslash line continuations
      put inside the string literals. */
  const UqdErrorFlag: map<nat, (string, string)> := map[
    1 := ("DataOverflow",
          "An overflow in the 512 k values SRAM FIFO has been detected.         The time-tag generation rate is higher than the USB transmission rate."),
    2 := ("NegFifoOverflow", "Internal reason, should never occur"),
    4 := ("PosFifoOverflow", "Internal reason, should never occur"),
    8 := ("DoubleError", "One input had two pulses within the coincidence window."),
    16 := ("InputFifoOverflow",
           "More than 1024 successive tags were detected with a rate greater 100 MHz"),
    32 := ("10MHzHardError",
           "The 10 MHz input is not connected or connected to a wrong type of signal."),
    64 := ("10MHzSoftError", "The 10 MHz input is connected, but the frequency is not 10 MHz."),
    128 := ("OutFifoOverflow", "Internal error, should never occur"),
    256 := ("OutDoublePulse",
            "An output pulse was generated, while another pulse was still present         on the same output. The pulse length is too long for the given rate."),
    512 := ("OutTooLate",
            "The internal processing was too slow. This is because the output         event queue is too small for the given rate. Increase the value with         SetOutputEventQueue()")
  ]

  /** The table's keys are exactly the ten powers of two 1 .. 512. */
  lemma TableKeys()
    ensures UqdErrorFlag.Keys == {1, 2, 4, 8, 16, 32, 64, 128, 256, 512}
    ensures UqdErrorFlag.Keys == set i | 0 <= i < 10 :: Pow2(i)
    ensures forall i :: 0 <= i < 10 ==> Pow2(i) in UqdErrorFlag
  {
    assert UqdErrorFlag.Keys == {1, 2, 4, 8, 16, 32, 64, 128, 256, 512};
    Pow2Values();
    var powers := set i | 0 <= i < 10 :: Pow2(i);
    forall k | k in powers ensures k in UqdErrorFlag.Keys {
      var i :| 0 <= i < 10 && k == Pow2(i);
      assert i in {0, 1, 2, 3, 4, 5, 6, 7, 8, 9};
    }
    forall k | k in UqdErrorFlag.Keys ensures k in powers {
      if k == 1 { assert k == Pow2(0); }
      else if k == 2 { assert k == Pow2(1); }
      else if k == 4 { assert k == Pow2(2); }
      else if k == 8 { assert k == Pow2(3); }
      else if k == 16 { assert k == Pow2(4); }
      else if k == 32 { assert k == Pow2(5); }
      else if k == 64 { assert k == Pow2(6); }
      else if k == 128 { assert k == Pow2(7); }
      else if k == 256 { assert k == Pow2(8); }
      else { assert k == Pow2(9); }
    }
  }

  /** What `error_from_bit_set` promises of `slots` for status word
      `bitSet`: for bits 0-7, slot `15 - i` holds `2^i` if bit `i` is set
      and 0 otherwise; for bits 8-15, slot `15 - i` is 0 when bit `i` is
      clear (the `uint8` store of a larger power is left open). */
  ghost predicate Decodes(bitSet: nat, slots: seq<nat>)
  {
    && |slots| == 16
    && (forall j :: 8 <= j < 16 ==> slots[j] == if Bit(bitSet, 15 - j) then Pow2(15 - j) else 0)
    && (forall j :: 0 <= j < 8 ==> !Bit(bitSet, 15 - j) ==> slots[j] == 0)
  }

  /** `error_from_bit_set`. Each `bit_set >> i` is stored in a `uint32`
      variable, so a word outside `[0, 2^32)` raises `OverflowError`. */
  method ErrorFromBitSet(bitSet: int) returns (r: Option<seq<nat>>)
    ensures r.None? <==> bitSet < 0 || bitSet >= 0x1_0000_0000
    ensures r.Some? ==> Decodes(bitSet, r.value)
  {
    var bits := new U8[16](_ => 0);
    for i := 0 to 16
      invariant i > 0 ==> 0 <= bitSet < 0x1_0000_0000
      invariant forall j :: 0 <= j < 16 ==>
        bits[j] == if 15 - j < i && bitSet >= 0 && Bit(bitSet, 15 - j) then Pow2(15 - j) % 256 else 0
    {
      var x := Shr(bitSet, i);
      ShrBounds(bitSet, i);
      if x < 0 || x >= 0x1_0000_0000 {
        return None;
      }
      BitAsShift(bitSet, i);
      if x % 2 == 1 {
        bits[15 - i] := Pow2(i) % 256;
      }
    }
    r := Some(bits[..]);
    forall i | 0 <= i < 8 ensures Pow2(i) % 256 == Pow2(i) {
      Pow2Monotone(i, 7);
      Pow2Values();
    }
  }

  /** The names of the table entries found among the slots. */
  function ErrorNames(slots: seq<nat>): set<string>
  {
    set j | 0 <= j < |slots| && slots[j] in UqdErrorFlag :: UqdErrorFlag[slots[j]].0
  }

  /** For a status word of bits 0-7, slots 0-7 hold no table key. */
  lemma LowSlotUnnamed(bitSet: nat, slots: seq<nat>, j: nat)
    requires bitSet < 256 && Decodes(bitSet, slots) && j < 8
    ensures slots[j] !in UqdErrorFlag
  {
    BitsAbove(bitSet, 8, 15 - j);
  }

  /** Slot `15 - i` for a bit `i` of 0-7 holds the key `2^i` when the bit
      is set and no key otherwise. */
  lemma HighSlotKey(bitSet: nat, slots: seq<nat>, j: nat)
    requires Decodes(bitSet, slots) && 8 <= j < 16
    ensures slots[j] in UqdErrorFlag <==> Bit(bitSet, 15 - j)
    ensures Bit(bitSet, 15 - j) ==> slots[j] == Pow2(15 - j)
  {
    TableKeys();
  }

  /** The names of the conditions among bits 0-7 that are set in `bitSet`. */
  function SetConditionNames(bitSet: nat): set<string>
  {
    set i | 0 <= i < 8 && Bit(bitSet, i) && Pow2(i) in UqdErrorFlag :: UqdErrorFlag[Pow2(i)].0
  }

  /** For a status word of bits 0-7, looking the slots up in the table
      names exactly the conditions whose bits are set. */
  lemma DecodedNames(bitSet: nat, slots: seq<nat>)
    requires bitSet < 256 && Decodes(bitSet, slots)
    ensures ErrorNames(slots) == SetConditionNames(bitSet)
  {
    var named := SetConditionNames(bitSet);
    forall name | name in ErrorNames(slots) ensures name in named {
      var j :| 0 <= j < 16 && slots[j] in UqdErrorFlag && UqdErrorFlag[slots[j]].0 == name;
      assert j >= 8 by {
        if j < 8 { LowSlotUnnamed(bitSet, slots, j); }
      }
      HighSlotKey(bitSet, slots, j);
      assert 15 - j < 8 && Bit(bitSet, 15 - j) && Pow2(15 - j) in UqdErrorFlag;
    }
    forall name | name in named ensures name in ErrorNames(slots) {
      var i :| 0 <= i < 8 && Bit(bitSet, i) && Pow2(i) in UqdErrorFlag && UqdErrorFlag[Pow2(i)].0 == name;
      HighSlotKey(bitSet, slots, 15 - i);
      assert slots[15 - i] == Pow2(i);
    }
    assert ErrorNames(slots) == named;
  }

  /** Status word 9 decodes to DataOverflow and DoubleError; 0 to nothing. */
  lemma DecodeExamples(nine: seq<nat>, zero: seq<nat>)
    requires Decodes(9, nine) && Decodes(0, zero)
    ensures ErrorNames(nine) == {"DataOverflow", "DoubleError"}
    ensures ErrorNames(zero) == {}
  {
    DecodedNames(9, nine);
    DecodedNames(0, zero);
    Pow2Values();
    assert Bit(9, 0) && !Bit(9, 1) && !Bit(9, 2) && Bit(9, 3);
    forall i | 4 <= i < 8 ensures !Bit(9, i) { BitsAbove(9, 4, i); }
    forall i | 0 <= i < 8 ensures !Bit(0, i) { ZeroBit(i); }
  }
}
