/** The flag-vector encoding used by `inversion_apply` and
    `exclusion_apply`: the per-channel `uint8` flags are written out in
    reverse order as decimal strings, concatenated, and the result is read
    with `int(bit_string, 2)`. */
module FlagCodec {
  import opened Options
  import opened Bits
  import TcspcBitmask

  function DigitChar(d: nat): char
    requires d < 10
  {
    "0123456789"[d]
  }

  /** `str(b)`: the decimal digits of `b`. */
  function Decimal(b: nat): string
  {
    if b < 10 then [DigitChar(b)] else Decimal(b / 10) + [DigitChar(b % 10)]
  }

  /** The concatenation of `str(b)` over `flags[::-1]`. */
  function BitString(flags: seq<U8>): string
  {
    if flags == [] then "" else BitString(flags[1..]) + Decimal(flags[0])
  }

  /** The source's loop `for b in bits[::-1]: bit_string += str(b)`. */
  method BuildBitString(bits: seq<U8>) returns (bitString: string)
    ensures bitString == BitString(bits)
  {
    bitString := "";
    var n := |bits|;
    for k := 0 to n
      invariant bitString == BitString(bits[n - k..])
    {
      var b := bits[n - 1 - k];
      assert bits[n - 1 - k..][1..] == bits[n - k..];
      bitString := bitString + Decimal(b);
    }
    assert bits[n - n..] == bits;
  }

  predicate IsBinaryDigits(s: string)
  {
    forall i :: 0 <= i < |s| ==> s[i] == '0' || s[i] == '1'
  }

  /** The value of a string of binary digits, most significant first. */
  function BinaryValue(s: string): nat
  {
    if s == [] then 0
    else 2 * BinaryValue(s[..|s| - 1]) + (if s[|s| - 1] == '1' then 1 else 0)
  }

  /** `int(s, 2)` on a string of decimal digits: it raises (`None`) for the
      empty string and for any digit other than 0 and 1. */
  function ParseBinary(s: string): Option<nat>
  {
    if s != [] && IsBinaryDigits(s) then Some(BinaryValue(s)) else None
  }

  /** Every flag is 0 or 1. */
  predicate AllBinary(flags: seq<U8>)
  {
    forall i :: 0 <= i < |flags| ==> flags[i] <= 1
  }

  /** `sum(flags[i] * 2**i)`: flag 0 is the least significant bit. */
  function FlagValue(flags: seq<U8>): nat
  {
    if flags == [] then 0 else flags[0] + 2 * FlagValue(flags[1..])
  }

  /** The 1-indexed channels whose flag is 1, in ascending order: the list
      `calculate_tcspc_bitmask` would be given for the same channels. */
  function FlaggedChannels(flags: seq<U8>): seq<int>
  {
    if flags == [] then []
    else FlaggedChannels(flags[..|flags| - 1]) + (if flags[|flags| - 1] == 1 then [|flags|] else [])
  }

  /** `str(b)` of a 0/1 flag is the single digit of that flag. */
  lemma BinaryDigit(b: nat)
    requires b <= 1
    ensures Decimal(b) == [if b == 1 then '1' else '0']
  {
  }

  /** Appending one binary digit doubles the value and adds the digit. */
  lemma AppendDigit(x: string, d: char)
    requires IsBinaryDigits(x) && (d == '0' || d == '1')
    ensures IsBinaryDigits(x + [d])
    ensures BinaryValue(x + [d]) == 2 * BinaryValue(x) + (if d == '1' then 1 else 0)
  {
    assert (x + [d])[..|x|] == x;
  }

  /** For 0/1 flags of at least one channel, the string the source builds
      parses, and its value is `sum(flags[i] * 2**i)`. */
  lemma {:induction false} ParseFlags(flags: seq<U8>)
    requires AllBinary(flags)
    ensures IsBinaryDigits(BitString(flags))
    ensures |BitString(flags)| == |flags|
    ensures BinaryValue(BitString(flags)) == FlagValue(flags)
    ensures flags != [] ==> ParseBinary(BitString(flags)) == Some(FlagValue(flags))
  {
    if flags != [] {
      assert AllBinary(flags[1..]);
      ParseFlags(flags[1..]);
      BinaryDigit(flags[0]);
      AppendDigit(BitString(flags[1..]), if flags[0] == 1 then '1' else '0');
    }
  }

  /** Bit `k` of the value of 0/1 flags is flag `k`. */
  lemma {:induction false} FlagValueBits(flags: seq<U8>, k: nat)
    requires AllBinary(flags)
    ensures Bit(FlagValue(flags), k) <==> k < |flags| && flags[k] == 1
  {
    if flags == [] {
      ZeroBit(k);
    } else {
      assert AllBinary(flags[1..]);
      if k > 0 {
        assert FlagValue(flags) / 2 == FlagValue(flags[1..]);
        FlagValueBits(flags[1..], k - 1);
      }
    }
  }

  /** 0/1 flags of `n` channels encode to a value below `2^n`. */
  lemma FlagValueBound(flags: seq<U8>)
    requires AllBinary(flags)
    ensures FlagValue(flags) < Pow2(|flags|)
  {
    forall k: nat | k >= |flags| ensures !Bit(FlagValue(flags), k) {
      FlagValueBits(flags, k);
    }
    BitsBelow(FlagValue(flags), |flags|);
  }

  /** Channel `c` is listed iff it is in `[1, |flags|]` and its flag is 1. */
  lemma {:induction false} FlaggedChannelsMembers(flags: seq<U8>, c: int)
    ensures c in FlaggedChannels(flags) <==> 1 <= c <= |flags| && flags[c - 1] == 1
  {
    if flags != [] {
      var init := flags[..|flags| - 1];
      FlaggedChannelsMembers(init, c);
    }
  }

  /** For 0/1 flags the flag encoding agrees with `calculate_tcspc_bitmask`
      of the flagged channels: the two encodings are the same bit order. */
  lemma FlagValueIsChannelMask(flags: seq<U8>)
    requires AllBinary(flags)
    ensures TcspcBitmask.ChannelMask(FlaggedChannels(flags)) == Some(FlagValue(flags))
  {
    var cs := FlaggedChannels(flags);
    forall c | c in cs ensures c >= 1 {
      FlaggedChannelsMembers(flags, c);
    }
    TcspcBitmask.ChannelMaskDefined(cs);
    var m := TcspcBitmask.ChannelMask(cs).value;
    forall k: nat ensures Bit(m, k) == Bit(FlagValue(flags), k) {
      TcspcBitmask.ChannelMaskBits(cs, k);
      FlaggedChannelsMembers(flags, k + 1);
      FlagValueBits(flags, k);
    }
    BitsDetermine(m, FlagValue(flags));
  }

  /** The digit of a one-digit flag appears in the bit string. */
  lemma {:induction false} DigitInBitString(flags: seq<U8>, i: nat)
    requires i < |flags| && flags[i] < 10
    ensures exists j :: 0 <= j < |BitString(flags)| && BitString(flags)[j] == DigitChar(flags[i])
  {
    var rest := BitString(flags[1..]);
    if i == 0 {
      assert BitString(flags)[|rest|] == DigitChar(flags[0]);
    } else {
      DigitInBitString(flags[1..], i - 1);
      var j :| 0 <= j < |rest| && rest[j] == DigitChar(flags[i]);
      assert BitString(flags)[j] == rest[j];
    }
  }

  /** A flag of 2 to 9 makes `int(bit_string, 2)` raise. */
  lemma NonBinaryFlagRejected(flags: seq<U8>, i: nat)
    requires i < |flags| && 2 <= flags[i] <= 9
    ensures ParseBinary(BitString(flags)) == None
  {
    DigitInBitString(flags, i);
  }

  /** Concrete encodings: flag 0 is the least significant bit. */
  lemma FlagOrderExamples()
    ensures ParseBinary(BitString([1, 0, 0, 0])) == Some(1)
    ensures ParseBinary(BitString([0, 0, 0, 1])) == Some(8)
    ensures ParseBinary(BitString([1, 1, 0, 1])) == Some(11)
    ensures ParseBinary(BitString([])) == None
  {
    ParseFlags([1, 0, 0, 0]);
    ParseFlags([0, 0, 0, 1]);
    ParseFlags([1, 1, 0, 1]);
  }

  /** A stored flag of 2 makes the parse raise, while a stored 10 is read
      as the two binary digits "10". */
  lemma DecimalFlagExamples()
    ensures ParseBinary(BitString([2])) == None
    ensures ParseBinary(BitString([10])) == Some(2)
  {
    NonBinaryFlagRejected([2], 0);
    assert Decimal(10) == "10";
    assert BitString([10]) == "10";
    assert IsBinaryDigits("10");
    AppendDigit("1", '0');
    assert "1" + ['0'] == "10";
    AppendDigit("", '1');
    assert "" + ['1'] == "1";
  }
}
