/** `calculate_tcspc_bitmask`: a list of 1-indexed channels becomes an
    integer with bit `channel - 1` set for every listed channel. */
module TcspcBitmask {
  import opened Options
  import opened Bits

  /** The mask of `channels`, folded left to right as the source's loop
      does; `None` when some channel is below 1, where Python's
      `1 << (channel - 1)` raises for a negative shift count. */
  function ChannelMask(channels: seq<int>): Option<nat>
  {
    if channels == [] then Some(0)
    else
      var c := channels[|channels| - 1];
      match ChannelMask(channels[..|channels| - 1])
      case None => None
      case Some(m) => if c < 1 then None else Some(Or(m, Pow2(c - 1)))
  }

  /** Every channel in `channels` is a valid shift source (at least 1). */
  ghost predicate AllPositive(channels: seq<int>)
  {
    forall c :: c in channels ==> c >= 1
  }

  /** The source's loop: `bitmask |= 1 << (channel - 1)` for each channel. */
  method CalculateTcspcBitmask(inputChannels: seq<int>) returns (r: Option<nat>)
    ensures r == ChannelMask(inputChannels)
    ensures r.Some? <==> AllPositive(inputChannels)
    ensures r.Some? ==> forall k: nat :: Bit(r.value, k) <==> k + 1 in inputChannels
  {
    var bitmask: nat := 0;
    for i := 0 to |inputChannels|
      invariant ChannelMask(inputChannels[..i]) == Some(bitmask)
    {
      var channel := inputChannels[i];
      assert inputChannels[..i + 1][..i] == inputChannels[..i];
      if channel < 1 {
        NoneExtends(inputChannels, i + 1);
        ChannelMaskDefined(inputChannels);
        return None;
      }
      bitmask := Or(bitmask, Pow2(channel - 1));
    }
    assert inputChannels[..|inputChannels|] == inputChannels;
    r := Some(bitmask);
    ChannelMaskDefined(inputChannels);
    forall k: nat ensures Bit(r.value, k) <==> k + 1 in inputChannels {
      ChannelMaskBits(inputChannels, k);
    }
  }

  /** Once a prefix has failed, the whole list fails: the exception
      ends the loop. */
  lemma {:induction false} NoneExtends(channels: seq<int>, j: nat)
    requires j <= |channels|
    requires ChannelMask(channels[..j]) == None
    ensures ChannelMask(channels) == None
    decreases |channels| - j
  {
    if j < |channels| {
      assert channels[..j + 1][..j] == channels[..j];
      NoneExtends(channels, j + 1);
    } else {
      assert channels[..j] == channels;
    }
  }

  /** The mask is defined exactly when every channel is at least 1. */
  lemma {:induction false} ChannelMaskDefined(channels: seq<int>)
    ensures ChannelMask(channels).Some? <==> AllPositive(channels)
  {
    if channels != [] {
      var init := channels[..|channels| - 1];
      var last := channels[|channels| - 1];
      assert channels == init + [last];
      assert last in channels;
      assert forall c :: c in channels <==> c in init || c == last;
      ChannelMaskDefined(init);
    }
  }

  /** Bit `k` of the mask is set iff channel `k + 1` is in the list. */
  lemma {:induction false} ChannelMaskBits(channels: seq<int>, k: nat)
    requires ChannelMask(channels).Some?
    ensures Bit(ChannelMask(channels).value, k) <==> k + 1 in channels
  {
    if channels == [] {
      ZeroBit(k);
    } else {
      var init, c := channels[..|channels| - 1], channels[|channels| - 1];
      assert channels == init + [c];
      ChannelMaskBits(init, k);
      OrBit(ChannelMask(init).value, Pow2(c - 1), k);
      Pow2Bit(c - 1, k);
    }
  }

  /** The empty list gives 0. */
  lemma EmptyMask()
    ensures ChannelMask([]) == Some(0)
  {
  }

  /** Appending channel `c` turns mask `m` into `m | (1 << (c - 1))`. */
  lemma AppendChannel(channels: seq<int>, c: int)
    requires ChannelMask(channels).Some? && c >= 1
    ensures ChannelMask(channels + [c]) == Some(Or(ChannelMask(channels).value, Pow2(c - 1)))
  {
    assert (channels + [c])[..|channels|] == channels;
  }

  /** Two lists holding the same channels give the same mask, whatever
      their order and however often a channel repeats. */
  lemma SameChannelsSameMask(a: seq<int>, b: seq<int>)
    requires forall c :: c in a <==> c in b
    ensures ChannelMask(a) == ChannelMask(b)
  {
    ChannelMaskDefined(a);
    ChannelMaskDefined(b);
    if ChannelMask(a).Some? {
      forall k: nat ensures Bit(ChannelMask(a).value, k) == Bit(ChannelMask(b).value, k) {
        ChannelMaskBits(a, k);
        ChannelMaskBits(b, k);
      }
      BitsDetermine(ChannelMask(a).value, ChannelMask(b).value);
    }
  }

  /** The mask does not depend on the order of the channels. */
  lemma PermutedChannels(a: seq<int>, b: seq<int>)
    requires multiset(a) == multiset(b)
    ensures ChannelMask(a) == ChannelMask(b)
  {
    forall c ensures c in a <==> c in b {
      assert c in a <==> c in multiset(a);
      assert c in b <==> c in multiset(b);
    }
    SameChannelsSameMask(a, b);
  }

  /** Listing a channel again does not change the mask. */
  lemma RepeatedChannel(channels: seq<int>, c: int)
    requires c in channels
    ensures ChannelMask(channels + [c]) == ChannelMask(channels)
  {
    SameChannelsSameMask(channels + [c], channels);
  }

  /** For channels all in `[1, n]` the mask is defined and below `2^n`. */
  lemma MaskBound(channels: seq<int>, n: nat)
    requires forall c :: c in channels ==> 1 <= c <= n
    ensures ChannelMask(channels).Some?
    ensures ChannelMask(channels).value < Pow2(n)
  {
    ChannelMaskDefined(channels);
    forall k: nat | k >= n ensures !Bit(ChannelMask(channels).value, k) {
      ChannelMaskBits(channels, k);
    }
    BitsBelow(ChannelMask(channels).value, n);
  }

  /** The values asserted by the source's test script. */
  lemma AssertedExamples()
    ensures ChannelMask([1]) == Some(1)
    ensures ChannelMask([2]) == Some(2)
    ensures ChannelMask([3]) == Some(4)
    ensures ChannelMask([4]) == Some(8)
    ensures ChannelMask([1, 2]) == Some(3)
    ensures ChannelMask([1, 2, 3]) == Some(7)
  {
    assert [1, 2][..1] == [1];
    assert [1, 2, 3][..2] == [1, 2];
  }
}
