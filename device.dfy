/** The `UQDLogic16` configuration mirror: a device handle that keeps a
    software copy of the per-channel settings and forwards each setting to
    the vendor time-tagger library. The library is modelled by a `Driver`
    object whose ghost `log` records every command sent to it; the answers
    it gives (whether the device is open, its channel count) are
    parameters. */
module Device {
  import opened Options
  import opened Bits
  import opened FlagCodec
  import TcspcBitmask

  /** The largest value of a C `int`; a Python integer above it raises
      `OverflowError` when stored into a `cython.int`. */
  const IntMax: int := 0x7fff_ffff
  const IntMin: int := -0x8000_0000

  /** The commands the core sends to the vendor library. */
  datatype Command =
    | Create
    | Open(deviceId: int)
    | Calibrate
    | SetLedBrightness(percent: int)
    | SetInputThreshold(input: int, voltage: real)
    | SetInversionMask(mask: int)
    | SetFilterException(channel: int)
    | SetFilterMinCount(minCount: int)

  /** The exceptions the setters raise. */
  datatype Error =
    | InvalidDeviceId      // ValueError: device_id must be >= 1
    | DeviceInUse          // ResourceWarning
    | BrightnessOutOfRange // ValueError
    | ChannelOutOfRange    // ValueError
    | VoltageOutOfRange    // ValueError
    | MinCountOutOfRange   // ValueError (only in the corrected setter)
    | InvalidBitString     // ValueError from int(bit_string, 2)
    | IntOverflow          // OverflowError converting to a C int

  type Status = Outcome<Error>

  /** The vendor library, seen through the commands it has received. */
  class Driver {
    ghost var log: seq<Command>

    constructor ()
      ensures log == []
    {
      log := [];
    }
  }

  function Abs(v: real): real
  {
    if v < 0.0 then -v else v
  }

  /** The unsatisfiable guard of the `filter_min_count` setter. */
  predicate MinCountGuardAsWritten(count: int)
  {
    count < 1 && count > 10
  }

  /** The guard its error message describes. */
  predicate MinCountGuardIntended(count: int)
  {
    count < 1 || count > 10
  }

  class UQDLogic16 {
    const driver: Driver
    const deviceId: int
    /** `number_of_channels`, as the driver reported it when the device was opened. */
    const numberOfChannels: nat
    const inputThresholds: array<real>
    const inversion: array<U8>
    const inputDelay: array<real>
    const exclusion: array<U8>
    var ledBrightness: int
    var filterMinCount: int

    ghost predicate Valid()
      reads this
    {
      && inputThresholds.Length == numberOfChannels
      && inversion.Length == numberOfChannels
      && inputDelay.Length == numberOfChannels
      && exclusion.Length == numberOfChannels
      && inversion != exclusion
      && inputThresholds != inputDelay
    }

    /** The state `__init__` leaves after a successful open: every
        per-channel array all zero, of the reported channel count. The
        scalar fields start at a `cython.int`'s zero. */
    constructor (driver: Driver, deviceId: int, inputs: nat)
      ensures Valid()
      ensures this.driver == driver && this.deviceId == deviceId && numberOfChannels == inputs
      ensures fresh(inputThresholds) && fresh(inversion) && fresh(inputDelay) && fresh(exclusion)
      ensures inputThresholds[..] == seq(inputs, _ => 0.0)
      ensures inputDelay[..] == seq(inputs, _ => 0.0)
      ensures inversion[..] == seq(inputs, _ => 0)
      ensures exclusion[..] == seq(inputs, _ => 0)
      ensures ledBrightness == 0 && filterMinCount == 0
    {
      this.driver := driver;
      this.deviceId := deviceId;
      numberOfChannels := inputs;
      inputThresholds := new real[inputs](_ => 0.0);
      inversion := new U8[inputs](_ => 0);
      inputDelay := new real[inputs](_ => 0.0);
      exclusion := new U8[inputs](_ => 0);
      ledBrightness := 0;
      filterMinCount := 0;
    }

    /** The `led_brightness` setter. */
    method SetLedBrightness(percent: int) returns (r: Status)
      requires Valid()
      modifies this`ledBrightness, driver
      ensures Valid()
      ensures r == if percent < 0 || percent > 100 then Fail(BrightnessOutOfRange) else Pass
      ensures r.Pass? ==> ledBrightness == percent && driver.log == old(driver.log) + [Command.SetLedBrightness(percent)]
      ensures r.Fail? ==> ledBrightness == old(ledBrightness) && driver.log == old(driver.log)
    {
      if percent < 0 || percent > 100 {
        return Fail(BrightnessOutOfRange);
      }
      driver.log := driver.log + [Command.SetLedBrightness(percent)];
      ledBrightness := percent;
      return Pass;
    }

    /** The `input_threshold` setter: `channel` is 1-indexed, the bound on
        the voltage is inclusive, and the driver is given the channel as
        passed. */
    method SetInputThreshold(channel: int, voltage: real) returns (r: Status)
      requires Valid()
      modifies inputThresholds, driver
      ensures Valid()
      ensures r == if channel < 1 || channel > numberOfChannels then Fail(ChannelOutOfRange)
                   else if Abs(voltage) > 2.0 then Fail(VoltageOutOfRange)
                   else Pass
      ensures r.Pass? ==> inputThresholds[..] == old(inputThresholds[..])[channel - 1 := voltage]
      ensures r.Pass? ==> driver.log == old(driver.log) + [Command.SetInputThreshold(channel, voltage)]
      ensures r.Fail? ==> inputThresholds[..] == old(inputThresholds[..]) && driver.log == old(driver.log)
    {
      var n := numberOfChannels;
      if channel < 1 || channel > n {
        return Fail(ChannelOutOfRange);
      }
      if Abs(voltage) > 2.0 {
        return Fail(VoltageOutOfRange);
      }
      inputThresholds[channel - 1] := voltage;
      driver.log := driver.log + [Command.SetInputThreshold(channel, voltage)];
      return Pass;
    }

    /** The `inversion` setter: `channel` is 0-indexed and nothing is sent
        to the driver until `InversionApply`. */
    method SetInversion(channel: int, mask: U8) returns (r: Status)
      requires Valid()
      modifies inversion
      ensures Valid()
      ensures r == if channel < 0 || channel >= numberOfChannels then Fail(ChannelOutOfRange) else Pass
      ensures r.Pass? ==> inversion[..] == old(inversion[..])[channel := mask]
      ensures r.Fail? ==> inversion[..] == old(inversion[..])
      ensures driver.log == old(driver.log)
    {
      var n := numberOfChannels;
      if channel < 0 || channel >= n {
        return Fail(ChannelOutOfRange);
      }
      inversion[channel] := mask;
      return Pass;
    }

    /** The `exclusion` setter: `channel` is 0-indexed; the driver is told
        of the exception before the mirrored flag is stored. */
    method SetExclusion(channel: int, mask: U8) returns (r: Status)
      requires Valid()
      modifies exclusion, driver
      ensures Valid()
      ensures r == if channel < 0 || channel >= numberOfChannels then Fail(ChannelOutOfRange) else Pass
      ensures r.Pass? ==> exclusion[..] == old(exclusion[..])[channel := mask]
      ensures r.Pass? ==> driver.log == old(driver.log) + [SetFilterException(channel)]
      ensures r.Fail? ==> exclusion[..] == old(exclusion[..]) && driver.log == old(driver.log)
    {
      var n := numberOfChannels;
      if channel < 0 || channel >= n {
        return Fail(ChannelOutOfRange);
      }
      driver.log := driver.log + [SetFilterException(channel)];
      exclusion[channel] := mask;
      return Pass;
    }

    /** The encoding shared by `inversion_apply` and `exclusion_apply`:
        build the reversed bit string, parse it with `int(bit_string, 2)`,
        store the value in a `cython.int` and send it with
        `setInversionMask`. */
    method WriteFlagMask(flags: seq<U8>) returns (r: Status)
      modifies driver
      ensures ParseBinary(BitString(flags)).None? ==> r == Fail(InvalidBitString) && driver.log == old(driver.log)
      ensures ParseBinary(BitString(flags)).Some? && ParseBinary(BitString(flags)).value > IntMax ==>
                r == Fail(IntOverflow) && driver.log == old(driver.log)
      ensures ParseBinary(BitString(flags)).Some? && ParseBinary(BitString(flags)).value <= IntMax ==>
                r == Pass && driver.log == old(driver.log) + [SetInversionMask(ParseBinary(BitString(flags)).value)]
    {
      var bitString := BuildBitString(flags);
      var parsed := ParseBinary(bitString);
      if parsed.None? {
        return Fail(InvalidBitString);
      }
      var mask := parsed.value;
      if mask > IntMax {
        return Fail(IntOverflow);
      }
      driver.log := driver.log + [SetInversionMask(mask)];
      return Pass;
    }

    /** `inversion_apply`. For 0/1 flags on 1 to 31 channels it sends exactly
        one inversion mask, `sum(flags[i] * 2**i)`, which is also
        `calculate_tcspc_bitmask` of the inverted 1-indexed channels. */
    method InversionApply() returns (r: Status)
      requires Valid()
      modifies driver
      ensures Valid()
      ensures ParseBinary(BitString(inversion[..])).None? ==> r == Fail(InvalidBitString) && driver.log == old(driver.log)
      ensures ParseBinary(BitString(inversion[..])).Some? && ParseBinary(BitString(inversion[..])).value > IntMax ==>
                r == Fail(IntOverflow) && driver.log == old(driver.log)
      ensures r.Pass? <==> ParseBinary(BitString(inversion[..])).Some? && ParseBinary(BitString(inversion[..])).value <= IntMax
      ensures r.Pass? ==> driver.log == old(driver.log) + [SetInversionMask(ParseBinary(BitString(inversion[..])).value)]
      ensures r.Fail? ==> driver.log == old(driver.log)
      ensures AllBinary(inversion[..]) && 0 < numberOfChannels <= 31 ==>
                r == Pass
                && driver.log == old(driver.log) + [SetInversionMask(FlagValue(inversion[..]))]
                && TcspcBitmask.ChannelMask(FlaggedChannels(inversion[..])) == Some(FlagValue(inversion[..]))
    {
      var bits := inversion[..];
      if AllBinary(bits) && 0 < |bits| <= 31 {
        BinaryFlagsFit(bits);
        FlagValueIsChannelMask(bits);
      }
      r := WriteFlagMask(bits);
    }

    /** `exclusion_apply`. A flag sum of 0 or of the channel count sends
        mask 0; any other vector is encoded as `inversion_apply` encodes,
        and it too is sent with `setInversionMask`. */
    method ExclusionApply() returns (r: Status)
      requires Valid()
      modifies driver
      ensures Valid()
      ensures ByteSum(exclusion[..]) == 0 || ByteSum(exclusion[..]) == numberOfChannels ==>
                r == Pass && driver.log == old(driver.log) + [SetInversionMask(0)]
      ensures ByteSum(exclusion[..]) != 0 && ByteSum(exclusion[..]) != numberOfChannels ==>
                (r.Pass? <==> ParseBinary(BitString(exclusion[..])).Some? && ParseBinary(BitString(exclusion[..])).value <= IntMax)
                && (r.Pass? ==> driver.log == old(driver.log) + [SetInversionMask(ParseBinary(BitString(exclusion[..])).value)])
                && (r.Fail? ==> driver.log == old(driver.log))
      ensures ByteSum(exclusion[..]) != 0 && ByteSum(exclusion[..]) != numberOfChannels ==>
                ParseBinary(BitString(exclusion[..])).None? ==> r == Fail(InvalidBitString)
      ensures ByteSum(exclusion[..]) != 0 && ByteSum(exclusion[..]) != numberOfChannels ==>
                ParseBinary(BitString(exclusion[..])).Some? && ParseBinary(BitString(exclusion[..])).value > IntMax ==>
                r == Fail(IntOverflow)
      ensures AllBinary(exclusion[..]) && numberOfChannels <= 31 ==>
                r == Pass
                && driver.log == old(driver.log) + [SetInversionMask(ExclusionMask(exclusion[..]))]
    {
      var bits := exclusion[..];
      var total := ByteSum(bits);
      if AllBinary(bits) && |bits| <= 31 {
        BinarySumCounts(bits);
      }
      if total == 0 {
        driver.log := driver.log + [SetInversionMask(0)];
        return Pass;
      }
      if total == numberOfChannels {
        driver.log := driver.log + [SetInversionMask(0)];
        return Pass;
      }
      if AllBinary(bits) && |bits| <= 31 {
        BinaryFlagsFit(bits);
      }
      r := WriteFlagMask(bits);
    }

    /** The `filter_min_count` setter as written: its guard can never be
        true (`MinCountGuardNeverFires`), so every count that fits a C
        `int` is stored and sent, 0 and 11 included. */
    method SetFilterMinCount(count: int) returns (r: Status)
      requires Valid()
      modifies this`filterMinCount, driver
      ensures Valid()
      ensures r == if count < IntMin || count > IntMax then Fail(IntOverflow) else Pass
      ensures r.Pass? ==> filterMinCount == count && driver.log == old(driver.log) + [Command.SetFilterMinCount(count)]
      ensures r.Fail? ==> filterMinCount == old(filterMinCount) && driver.log == old(driver.log)
    {
      MinCountGuardNeverFires(count);
      if MinCountGuardAsWritten(count) {
        return Fail(MinCountOutOfRange);
      }
      if count < IntMin || count > IntMax {
        return Fail(IntOverflow);
      }
      filterMinCount := count;
      driver.log := driver.log + [Command.SetFilterMinCount(count)];
      return Pass;
    }

    /** The `filter_min_count` setter with the guard its error message
        describes: counts outside `[1, 10]` are rejected before anything
        changes. */
    method SetFilterMinCountChecked(count: int) returns (r: Status)
      requires Valid()
      modifies this`filterMinCount, driver
      ensures Valid()
      ensures r == if count < 1 || count > 10 then Fail(MinCountOutOfRange) else Pass
      ensures r.Pass? ==> filterMinCount == count && driver.log == old(driver.log) + [Command.SetFilterMinCount(count)]
      ensures r.Fail? ==> filterMinCount == old(filterMinCount) && driver.log == old(driver.log)
    {
      if MinCountGuardIntended(count) {
        return Fail(MinCountOutOfRange);
      }
      filterMinCount := count;
      driver.log := driver.log + [Command.SetFilterMinCount(count)];
      return Pass;
    }
  }

  /** `UQDLogic16.__init__`: reject a device id below 1 before any driver
      call, create the library handle, refuse a device the driver reports
      as open, fail with `OverflowError` when the id does not fit the
      `cython.int` field it is stored in, then open it, mirror its
      `inputs` channels and calibrate on request. `inUse` and `inputs` are the driver's answers to `isOpen`
      and `getNoInputs`. */
  method Init(driver: Driver, deviceId: int, calibrate: bool, inUse: bool, inputs: nat)
    returns (r: Result<UQDLogic16, Error>)
    modifies driver
    ensures deviceId < 1 ==> r == Err(InvalidDeviceId) && driver.log == old(driver.log)
    ensures deviceId >= 1 && inUse ==> r == Err(DeviceInUse) && driver.log == old(driver.log) + [Create]
    ensures deviceId > IntMax && !inUse ==> r == Err(IntOverflow) && driver.log == old(driver.log) + [Create]
    ensures 1 <= deviceId <= IntMax && !inUse ==>
              && r.Ok?
              && fresh(r.value)
              && r.value.Valid()
              && r.value.driver == driver
              && r.value.deviceId == deviceId
              && r.value.numberOfChannels == inputs
              && fresh(r.value.inputThresholds) && fresh(r.value.inversion)
              && fresh(r.value.inputDelay) && fresh(r.value.exclusion)
              && r.value.ledBrightness == 0 && r.value.filterMinCount == 0
              && r.value.inputThresholds[..] == seq(inputs, _ => 0.0)
              && r.value.inputDelay[..] == seq(inputs, _ => 0.0)
              && r.value.inversion[..] == seq(inputs, _ => 0)
              && r.value.exclusion[..] == seq(inputs, _ => 0)
              && driver.log == old(driver.log) + [Create, Open(deviceId)] + (if calibrate then [Calibrate] else [])
  {
    if deviceId < 1 {
      return Err(InvalidDeviceId);
    }
    driver.log := driver.log + [Create];
    if inUse {
      return Err(DeviceInUse);
    }
    if deviceId > IntMax {
      return Err(IntOverflow);
    }
    driver.log := driver.log + [Open(deviceId)];
    var device := new UQDLogic16(driver, deviceId, inputs);
    if calibrate {
      driver.log := driver.log + [Calibrate];
    }
    return Ok(device);
  }

  /** Clients of the model: the boundary cases a caller can rely on for
      an open 16-channel device. */
  method ThresholdScenario()
  {
    var driver := new Driver();
    var handle := Init(driver, 0, false, false, 16);
    assert handle == Err(InvalidDeviceId) && driver.log == [];
    handle := Init(driver, 1, false, false, 16);
    var uqd := handle.value;
    var r := uqd.SetInputThreshold(0, 0.1);
    assert r == Fail(ChannelOutOfRange);
    r := uqd.SetInputThreshold(17, 0.1);
    assert r == Fail(ChannelOutOfRange);
    r := uqd.SetInputThreshold(1, 2.01);
    assert r == Fail(VoltageOutOfRange);
    r := uqd.SetInputThreshold(1, 2.0);
    assert r == Pass && uqd.inputThresholds[0] == 2.0;
    r := uqd.SetInputThreshold(16, -2.0);
    assert r == Pass && uqd.inputThresholds[15] == -2.0 && uqd.inputThresholds[0] == 2.0;
  }

  method FilterScenario()
  {
    var driver := new Driver();
    var handle := Init(driver, 1, false, false, 16);
    var uqd := handle.value;
    var r := uqd.SetLedBrightness(101);
    assert r.Fail? && uqd.ledBrightness == 0;
    r := uqd.SetFilterMinCount(0);
    assert r == Pass && uqd.filterMinCount == 0;
    r := uqd.SetFilterMinCount(11);
    assert r == Pass && uqd.filterMinCount == 11;
    r := uqd.SetFilterMinCountChecked(0);
    assert r.Fail? && uqd.filterMinCount == 11;
    r := uqd.SetFilterMinCountChecked(10);
    assert r == Pass && uqd.filterMinCount == 10;
  }

  method ExclusionScenario()
  {
    var driver := new Driver();
    var handle := Init(driver, 1, false, false, 16);
    var uqd := handle.value;
    var before := driver.log;
    var r := uqd.ExclusionApply();
    assert driver.log == before + [SetInversionMask(0)];
  }

  /** The exact sum of the flags. */
  function FlagSum(flags: seq<U8>): nat
  {
    if flags == [] then 0 else FlagSum(flags[..|flags| - 1]) + flags[|flags| - 1]
  }

  /** Python's builtin `sum` over a `uint8` array, with the accumulator in
      the array's `uint8` type (NumPy 2 promotion): the exact sum modulo
      256, and the exact sum itself while it stays below 256. */
  function ByteSum(flags: seq<U8>): (r: U8)
    ensures r == FlagSum(flags) % 256
    ensures FlagSum(flags) < 256 ==> r == FlagSum(flags)
  {
    if flags == [] then 0 else (ByteSum(flags[..|flags| - 1]) + flags[|flags| - 1]) % 256
  }

  /** The mask `exclusion_apply` sends for 0/1 flags: 0 when no channel or
      every channel is excluded, the flag encoding otherwise. */
  function ExclusionMask(flags: seq<U8>): nat
  {
    if forall i :: 0 <= i < |flags| ==> flags[i] == 0 then 0
    else if forall i :: 0 <= i < |flags| ==> flags[i] == 1 then 0
    else FlagValue(flags)
  }

  /** 0/1 flags on 1 to 31 channels parse, and their value fits a C `int`. */
  lemma BinaryFlagsFit(flags: seq<U8>)
    requires AllBinary(flags) && 0 < |flags| <= 31
    ensures ParseBinary(BitString(flags)) == Some(FlagValue(flags))
    ensures FlagValue(flags) <= IntMax
  {
    ParseFlags(flags);
    FlagValueBound(flags);
    Pow2Monotone(|flags|, 31);
    Pow2Is(31);
  }

  lemma Pow2Is(k: nat)
    requires k == 31
    ensures Pow2(k) == IntMax + 1
  {
    Pow2Values();
    Pow2Add(9, 9);
    Pow2Add(18, 9);
    Pow2Add(27, 4);
  }

  /** The byte sum of 0/1 flags on fewer than 256 channels is the number
      of ones, and it reaches 0 or the length only at the extremes. */
  lemma {:induction false} BinarySumCounts(flags: seq<U8>)
    requires AllBinary(flags) && |flags| < 256
    ensures ByteSum(flags) <= |flags|
    ensures ByteSum(flags) == 0 <==> forall i :: 0 <= i < |flags| ==> flags[i] == 0
    ensures ByteSum(flags) == |flags| <==> forall i :: 0 <= i < |flags| ==> flags[i] == 1
  {
    if flags != [] {
      var init := flags[..|flags| - 1];
      assert AllBinary(init);
      BinarySumCounts(init);
    }
  }

  /** The guard of the `filter_min_count` setter never fires. */
  lemma MinCountGuardNeverFires(count: int)
    ensures !MinCountGuardAsWritten(count)
  {
  }

  /** The counts that reveal it: 0 and 11 pass the guard as written but
      fail the intended one. */
  lemma MinCountGuardCounterexample()
    ensures !MinCountGuardAsWritten(0) && MinCountGuardIntended(0)
    ensures !MinCountGuardAsWritten(11) && MinCountGuardIntended(11)
  {
  }

  /** The intended guard lets through exactly the counts in `[1, 10]`. */
  lemma MinCountGuardIntendedExact(count: int)
    ensures !MinCountGuardIntended(count) <==> 1 <= count <= 10
  {
  }
}
