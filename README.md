# logicallyUQD configuration core, modelled in Dafny

logicallyUQD drives a 16-channel USB time tagger (TCSPC device) through a
vendor library. This project models the part of it that holds its own
logic:

- `calculate_tcspc_bitmask` (module `TcspcBitmask`). It turns a list of
  1-indexed channels into an integer with bit `channel - 1` set. A method
  with a loop invariant is proved equal to a recursive fold. Lemmas cover
  bits, order, duplicates, bounds and the asserted values.
- The flag-vector encoding of `inversion_apply` / `exclusion_apply`
  (module `FlagCodec`). The `uint8` flags are reversed, each is turned
  into its decimal string, and the concatenation is parsed with
  `int(bit_string, 2)`. For 0/1 flags this is `sum(flags[i] * 2**i)`,
  the same number `calculate_tcspc_bitmask` gives for the flagged channels.
- The `UQD_ERROR_FLAG` table and `error_from_bit_set` (module `ErrorFlags`).
- The `UQDLogic16` class (module `Device`). It has mirrored per-channel
  arrays and scalar fields. Its setters range-check, update a slot and
  send a command. The vendor library is a `Driver` object whose ghost
  `log` records the commands sent to it. Its answers to queries
  (`isOpen`, `getNoInputs`) are parameters of `Device.Init`.
- Module `Bits` holds Python's `1 << k`, `(m >> k) & 1` and `|` on
  non-negative integers.

The model keeps the code's own conventions and quirks, including where they differ from what its names and messages suggest:

- The flag encoding puts flag 0 in the least significant bit: flags
  `[1,0,0,0]` give 1, not 8 (`FlagCodec.FlagOrderExamples`).
- `input_threshold` passes the 1-indexed channel to the driver
  unconverted.
- `inversion` and `exclusion` are 0-indexed.
- The `filter_min_count` guard never fires, so the setter accepts every
  count that fits a `cython.int` (see Findings).
- `exclusion_apply` sends its mask with `setInversionMask`.
- The 10 MHz conditions are named `10MHzHardError` and `10MHzSoftError`.
- `error_from_bit_set` returns sixteen `uint8` slots, not a set of names.
  `ErrorFlags.ErrorNames` does the table lookup that turns slots into names.

Python exceptions are modelled as error values: `Option.None`,
`Result.Err` and `Outcome.Fail`. Besides the explicit `raise` statements, the model also keeps them
when they come from the language:

- a negative shift count;
- `int('', 2)`, or a digit other than 0 or 1;
- a value that does not fit a `cython.int` or `uint32_t`.

## Model

| member | source | states |
|---|---|---|
| `Bits.OrBit` | tests/bitmask.py:19 | bit k of Python's `a` or-ed with `b` is set iff it is set in a or in b |
| `Bits.Pow2Bit` | tests/bitmask.py:19 | `1 << i` has exactly bit i set |
| `Bits.BitAsShift` | src/logicallyUQD/_lib.py:59-60 | `Bit(m, k)` is `(m >> k) & 1`, and `m >> k` of a natural is a natural |
| `Bits.ShrBounds` | src/logicallyUQD/_lib.py:59 | `m >> k` stays in `[0, m]` for m >= 0 and stays negative for m < 0 |
| `TcspcBitmask.CalculateTcspcBitmask` | tests/bitmask.py:4-21 | the loop computes the fold `ChannelMask`. The mask exists iff every channel is >= 1, and bit k is set iff channel k+1 is listed |
| `TcspcBitmask.NoneExtends` | tests/bitmask.py:16-19 | once a prefix of the list raises, the whole call raises |
| `TcspcBitmask.ChannelMaskDefined` | tests/bitmask.py:16-19 | the mask is defined iff no channel is below 1 (a negative shift raises) |
| `TcspcBitmask.ChannelMaskBits` | tests/bitmask.py:14-21 | bit k of the mask is set iff channel k+1 is in the list |
| `TcspcBitmask.EmptyMask` | tests/bitmask.py:14-21 | the empty list gives 0 |
| `TcspcBitmask.AppendChannel` | tests/bitmask.py:19 | appending channel c turns mask m into m or-ed with `2^(c-1)` |
| `TcspcBitmask.SameChannelsSameMask` | tests/bitmask.py:16-19 | lists with the same channels give the same mask |
| `TcspcBitmask.PermutedChannels` | tests/bitmask.py:16-19 | reordering the list does not change the mask |
| `TcspcBitmask.RepeatedChannel` | tests/bitmask.py:16-19 | listing a channel again does not change the mask |
| `TcspcBitmask.MaskBound` | tests/bitmask.py:16-19 | channels all in [1, N] give a defined mask below 2^N |
| `TcspcBitmask.AssertedExamples` | tests/bitmask.py:26-43 | [1]→1, [2]→2, [3]→4, [4]→8, [1,2]→3, [1,2,3]→7 |
| `FlagCodec.BuildBitString` | src/logicallyUQD/_lib.py:276-278 | the loop over `bits[::-1]` builds the concatenation of `str(b)` from the last flag to the first |
| `FlagCodec.ParseFlags` | src/logicallyUQD/_lib.py:276-279 | for 0/1 flags the bit string has one binary digit per flag, and `int(s, 2)` of it is `sum(flags[i] * 2**i)` |
| `FlagCodec.FlagValueBits` | src/logicallyUQD/_lib.py:276-279 | bit k of the encoded value is flag k (flag 0 is the least significant bit) |
| `FlagCodec.FlagValueBound` | src/logicallyUQD/_lib.py:276-279 | 0/1 flags of n channels encode below 2^n |
| `FlagCodec.FlaggedChannelsMembers` | src/logicallyUQD/_lib.py:264-270 | 1-indexed channel c is flagged iff c is in [1, n] and flag c-1 is 1 |
| `FlagCodec.FlagValueIsChannelMask` | src/logicallyUQD/_lib.py:273-280 | the flag encoding equals `calculate_tcspc_bitmask` of the flagged 1-indexed channels |
| `FlagCodec.NonBinaryFlagRejected` | src/logicallyUQD/_lib.py:277-279 | a stored flag of 2 to 9 makes `int(bit_string, 2)` raise |
| `FlagCodec.FlagOrderExamples` | src/logicallyUQD/_lib.py:276-279 | [1,0,0,0]→1, [0,0,0,1]→8, [1,1,0,1]→11, and the empty vector raises |
| `FlagCodec.DecimalFlagExamples` | src/logicallyUQD/_lib.py:277-279 | a stored 2 raises, and a stored 10 reads as the digits "10", giving 2 |
| `ErrorFlags.TableKeys` | src/logicallyUQD/_lib.py:14-50 | the keys of `UQD_ERROR_FLAG` are exactly the ten powers 1..512 |
| `ErrorFlags.ErrorFromBitSet` | src/logicallyUQD/_lib.py:53-62 | a word outside [0, 2^32) raises; otherwise 16 slots where, for bit i of 0-7, slot 15-i holds 2^i if the bit is set, else 0 |
| `ErrorFlags.LowSlotUnnamed` | src/logicallyUQD/_lib.py:14-62 | for a word below 256, slots 0-7 hold no table key |
| `ErrorFlags.HighSlotKey` | src/logicallyUQD/_lib.py:14-62 | slot 15-i holds the table key 2^i iff bit i is set |
| `ErrorFlags.DecodedNames` | src/logicallyUQD/_lib.py:14-62 | for a word below 256, the slots looked up in the table name exactly the conditions whose bits are set |
| `ErrorFlags.DecodeExamples` | src/logicallyUQD/_lib.py:14-62 | word 9 names DataOverflow and DoubleError; word 0 names nothing |
| `Device.Init` | src/logicallyUQD/_lib.py:103-127 | device_id < 1 fails with no driver call. A device in use fails after `Create` only. A device_id above 2^31-1 fails with OverflowError after `Create` only, when it is stored in the `cython.int` field. Otherwise it sends Create, Open(id) and, on request, Calibrate, and the four arrays are all-zero and of the reported length |
| `Device.UQDLogic16.constructor` | src/logicallyUQD/_lib.py:116-122 | the mirrored arrays start all-zero with `number_of_channels` entries |
| `Device.UQDLogic16.SetLedBrightness` | src/logicallyUQD/_lib.py:157-171 | percent outside [0, 100] fails with no write and no change. Otherwise exactly `SetLedBrightness(percent)` is sent and stored |
| `Device.UQDLogic16.SetInputThreshold` | src/logicallyUQD/_lib.py:219-243 | channel < 1, channel > n or abs(voltage) > 2 fails with no write (±2 is accepted). Otherwise only slot channel-1 changes, and the driver gets the 1-indexed channel |
| `Device.UQDLogic16.SetInversion` | src/logicallyUQD/_lib.py:255-270 | 0-indexed. A channel outside [0, n) fails. Otherwise only slot `channel` changes. Never writes to the driver |
| `Device.UQDLogic16.WriteFlagMask` | src/logicallyUQD/_lib.py:276-280 | an unparsable bit string or a value above the C int range fails with no write. Otherwise exactly one `SetInversionMask` of the parsed value is sent |
| `Device.UQDLogic16.InversionApply` | src/logicallyUQD/_lib.py:272-280 | sends one `SetInversionMask` of the parsed reversed flags or fails with no write: InvalidBitString when the parse raises, IntOverflow when the value exceeds the C int range. For 0/1 flags on 1-31 channels it sends `sum(flags[i]*2**i)`, which also equals `calculate_tcspc_bitmask` of the inverted channels |
| `Device.UQDLogic16.SetExclusion` | src/logicallyUQD/_lib.py:417-425 | 0-indexed. A channel outside [0, n) fails with no write. Otherwise it sends `SetFilterException(channel)` and only slot `channel` changes |
| `Device.UQDLogic16.ExclusionApply` | src/logicallyUQD/_lib.py:427-443 | a (uint8) flag sum of 0 or n sends mask 0. Any other vector is encoded as in `inversion_apply`: a raising parse fails with InvalidBitString and a value above the C int range with IntOverflow, both with no write. Every successful path sends exactly one `SetInversionMask`. For 0/1 flags the mask is 0 for all-zero and all-one vectors, else the flag encoding |
| `Device.UQDLogic16.SetFilterMinCount` | src/logicallyUQD/_lib.py:377-388 | as written: the guard's branch is dead, so every count that fits a C int, 0 and 11 included, is stored and sent. A count outside the C int range, above 2^31-1 or below -2^31, fails with OverflowError before any write |
| `Device.UQDLogic16.SetFilterMinCountChecked` | src/logicallyUQD/_lib.py:377-388 | as intended: counts outside [1, 10] fail with no change. Otherwise the count is stored and sent |
| `Device.BinaryFlagsFit` | src/logicallyUQD/_lib.py:279 | 0/1 flags on 1-31 channels parse, and the value fits the `cython.int` mask |
| `Device.ByteSum` | src/logicallyUQD/_lib.py:430-434 | `sum(bits)` over the `uint8` array is the exact flag sum modulo 256, and the exact sum while it is below 256 |
| `Device.BinarySumCounts` | src/logicallyUQD/_lib.py:430-436 | on fewer than 256 channels, the byte sum of 0/1 flags never wraps and is at most n. It is 0 iff all flags are 0, and n iff all flags are 1 |
| `Device.MinCountGuardNeverFires` | src/logicallyUQD/_lib.py:385 | the guard `(count < 1) and (count > 10)` is false for every count |
| `Device.MinCountGuardCounterexample` | src/logicallyUQD/_lib.py:385-386 | 0 and 11 pass the guard as written but fail the intended one |
| `Device.MinCountGuardIntendedExact` | src/logicallyUQD/_lib.py:385-386 | the intended guard lets through exactly the counts in [1, 10] |

## Findings

| source | as written | input that shows it | evidently intended | confidence | as-written member | corrected member |
|---|---|---|---|---|---|---|
| src/logicallyUQD/_lib.py:385 | `if (count < 1) and (count > 10): raise` | `filter_min_count = 0` (or 11) is stored and sent to the device | `(count < 1) or (count > 10)`, as the error message "must be between 1 and 10" says | high; not executed | `Device.MinCountGuardCounterexample` | `Device.UQDLogic16.SetFilterMinCountChecked` |

## Left out

- ErrorFlags.ErrorFromBitSet: for a set bit 8-15, the contract does not fix the value of slot 15-i. Storing 2^8 and above into a `uint8` array wraps or raises, depending on the numpy version. The model takes the store that does not raise: every word in [0, 2^32) gives a result, and the body stores `2^i mod 256`.
- Device.UQDLogic16.ExclusionApply: `sum(bits)` is modelled with NumPy 2 promotion, where the accumulator is `uint8` and wraps modulo 256 (`Device.ByteSum`). Under NumPy 1.x the sum is exact. For flags whose exact sum is 256 or more the two differ: with 16 channels and flags `[255, 1, 0, ...]` NumPy 2 sends mask 0, while NumPy 1.x builds a string containing "255", and `int(bit_string, 2)` raises. No NumPy version is pinned, so the model does not capture the NumPy 1.x outcome. For 0/1 flags on fewer than 256 channels the two agree (`Device.BinarySumCounts`).
- Device.Init: the Python defaults `device_id=1` and `calibrate=True` are not modelled; every call passes both arguments.
- Cython semantics assumed: the `List[...]` return annotations of `error_from_bit_set` and of the `inversion` and `exclusion` getters are taken as not enforced, so returning a numpy array does not raise. `2**i` in `error_from_bit_set` is taken as the exact integer power. Under Cython 3 with `cpow=False` it is a C double, which is exact for the powers the table uses. Neither Cython nor NumPy is pinned by the packaging.
- Device.UQDLogic16.SetInputThreshold: voltages are reals, so a NaN voltage is not modelled. In Python a NaN passes `abs(voltage) > 2` unrejected.
- Device.UQDLogic16.SetInversion / Device.UQDLogic16.SetExclusion: the mask argument is a `uint8` value (`Bits.U8`). How numpy converts an integer outside [0, 255] into the array depends on its version and is not modelled. One consequence is not captured: under NumPy 2, `exclusion = (ch, 256)` sends `SetFilterException(ch)` and then raises at the store, so the device and the mirrored array disagree.
- `number_of_channels` is queried from the driver on every call. The model reads it once, at open, and treats it as fixed.
- `int(s, 2)` is modelled only on strings of decimal digits, the only strings the source builds. Signs, whitespace, underscores and `0b` prefixes are not modelled.
- The getters (`led_brightness`, `input_threshold`, `inversion`, `exclusion`, `filter_min_count`, ...) are plain field reads. The model reads the fields directly. Aliasing of the numpy array a getter returns is not modelled.
- `LogicMode` (src/logicallyUQD/_lib.py:462-508): every method is one driver call. The coincidence counts come from the vendor library, so `calc_count_pos(p) == calc_count(p, 0)` is a property of that library, not of this code.
- `read_tags`, `start_timetags`, `stop_timetags`: the read overwrites the driver's count with 10 and copies zero arrays onto themselves. The start reads an attribute that is never set. No buffer semantics can be drawn from them.
- `input_delay` and `filter_max_time`: they need float floor division by the device resolution. They also divide the channel instead of the delay, and store the `time` module. They are not modelled.
- `external_10MHz_reference`, `level_gate`, `fpga_version`, `resolution`, `calibrate`, `is_open`, `__close__`, `__exit__`: single driver calls or prints. Only the `Calibrate` command of `__init__` is logged.
- The C++ bindings (bindings_uqd_logic.cpp/.h) forward each call to the vendor library. They appear only as `Device.Command` values in the driver log.
- setup.py, tests/basics.py and tests/logic-mode.py are hardware scripts or packaging. `pattern_from_channels` is not part of this model.
- Concurrency and the blocking behaviour of driver calls are not modelled.
