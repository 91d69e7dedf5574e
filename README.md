# CANopen frame codec, argument parser and CAN message — a Dafny model

This project models the protocol core of CANTools, a small C++ toolset for
Linux SocketCAN:

- **The CANopen codec** (`source/can/include/canopen.h`). It has three parts:
  - byte-packing helpers: `as_data`, `map_to_data`, `map_from_data` and the three `operator|` concatenations;
  - frame builders: the generic `message`, the SDO expedited-transfer initiate frame `message_sdo` and the NMT node-control frame `message_nmt`;
  - a classifier: masked comparisons of the COB-ID against the CiA 301 pre-defined connection set, plus the length-guarded SDO field readers.
- **The command-line parser** (`source/utility/src/cmdargs_parser.cpp`). A single pass over `argv` recognises `--input TYPE [NAME]` and `--output TYPE [NAME]`, and `get` answers lookups with defaults.
- **The `Message` class** (`source/can/src/Message.cpp`). It holds a CAN frame and an interface name, with a clamping index operator and id/size/interface accessors.

Files:

| file | module | models |
|---|---|---|
| `can_frame.dfy` | `CanFrame` | `struct can_frame` of `<linux/can.h>`: `can_id` as `bv32`, `len` as a byte, `data` as exactly eight bytes |
| `byte_arith.dfy` | `ByteArith` | powers of 256 and division facts used by the packing proofs |
| `canopen.dfy` | `Canopen` | the codec |
| `cmdargs_parser.dfy` | `CmdArgsParser` | the parser as class `Parser` over the specification function `Scan` |
| `message.dfy` | `CanMessage` | class `Message` with the payload as an eight-element array |

Modelling choices:

- The identifier is a 32-bit bit-vector, so the classifier's masks are written as in the source.
- Payload bytes are integers in [0, 256). `(v >> 8*i) & 0xFF` is therefore `(v / 256^i) % 256`.
- The loops that fill a `std::array` or a `can_frame` element by element are methods that fill a local array. These are `map_to_data`, the three `operator|` and `message`.
- The loop of `map_from_data` accumulates into a number. It is a method whose result is a running sum.
- Each of those methods is proved equal to a specification function. The pure builders and readers use those functions.
- The template parameters are ordinary parameters:
  - the width `sizeof(T)` and the length of `map_to_data`/`map_from_data`;
  - the `sdo_type`/`nmt_type` argument of `message_sdo`/`message_nmt`;
  - the PDO number of `is_tpdo`/`is_rpdo`.

  The `static_assert`s become `requires` clauses.

The code departs from the CiA 301 conventions in two places. The model follows the code:

- **Identifier width.** `id_type` is `uint8_t`, so `message`, `message_sdo` and `message_nmt` build frames whose identifier is below 0x100. An SDO frame with COB-ID 0x600 + node cannot be built. `Canopen.MessageSdoIsNotSdo` proves that a built SDO frame never classifies as SDO.
- **Index reader.** CiA 301 carries the object index little-endian, and `map_from_data` is meant to unpack it that way. `map_from_data` shifts right instead, so `get_sdo_cobid` returns byte 1 alone (see Findings).
  - `Canopen.SdoCobid` models the function as written.
  - `Canopen.SdoIndex` is the intended reader, proved to invert `message_sdo`.

## Model

| member | source | states |
|---|---|---|
| `Canopen.SdoType.AsData` | source/can/include/canopen.h:23-30 | 0 only for `unknown`; `read` has command specifier 2 (initiate upload); each write has specifier 1 with the expedited and size bits set, and its unused-byte count leaves 1, 2 or 4 data bytes |
| `Canopen.NmtType.AsData` | source/can/include/canopen.h:32-49 | each command has its CiA 301 command specifier (start 0x01, stop 0x02, enter pre-operational 0x80, reset node 0x81, reset communication 0x82); the four heartbeat states are exactly the enumerators with bytes 0x00, 0x04, 0x05 and 0x7F; `unknown` is exactly the one with 0xDD |
| `Canopen.NmtType.IsCommand` | source/can/include/canopen.h:138-142 | the enumerators `message_nmt` accepts are exactly those whose byte is 0x01, 0x02, 0x80, 0x81 or 0x82 |
| `Canopen.AsDataInjective` | source/can/include/canopen.h:23-58 | `as_data` of two `sdo_type` (or two `nmt_type`) enumerators is the same byte only when they are the same enumerator |
| `Canopen.LittleEndian` | source/can/include/canopen.h:60-70 | exactly n bytes; byte i is `(v >> 8*i) & 0xFF` |
| `Canopen.MapToData` | source/can/include/canopen.h:60-70 | `map_to_data<n>` fills exactly n bytes, byte i = `(v >> 8*i) & 0xFF`, which is the little-endian encoding |
| `Canopen.UnpackShiftRight` | source/can/include/canopen.h:72-81 | summing `data[i] >> 8*i` yields 0 for no bytes and `data[0]` otherwise: every later byte is shifted out |
| `Canopen.MapFromData` | source/can/include/canopen.h:72-81 | the accumulator loop as written returns `data[0]` (0 for no bytes) |
| `Canopen.FromLittleEndian` | source/can/include/canopen.h:72-81 | the intended unpacking (`data[i] << 8*i`) stays below 256^n, so it fits the n-byte result type |
| `Canopen.MapFromDataLittleEndian` | source/can/include/canopen.h:72-81 | the loop with a left shift computes the little-endian value |
| `Canopen.FromLittleEndianOfLittleEndian` | source/can/include/canopen.h:60-81 | unpacking the packed bytes of v gives v mod 256^n |
| `Canopen.LittleEndianRoundTrip` | source/can/include/canopen.h:60-81 | the intended unpacking inverts `map_to_data` for every value that fits in n bytes |
| `Canopen.ShiftRightRoundTrip` | source/can/include/canopen.h:60-81 | the unpacking as written returns v mod 256 on packed bytes, so the round trip holds exactly when v < 256 |
| `Canopen.ShiftRightLosesHighByte` | source/can/include/canopen.h:77-79 | 0x3456 packs to [0x56, 0x34]; the shift-right unpack gives 0x56, the little-endian one 0x3456 |
| `Canopen.ConcatArrays` | source/can/include/canopen.h:83-91 | the array-array concatenation has length l1 + l2 and is a1 followed by a2 |
| `Canopen.PrependByte` | source/can/include/canopen.h:93-101 | the byte-array concatenation has length l + 1 and is d followed by a |
| `Canopen.AppendByte` | source/can/include/canopen.h:103-111 | the array-byte concatenation has length l + 1 and is a followed by d |
| `Canopen.Message` | source/can/include/canopen.h:116-126 | for 1 to 8 bytes: `can_id` = id, `len` = n, the first n payload bytes are the data, the rest are zero |
| `Canopen.MessageSdo` | source/can/include/canopen.h:128-132 | `can_id` = id and `len` = 8; bytes: the command specifier, index low byte, index high byte, subindex, then four zero bytes |
| `Canopen.MessageNmt` | source/can/include/canopen.h:134-145 | only the five command variants are accepted; `can_id` = 0, `len` = 2, bytes: command, node id, zeros |
| `Canopen.HasMaskedValue` | source/can/include/canopen.h:155-159 | a value with bits outside the mask never matches |
| `Canopen.MaskedValueAtClassifierMasks` | source/can/include/canopen.h:155-216 | under the mask 0xFFF the test is COB-ID equality; under 0xF80 it selects the 128 COB-IDs starting at the value |
| `Canopen.GetId` | source/can/include/canopen.h:150-153 | the node id is `can_id & 0x7F` and is below 128 |
| `Canopen.IsNmt` | source/can/include/canopen.h:161-164 | true exactly for COB-ID 0 or 0x700 to 0x77F (the low 12 bits of the identifier) |
| `Canopen.IsEmcy` | source/can/include/canopen.h:166-169 | true exactly for COB-IDs 0x080 to 0x0FF |
| `Canopen.IsLss` | source/can/include/canopen.h:171-174 | true exactly for COB-IDs 0x7E4 and 0x7E5 |
| `Canopen.IsTpdo` | source/can/include/canopen.h:176-188 | for n in 1..4, true exactly when the COB-ID is the TPDO n base (0x180, 0x280, 0x380, 0x480) plus the node id |
| `Canopen.IsRpdo` | source/can/include/canopen.h:190-202 | for n in 1..4, true exactly when the COB-ID is the RPDO n base (0x200, 0x300, 0x400, 0x500) plus the node id |
| `Canopen.IsSdoRequest` | source/can/include/canopen.h:204-207 | true exactly for COB-IDs 0x600 to 0x67F |
| `Canopen.IsSdoResponse` | source/can/include/canopen.h:209-212 | true exactly for COB-IDs 0x580 to 0x5FF |
| `Canopen.IsSdo` | source/can/include/canopen.h:214-217 | true exactly for COB-IDs 0x580 to 0x67F, i.e. either SDO direction |
| `Canopen.AtMostOneCategory` | source/can/include/canopen.h:155-212 | for any identifier, no two of NMT, EMCY, LSS, TPDO1-4, RPDO1-4, SDO request and SDO response both hold |
| `Canopen.SdoFunctionCode` | source/can/include/canopen.h:219-237 | unknown when `len` is 0 or byte 0 is not 0x40/0x2F/0x2B/0x23; otherwise the variant whose wire value is byte 0 |
| `Canopen.SdoCobid` | source/can/include/canopen.h:239-245 | 0 when `len` < 3; otherwise byte 1 (the high byte is lost, as written) |
| `Canopen.SdoIndex` | source/can/include/canopen.h:239-245 | the intended reader: 0 when `len` < 3, otherwise byte 1 + 256 * byte 2 |
| `Canopen.SdoSubindex` | source/can/include/canopen.h:247-253 | 0 when `len` < 4, otherwise byte 3 |
| `Canopen.SdoFunctionCodeOfMessageSdo` | source/can/include/canopen.h:219-237 | the command specifier of a built SDO frame reads back as the one it was built with |
| `Canopen.SdoSubindexOfMessageSdo` | source/can/include/canopen.h:247-253 | the subindex of a built SDO frame reads back unchanged |
| `Canopen.SdoCobidOfMessageSdo` | source/can/include/canopen.h:239-245 | the index read back from a built SDO frame is the index mod 256, equal to it only below 256 |
| `Canopen.SdoIndexOfMessageSdo` | source/can/include/canopen.h:239-245 | the intended reader returns the built index for every 16-bit index |
| `Canopen.SdoExample` | tests/canopen/canopen_tests.cpp:40-58 | write-1-byte, index 0x3456, subindex 0x78 gives bytes 2F 56 34 78; reads back as write-1-byte and 0x78, with index 0x56 as written and 0x3456 intended |
| `Canopen.NmtExample` | tests/canopen/canopen_tests.cpp:100-122 | operational and reset-node for node 0x12 give COB-ID 0, length 2 and bytes 01 12 and 81 12; the reset frame classifies as NMT |
| `Canopen.MessageNmtIsNmt` | source/can/include/canopen.h:134-145 | a built NMT frame classifies as NMT and carries node id 0 in its COB-ID |
| `Canopen.MessageSdoIsNotSdo` | source/can/include/canopen.h:116-132 | with an 8-bit identifier, a built SDO frame has a COB-ID below 0x100 and never classifies as SDO |
| `Canopen.ShortFrameDefaults` | source/can/include/canopen.h:219-253 | a frame of length 0 reads as unknown, index 0 and subindex 0 |
| `CmdArgsParser.Scan` | source/utility/src/cmdargs_parser.cpp:18-38 | the pass from a given position only adds or overwrites stored values, never removes one |
| `CmdArgsParser.Parse` | source/utility/src/cmdargs_parser.cpp:12-41 | the arguments are invalid exactly when the pass from the first token lands on the last token and that token is a keyword |
| `CmdArgsParser.Parser.constructor` | source/utility/src/cmdargs_parser.cpp:12-41 | the validity flag and the stored values are those of the pass `Parse(argv)` |
| `CmdArgsParser.Parser.Get` | source/utility/src/cmdargs_parser.cpp:44-62 | a stored value is returned; otherwise "any" for the name keys and "can" for the type keys; reads the parser and changes nothing |
| `CmdArgsParser.ScanSkipsPlainTokens` | source/utility/src/cmdargs_parser.cpp:18-38 | a run of tokens that are not keywords changes neither the flag nor the values |
| `CmdArgsParser.NoKeywordsGivesDefaults` | source/utility/src/cmdargs_parser.cpp:16-40 | without `--input`/`--output` the arguments are valid and nothing is stored, so every key gets its default |
| `CmdArgsParser.ScanLatchesInvalid` | source/utility/src/cmdargs_parser.cpp:16-40 | once the flag is false, the rest of the pass never sets it true again |
| `CmdArgsParser.InvalidIff` | source/utility/src/cmdargs_parser.cpp:18-38 | from any position, the pass ends invalid if and only if it lands on the last token and that token is a keyword; keywords are stepped over with their two following tokens |
| `CmdArgsParser.ScanInvalidOnlyAtTrailingKeyword` | source/utility/src/cmdargs_parser.cpp:21-37 | the arguments are invalid only if the last token is a keyword |
| `CmdArgsParser.TrailingKeywordIsInvalid` | source/utility/src/cmdargs_parser.cpp:23-33 | after plain tokens only, a keyword in the last position makes the arguments invalid and stores nothing |
| `CmdArgsParser.KeywordStoresName` | source/utility/src/cmdargs_parser.cpp:21-36 | with plain tokens only before and after it, `KEYWORD T N` stores N under that keyword's name key and stays valid; T and N are skipped unexamined, even if they are keywords |
| `CmdArgsParser.KeywordWithoutName` | source/utility/src/cmdargs_parser.cpp:25-27 | after plain tokens only, a final `KEYWORD T` is valid and stores nothing, so the name stays "any" |
| `CmdArgsParser.LaterKeywordOverwrites` | source/utility/src/cmdargs_parser.cpp:26-35 | two keyword groups, with plain tokens only before, between and after them, stay valid and store both names (as in `--input can vcan0 --output can vcan1`); with the same keyword twice the later name replaces the earlier |
| `CmdArgsParser.ScanStoresOnlyNames` | source/utility/src/cmdargs_parser.cpp:21-37 | the pass stores only under the two name keys, never the type token |
| `CmdArgsParser.TypeKeysAlwaysDefault` | source/utility/src/cmdargs_parser.cpp:52-61 | neither type key is ever stored, so `get` returns "can" for both whatever the arguments |
| `CmdArgsParser.ParserTestExpectations` | tests/cmdargs_parser_tests.cpp:14-147 | the parser's unit-test argument lists give the expected flag and stored names: `cantool` alone or with `--input can`/`--output can` is valid with nothing stored, so both keys keep their defaults; a lone trailing keyword is invalid; `KEYWORD can NAME` stores NAME for both keywords and two names; `--input --output` is valid, because the second keyword is the type token |
| `CanMessage.Message.constructor` | source/can/src/Message.cpp:11-15 | holds a copy of the given frame and an empty interface name |
| `CanMessage.Message.Frame` | source/can/src/Message.cpp:75-84 | the held frame: its bytes are the buffer's, and `get_id` on it gives the short id |
| `CanMessage.Message.Id` | source/can/src/Message.cpp:36-39 | the identifier of the held frame, whose low seven bits are the short id |
| `CanMessage.Message.Size` | source/can/src/Message.cpp:48-51 | the length byte of the held frame |
| `CanMessage.Message.Interface` | source/can/src/Message.cpp:86-89 | the stored interface name |
| `CanMessage.Message.Slot` | source/can/src/Message.cpp:21-30 | the element index: 0 below 0, 7 above 7, the index itself otherwise; always inside the eight bytes |
| `CanMessage.Message.Get` | source/can/src/Message.cpp:21-30 | reading `msg[i]` yields the frame's byte i for 0 to 7, byte 0 below and byte 7 above |
| `CanMessage.Message.Set` | source/can/src/Message.cpp:21-30 | writing through `msg[i]` changes only the byte at the clamped index |
| `CanMessage.Message.IdShort` | source/can/src/Message.cpp:42-45 | `can_id & 0x7F`, always below 128 |
| `CanMessage.Message.SetId` | source/can/src/Message.cpp:54-57 | `id()` then returns the given value; length, payload and interface are unchanged |
| `CanMessage.Message.SetIdShort` | source/can/src/Message.cpp:60-63 | `can_id` becomes `x & 0x7F`, and `id()` and `id_short()` both return it; nothing else changes |
| `CanMessage.Message.SetSize` | source/can/src/Message.cpp:66-69 | `size()` then returns the given value, with no bound check against 8; nothing else changes |
| `CanMessage.Message.SetInterface` | source/can/src/Message.cpp:91-94 | `get_interface()` then returns the given name; the frame is unchanged |
| `CanMessage.IdShortIsGetId` | source/can/src/Message.cpp:42-45 | `id_short()` of a message agrees with the codec's `get_id` on its frame |

## Findings

| source | as written | input that shows it | evidently intended | confidence | as-written member | corrected member |
|---|---|---|---|---|---|---|
| source/can/include/canopen.h:79 | `result += data[i] >> i*8` shifts each byte right, so `map_from_data` returns `data[0]`, and `get_sdo_cobid` returns byte 1 of the frame | `message_sdo` with index 0x3456 packs bytes 56 34; `get_sdo_cobid` then reads 0x56 | `data[i] << i*8`, the inverse of `map_to_data`, reading 0x3456 back | high; not executed | `Canopen.SdoCobidOfMessageSdo` | `Canopen.SdoIndexOfMessageSdo` |

## Left out

- Socket I/O is not part of this model: `CANSocket`, the connection factory, the `ICANInterface` abstraction and the entry point `main.cpp`. They are operating-system calls (`socket`, `bind`, `ioctl`, `poll`, `read`, `write`, `recvfrom`) and console output.
- The reception timestamp of `Message` (`timeval`, `get_timestamp`) is kernel-provided time and is not modelled.
- The padding and reserved bytes of `can_frame` (`__pad`, `__res0`, `len8_dlc`) are not modelled.
- `get_frame` returns a mutable reference to the held frame. The model gives the frame as a value (`CanMessage.Message.Frame`), so writes through that reference are not modelled. Writes through `operator[]` are modelled (`CanMessage.Message.Set`).
- `valid()` is the read of the field `CmdArgsParser.Parser.valid`; it has no member of its own.
- Canopen.MapFromData: unsigned result types only. For a signed one-byte type, the cast of a byte of 0x80 or more is negative, and that case is not modelled. The only caller, `get_sdo_cobid`, uses `uint16_t`.
- Canopen.MapToData: packs non-negative values only. The source only packs unsigned indices, subindices and node ids; a negative signed value and its arithmetic shift are not modelled.
- Canopen.MessageSdo: takes its identifier as an 8-bit value. A wider identifier passed by a caller would be narrowed by C++ implicit conversion, and that narrowing is not modelled.
- The length byte of a frame is not bounded by 8, because neither `can_frame` nor `Message::set_size` bounds it. The index and subindex readers compare it against 3 and 4, and the command-byte reader against 0; none compares it against 8.
- Command-line tokens are strings compared for equality with "--input" and "--output". C-string handling is not modelled.
