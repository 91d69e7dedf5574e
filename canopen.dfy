/**
 * The CANopen frame codec: building SDO and NMT frames from protocol fields,
 * classifying a received frame by its COB-ID against the CiA 301 pre-defined
 * connection set, and reading the SDO command byte, index and subindex.
 *
 * Identifiers are masked as 32-bit bit-vectors; payload bytes are integers in
 * [0, 256), so that little-endian packing can be stated arithmetically:
 * `(v >> 8*i) & 0xFF` is `(v / 256^i) % 256` for a non-negative `v`.
 */
module Canopen {
  import opened CanFrame
  import opened ByteArith

  // ------------------------------------------------------------------
  // Data types
  // ------------------------------------------------------------------

  /** The SDO command specifier of an expedited transfer (`sdo_type`). */
  datatype SdoType = Unknown | Read | Write1Byte | Write2Bytes | Write4Bytes
  {
    /**
     * `as_data(T)`: the enumerator's value as a wire byte. Read in terms of
     * the CiA 301 SDO protocol, `read` is an initiate-upload request
     * (client command specifier 2); each write is an expedited initiate-download
     * request (specifier 1, expedited and size bits set) whose two `n` bits
     * count the unused bytes of the four-byte data field.
     */
    function AsData(): (r: uint8)
      ensures r == 0 <==> Unknown?
      ensures Read? ==> r / 32 == 2
      ensures Write1Byte? || Write2Bytes? || Write4Bytes? ==> r / 32 == 1 && r % 4 == 3
      ensures Write1Byte? ==> 4 - (r as int / 4) % 4 == 1
      ensures Write2Bytes? ==> 4 - (r as int / 4) % 4 == 2
      ensures Write4Bytes? ==> 4 - (r as int / 4) % 4 == 4
    {
      match this
      case Unknown => 0
      case Read => 0x40
      case Write1Byte => 0x2F
      case Write2Bytes => 0x2B
      case Write4Bytes => 0x23
    }
  }

  /** NMT node-control commands and heartbeat-reported states (`nmt_type`). */
  datatype NmtType =
    | NmtUnknown
    | CommandOperational | CommandStopped | CommandPreoperational
    | CommandResetNode | CommandResetCommunication
    | StateBootUp | StateStopped | StateOperational | StatePreoperational
  {
    /**
     * `as_data(T)`: the enumerator's value as a wire byte. Each command takes
     * its CiA 301 NMT command specifier (start 0x01, stop 0x02, enter
     * pre-operational 0x80, reset node 0x81, reset communication 0x82), the
     * heartbeat states take the four state bytes, and the placeholder takes
     * 0xDD, which is neither a command nor a state.
     */
    function AsData(): (r: uint8)
      ensures CommandOperational? <==> r == 0x01
      ensures CommandStopped? <==> r == 0x02
      ensures CommandPreoperational? <==> r == 0x80
      ensures CommandResetNode? <==> r == 0x81
      ensures CommandResetCommunication? <==> r == 0x82
      ensures StateBootUp? || StateStopped? || StateOperational? || StatePreoperational? <==> r in {0x00, 0x04, 0x05, 0x7F}
      ensures NmtUnknown? <==> r == 0xDD
    {
      match this
      case NmtUnknown => 0xDD
      case CommandOperational => 0x01
      case CommandStopped => 0x02
      case CommandPreoperational => 0x80
      case CommandResetNode => 0x81
      case CommandResetCommunication => 0x82
      case StateBootUp => 0x00
      case StateStopped => 0x04
      case StateOperational => 0x05
      case StatePreoperational => 0x7F
    }

    /**
     * The five variants that may be sent in an NMT frame: exactly those whose
     * wire byte is one of the five node-control command specifiers.
     */
    predicate IsCommand()
      ensures IsCommand() <==> AsData() in {0x01, 0x02, 0x80, 0x81, 0x82}
    {
      CommandOperational? || CommandStopped? || CommandPreoperational? ||
      CommandResetNode? || CommandResetCommunication?
    }
  }

  /** Distinct enumerators are distinct wire bytes, so a byte names at most one of them. */
  lemma AsDataInjective(s1: SdoType, s2: SdoType, n1: NmtType, n2: NmtType)
    ensures s1.AsData() == s2.AsData() ==> s1 == s2
    ensures n1.AsData() == n2.AsData() ==> n1 == n2
  {
  }

  // ------------------------------------------------------------------
  // Byte packing
  // ------------------------------------------------------------------

  /** The `n` low-order bytes of `value`, least significant first. */
  function LittleEndian(value: nat, n: nat): (r: seq<uint8>)
    ensures |r| == n
    ensures forall i :: 0 <= i < n ==> r[i] as int == (value / Pow256(i)) % 256
  {
    if n == 0 then [] else LittleEndian(value, n - 1) + [((value / Pow256(n - 1)) % 256) as uint8]
  }

  /**
   * `map_to_data<n>(value)` for a value of an unsigned type `size` bytes wide:
   * fills an `n`-byte array with byte `i` = `(value >> 8*i) & 0xFF`.
   */
  method MapToData(n: nat, size: nat, value: nat) returns (r: seq<uint8>)
    requires n <= size && value < Pow256(size)
    ensures |r| == n
    ensures forall i :: 0 <= i < n ==> r[i] as int == (value / Pow256(i)) % 256
    ensures r == LittleEndian(value, n)
  {
    var result := new uint8[n];
    for i := 0 to n
      invariant forall k :: 0 <= k < i ==> result[k] as int == (value / Pow256(k)) % 256
    {
      result[i] := ((value / Pow256(i)) % 256) as uint8;
    }
    r := result[..];
  }

  /**
   * The value `map_from_data` computes: the sum of `data[i] >> 8*i`. Every
   * byte after the first is shifted out entirely, so only `data[0]` is left.
   */
  function UnpackShiftRight(data: seq<uint8>): (r: nat)
    ensures r == if data == [] then 0 else data[0] as nat
  {
    if data == [] then 0
    else
      var k := |data| - 1;
      var shifted := data[k] as nat / Pow256(k);
      assert k > 0 ==> shifted == 0 by {
        if k > 0 { SmallDivMod(data[k] as int, Pow256(k)); }
      }
      UnpackShiftRight(data[..k]) + shifted
  }

  /**
   * `map_from_data<T>(data)` as written: an accumulator loop adding
   * `data[i] >> i*8` into a value of a type `size` bytes wide.
   */
  method MapFromData(data: seq<uint8>, size: nat) returns (r: nat)
    requires |data| <= size
    ensures r == UnpackShiftRight(data)
    ensures r == if data == [] then 0 else data[0] as nat
  {
    r := 0;
    for i := 0 to |data|
      invariant r == UnpackShiftRight(data[..i])
    {
      assert data[..i + 1][..i] == data[..i];
      assert UnpackShiftRight(data[..i + 1]) == UnpackShiftRight(data[..i]) + data[i] as nat / Pow256(i);
      r := r + data[i] as nat / Pow256(i);
    }
    assert data[..|data|] == data;
  }

  /** The little-endian value of `data`: the sum of `data[i] << 8*i`. */
  function FromLittleEndian(data: seq<uint8>): (r: nat)
    ensures r < Pow256(|data|)
  {
    if data == [] then 0
    else
      var k := |data| - 1;
      PackBound(FromLittleEndian(data[..k]), data[k] as int, Pow256(k));
      FromLittleEndian(data[..k]) + data[k] as nat * Pow256(k)
  }

  /**
   * The unpacking `map_from_data` is meant to perform (shifting left), as an
   * accumulator loop like the original.
   */
  method MapFromDataLittleEndian(data: seq<uint8>, size: nat) returns (r: nat)
    requires |data| <= size
    ensures r == FromLittleEndian(data)
    ensures r < Pow256(|data|)
  {
    r := 0;
    for i := 0 to |data|
      invariant r == FromLittleEndian(data[..i])
    {
      assert data[..i + 1][..i] == data[..i];
      r := r + data[i] as nat * Pow256(i);
    }
    assert data[..|data|] == data;
  }

  /** Unpacking the little-endian encoding of `value` gives back `value` modulo 256^n. */
  lemma {:induction false} FromLittleEndianOfLittleEndian(value: nat, n: nat)
    ensures FromLittleEndian(LittleEndian(value, n)) == value % Pow256(n)
  {
    if n > 0 {
      var s, k := LittleEndian(value, n), n - 1;
      var p := Pow256(k);
      assert s[..k] == LittleEndian(value, k);
      assert FromLittleEndian(s) == FromLittleEndian(s[..k]) + s[k] as nat * p;
      FromLittleEndianOfLittleEndian(value, k);
      assert s[k] as nat == (value / p) % 256;
      ModSplit(value, p);
      assert Pow256(n) == p * 256;
    }
  }

  /** Round trip of the intended unpacking: decode(encode(v)) == v for every v that fits in n bytes. */
  lemma LittleEndianRoundTrip(value: nat, n: nat)
    requires value < Pow256(n)
    ensures FromLittleEndian(LittleEndian(value, n)) == value
  {
    FromLittleEndianOfLittleEndian(value, n);
    SmallDivMod(value, Pow256(n));
  }

  /** Round trip of the unpacking as written: it gives back v exactly when v < 256. */
  lemma ShiftRightRoundTrip(value: nat, n: nat)
    requires 1 <= n && value < Pow256(n)
    ensures UnpackShiftRight(LittleEndian(value, n)) == value % 256
    ensures UnpackShiftRight(LittleEndian(value, n)) == value <==> value < 256
  {
  }

  /** Counterexample: the SDO index 0x3456 packs to [0x56, 0x34] and unpacks to 0x56. */
  lemma ShiftRightLosesHighByte()
    ensures LittleEndian(0x3456, 2) == [0x56, 0x34]
    ensures UnpackShiftRight(LittleEndian(0x3456, 2)) == 0x56
    ensures FromLittleEndian(LittleEndian(0x3456, 2)) == 0x3456
  {
  }

  /** `a1 | a2`: an array of length l1 + l2 filled with a1 followed by a2. */
  method ConcatArrays<T(0)>(a1: seq<T>, a2: seq<T>) returns (r: seq<T>)
    ensures |r| == |a1| + |a2|
    ensures r == a1 + a2
  {
    var result := new T[|a1| + |a2|];
    for i := 0 to |a1| + |a2|
      invariant forall k :: 0 <= k < i ==> result[k] == if k < |a1| then a1[k] else a2[k - |a1|]
    {
      result[i] := if i < |a1| then a1[i] else a2[i - |a1|];
    }
    r := result[..];
  }

  /** `d | a`: an array of length l + 1 holding the byte d followed by a. */
  method PrependByte(d: uint8, a: seq<uint8>) returns (r: seq<uint8>)
    ensures |r| == |a| + 1
    ensures r == [d] + a
  {
    var result := new uint8[|a| + 1];
    for i := 0 to |a| + 1
      invariant forall k :: 0 <= k < i ==> result[k] == if k < 1 then d else a[k - 1]
    {
      result[i] := if i < 1 then d else a[i - 1];
    }
    r := result[..];
  }

  /** `a | d`: an array of length l + 1 holding a followed by the byte d. */
  method AppendByte(a: seq<uint8>, d: uint8) returns (r: seq<uint8>)
    ensures |r| == |a| + 1
    ensures r == a + [d]
  {
    var result := new uint8[|a| + 1];
    for i := 0 to |a| + 1
      invariant forall k :: 0 <= k < i ==> result[k] == if k < |a| then a[k] else d
    {
      result[i] := if i < |a| then a[i] else d;
    }
    r := result[..];
  }

  // ------------------------------------------------------------------
  // Message construction
  // ------------------------------------------------------------------

  /** The frame `message` produces: the bytes of `d`, zero padding, length |d|. */
  function MessageFrame(id: uint8, d: seq<uint8>): CanFrame
    requires 0 < |d| <= 8
  {
    CanFrame(id as bv32, |d| as uint8, d + Zeros(8 - |d|))
  }

  /**
   * `message<n>(id, data)`: starts from an all-zero frame and copies the
   * `n` (1 to 8) data bytes into the front of the payload.
   */
  method Message(id: uint8, d: seq<uint8>) returns (f: CanFrame)
    requires 0 < |d| <= 8
    ensures f == MessageFrame(id, d)
    ensures f.canId == id as bv32 && f.len as int == |d|
    ensures f.data[..|d|] == d
    ensures forall i :: |d| <= i < 8 ==> f.data[i] == 0
  {
    var data := new uint8[8] [0, 0, 0, 0, 0, 0, 0, 0];
    for i := 0 to |d|
      invariant forall k :: 0 <= k < i ==> data[k] == d[k]
      invariant forall k :: i <= k < 8 ==> data[k] == 0
    {
      data[i] := d[i];
    }
    f := CanFrame(id as bv32, |d| as uint8, data[..]);
    assert f.data == d + Zeros(8 - |d|);
  }

  /**
   * `message_sdo<T>(id, index, subindex)`: an SDO expedited-transfer initiate
   * frame, `as_data(T) | map_to_data<2>(index) | map_to_data<1>(subindex) | 0 | 0 | 0 | 0`.
   */
  function MessageSdo(t: SdoType, id: uint8, index: uint16, subindex: uint8): (f: CanFrame)
    ensures f.canId == id as bv32 && f.len == 8
    ensures f.data[0] == t.AsData()
    ensures f.data[1] as int == index as int % 256 && f.data[2] as int == index as int / 256
    ensures f.data[3] == subindex
    ensures f.data[4..] == [0, 0, 0, 0]
  {
    var payload := [t.AsData()] + LittleEndian(index as nat, 2) + LittleEndian(subindex as nat, 1) + [0] + [0] + [0] + [0];
    assert LittleEndian(index as nat, 2)[1] as int == (index as int / 256) % 256;
    SmallDivMod(index as int / 256, 256);
    SmallDivMod(subindex as int, 256);
    MessageFrame(id, payload)
  }

  /**
   * `message_nmt<T>(node)`: an NMT node-control frame with COB-ID 0,
   * `as_data(T) | map_to_data<1>(node)`. Only command variants may be sent.
   */
  function MessageNmt(t: NmtType, node: uint8): (f: CanFrame)
    requires t.IsCommand()
    ensures f.canId == 0 && f.len == 2
    ensures f.data[0] == t.AsData() && f.data[1] == node
    ensures f.data[2..] == [0, 0, 0, 0, 0, 0]
  {
    SmallDivMod(node as int, 256);
    MessageFrame(0, [t.AsData()] + LittleEndian(node as nat, 1))
  }

  // ------------------------------------------------------------------
  // Message parsing
  // ------------------------------------------------------------------

  /** `get_id`: the node id carried in the low seven bits of the COB-ID. */
  function GetId(f: CanFrame): (r: uint8)
    ensures r < 128
    ensures r as bv32 == f.canId & 0x7F
  {
    (f.canId & 0x7F) as uint8
  }

  /**
   * `has_masked_value<mask, value>`: a value with bits outside the mask never
   * matches.
   */
  predicate HasMaskedValue(f: CanFrame, mask: bv32, value: bv32)
    ensures HasMaskedValue(f, mask, value) ==> value & mask == value
  {
    f.canId & mask == value
  }

  /**
   * The two masks the classifier uses: under the COB-ID mask 0xFFF the test is
   * COB-ID equality; under the function-code mask 0xF80 it selects the block
   * of 128 COB-IDs that starts at the value.
   */
  lemma MaskedValueAtClassifierMasks(f: CanFrame, value: bv32)
    ensures HasMaskedValue(f, 0xFFF, value) <==> CobId(f) == value
    ensures value & 0xF80 == value ==>
      (HasMaskedValue(f, 0xF80, value) <==> value <= CobId(f) < value + 0x80)
  {
  }

  /** The 12-bit COB-ID field of the identifier, `can_id & 0xFFF`. */
  function CobId(f: CanFrame): bv32
  {
    f.canId & 0xFFF
  }

  /** NMT: the node-control COB-ID 0 or a heartbeat 0x700 + node. */
  predicate IsNmt(f: CanFrame)
    ensures IsNmt(f) <==> CobId(f) == 0 || 0x700 <= CobId(f) < 0x780
  {
    HasMaskedValue(f, 0xFFF, 0x000) || HasMaskedValue(f, 0xF80, 0x700)
  }

  /** EMCY: 0x080 + node. */
  predicate IsEmcy(f: CanFrame)
    ensures IsEmcy(f) <==> 0x080 <= CobId(f) < 0x100
  {
    HasMaskedValue(f, 0xF80, 0x080)
  }

  /** LSS: the two fixed COB-IDs 0x7E4 and 0x7E5. */
  predicate IsLss(f: CanFrame)
    ensures IsLss(f) <==> CobId(f) == 0x7E4 || CobId(f) == 0x7E5
  {
    HasMaskedValue(f, 0xFFF, 0x7E4) || HasMaskedValue(f, 0xFFF, 0x7E5)
  }

  /** The COB-ID base of TPDO n: 0x180, 0x280, 0x380, 0x480. */
  function TpdoBase(n: int): bv32
    requires 1 <= n <= 4
  {
    if n == 1 then 0x180 else if n == 2 then 0x280 else if n == 3 then 0x380 else 0x480
  }

  /** The COB-ID base of RPDO n: 0x200, 0x300, 0x400, 0x500. */
  function RpdoBase(n: int): bv32
    requires 1 <= n <= 4
  {
    if n == 1 then 0x200 else if n == 2 then 0x300 else if n == 3 then 0x400 else 0x500
  }

  /** `is_tpdo<n>` for n in 1..4: base + node. */
  predicate IsTpdo(f: CanFrame, n: int)
    requires 1 <= n <= 4
    ensures IsTpdo(f, n) <==> CobId(f) & 0xF80 == TpdoBase(n)
    ensures IsTpdo(f, n) <==> CobId(f) == TpdoBase(n) | (f.canId & 0x7F)
  {
    match n
    case 1 => HasMaskedValue(f, 0xF80, 0x180)
    case 2 => HasMaskedValue(f, 0xF80, 0x280)
    case 3 => HasMaskedValue(f, 0xF80, 0x380)
    case 4 => HasMaskedValue(f, 0xF80, 0x480)
  }

  /** `is_rpdo<n>` for n in 1..4: base + node. */
  predicate IsRpdo(f: CanFrame, n: int)
    requires 1 <= n <= 4
    ensures IsRpdo(f, n) <==> CobId(f) & 0xF80 == RpdoBase(n)
    ensures IsRpdo(f, n) <==> CobId(f) == RpdoBase(n) | (f.canId & 0x7F)
  {
    match n
    case 1 => HasMaskedValue(f, 0xF80, 0x200)
    case 2 => HasMaskedValue(f, 0xF80, 0x300)
    case 3 => HasMaskedValue(f, 0xF80, 0x400)
    case 4 => HasMaskedValue(f, 0xF80, 0x500)
  }

  /** SDO request (client to server): 0x600 + node. */
  predicate IsSdoRequest(f: CanFrame)
    ensures IsSdoRequest(f) <==> 0x600 <= CobId(f) < 0x680
  {
    HasMaskedValue(f, 0xF80, 0x600)
  }

  /** SDO response (server to client): 0x580 + node. */
  predicate IsSdoResponse(f: CanFrame)
    ensures IsSdoResponse(f) <==> 0x580 <= CobId(f) < 0x600
  {
    HasMaskedValue(f, 0xF80, 0x580)
  }

  /** Either SDO direction. */
  predicate IsSdo(f: CanFrame)
    ensures IsSdo(f) <==> 0x580 <= CobId(f) < 0x680
  {
    IsSdoRequest(f) || IsSdoResponse(f)
  }

  /** The outcome of every category test, in a fixed order. */
  function Categories(f: CanFrame): seq<bool>
  {
    [IsNmt(f), IsEmcy(f), IsLss(f),
     IsTpdo(f, 1), IsTpdo(f, 2), IsTpdo(f, 3), IsTpdo(f, 4),
     IsRpdo(f, 1), IsRpdo(f, 2), IsRpdo(f, 3), IsRpdo(f, 4),
     IsSdoRequest(f), IsSdoResponse(f)]
  }

  /** The mask/value rules are pairwise disjoint: no identifier falls in two categories. */
  lemma AtMostOneCategory(f: CanFrame)
    ensures forall i, j :: 0 <= i < j < |Categories(f)| ==> !(Categories(f)[i] && Categories(f)[j])
  {
  }

  /** `get_sdo_function_code`: the command byte, or unknown for an empty frame or a foreign byte. */
  function SdoFunctionCode(f: CanFrame): (t: SdoType)
    ensures f.len == 0 ==> t == Unknown
    ensures t != Unknown <==> f.len > 0 && f.data[0] in {0x40, 0x2F, 0x2B, 0x23}
    ensures t != Unknown ==> t.AsData() == f.data[0]
  {
    if f.len > 0 then
      var b := f.data[0];
      if b == 0x40 then Read
      else if b == 0x2F then Write1Byte
      else if b == 0x2B then Write2Bytes
      else if b == 0x23 then Write4Bytes
      else Unknown
    else Unknown
  }

  /**
   * `get_sdo_cobid` as written: zero for a frame shorter than three bytes,
   * otherwise `map_from_data<uint16>({data[1], data[2]})`, which is `data[1]`.
   */
  function SdoCobid(f: CanFrame): (r: uint16)
    ensures f.len < 3 ==> r == 0
    ensures f.len >= 3 ==> r as int == f.data[1] as int
  {
    if f.len < 3 then 0 else UnpackShiftRight([f.data[1], f.data[2]]) as uint16
  }

  /**
   * The object index `get_sdo_cobid` is meant to return: bytes 1 and 2 read
   * little-endian, zero for a frame shorter than three bytes.
   */
  function SdoIndex(f: CanFrame): (r: uint16)
    ensures f.len < 3 ==> r == 0
    ensures f.len >= 3 ==> r as int == f.data[1] as int + 256 * f.data[2] as int
  {
    if f.len < 3 then 0
    else
      assert [f.data[1], f.data[2]][..1] == [f.data[1]];
      assert [f.data[1]][..0] == [];
      assert Pow256(1) == 256 && Pow256(0) == 1;
      assert FromLittleEndian([f.data[1]]) == f.data[1] as int;
      FromLittleEndian([f.data[1], f.data[2]]) as uint16
  }

  /** `get_sdo_subindex`: byte 3, or zero for a frame shorter than four bytes. */
  function SdoSubindex(f: CanFrame): (r: uint8)
    ensures f.len < 4 ==> r == 0
    ensures f.len >= 4 ==> r == f.data[3]
  {
    if f.len < 4 then 0 else f.data[3]
  }

  // ------------------------------------------------------------------
  // Building then parsing
  // ------------------------------------------------------------------

  /** The command byte of a built SDO frame reads back as the command it was built with. */
  lemma SdoFunctionCodeOfMessageSdo(t: SdoType, id: uint8, index: uint16, subindex: uint8)
    ensures SdoFunctionCode(MessageSdo(t, id, index, subindex)) == t
  {
  }

  /** The subindex of a built SDO frame reads back unchanged. */
  lemma SdoSubindexOfMessageSdo(t: SdoType, id: uint8, index: uint16, subindex: uint8)
    ensures SdoSubindex(MessageSdo(t, id, index, subindex)) == subindex
  {
  }

  /** As written, reading the index of a built SDO frame yields only its low byte. */
  lemma SdoCobidOfMessageSdo(t: SdoType, id: uint8, index: uint16, subindex: uint8)
    ensures SdoCobid(MessageSdo(t, id, index, subindex)) as int == index as int % 256
    ensures SdoCobid(MessageSdo(t, id, index, subindex)) == index <==> index < 256
  {
  }

  /** The intended index reader inverts the builder for every 16-bit index. */
  lemma SdoIndexOfMessageSdo(t: SdoType, id: uint8, index: uint16, subindex: uint8)
    ensures SdoIndex(MessageSdo(t, id, index, subindex)) == index
  {
  }

  /** The worked example: index 0x3456 is built correctly but read back as 0x56. */
  lemma SdoExample()
    ensures var f := MessageSdo(Write1Byte, 0x12, 0x3456, 0x78);
      f.data[..4] == [0x2F, 0x56, 0x34, 0x78] &&
      SdoFunctionCode(f) == Write1Byte && SdoSubindex(f) == 0x78 &&
      SdoCobid(f) == 0x56 && SdoIndex(f) == 0x3456
  {
  }

  /**
   * The NMT frames of the unit tests: node 0x12 put into operational state and
   * reset, each with the command byte first and the node id second.
   */
  lemma NmtExample()
    ensures var f := MessageNmt(CommandOperational, 0x12);
      f.canId == 0 && f.len == 2 && f.data[..2] == [0x01, 0x12]
    ensures var f := MessageNmt(CommandResetNode, 0x12);
      f.canId == 0 && f.len == 2 && f.data[..2] == [0x81, 0x12] && IsNmt(f)
  {
  }

  /** A built NMT frame is classified as NMT and names node 0 in its COB-ID. */
  lemma MessageNmtIsNmt(t: NmtType, node: uint8)
    requires t.IsCommand()
    ensures IsNmt(MessageNmt(t, node)) && GetId(MessageNmt(t, node)) == 0
  {
  }

  /**
   * Because the id parameter is `uint8_t`, a built SDO frame carries a COB-ID
   * below 0x100, so it never classifies as SDO (ids 0x1 to 0x7F classify as
   * nothing at all).
   */
  lemma MessageSdoIsNotSdo(t: SdoType, id: uint8, index: uint16, subindex: uint8)
    ensures !IsSdo(MessageSdo(t, id, index, subindex))
    ensures CobId(MessageSdo(t, id, index, subindex)) < 0x100
  {
  }

  /** A frame of length 0 reads as unknown / zero, without touching its payload. */
  lemma ShortFrameDefaults(f: CanFrame)
    requires f.len == 0
    ensures SdoFunctionCode(f) == Unknown && SdoCobid(f) == 0 && SdoIndex(f) == 0 && SdoSubindex(f) == 0
  {
  }
}
