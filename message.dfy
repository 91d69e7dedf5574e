/**
 * `CAN::Message`: a received or outgoing CAN frame held by value, together
 * with the name of the interface it belongs to. The frame's identifier and
 * length are fields; its eight payload bytes are a buffer that the indexing
 * operator hands out references into.
 */
module CanMessage {
  import opened CanFrame
  import Canopen

  class Message {
    var canId: bv32
    var len: uint8
    var data: array<uint8>
    var iface: string

    /** The payload buffer is the frame's eight-byte `data` array. */
    ghost predicate Valid()
      reads this
    {
      data.Length == 8
    }

    /**
     * `get_frame`: the frame as a value. Its bytes are the buffer's, and the
     * codec's node-id reader sees in it the message's short id.
     */
    function Frame(): (f: CanFrame)
      reads this, data
      requires Valid()
      ensures f.data == data[..]
      ensures Canopen.GetId(f) == IdShort()
    {
      CanFrame(canId, len, data[..])
    }

    /** Copies `frame`; the interface name starts out empty. */
    constructor (frame: CanFrame)
      ensures Valid() && fresh(data)
      ensures Frame() == frame
      ensures iface == ""
    {
      canId := frame.canId;
      len := frame.len;
      data := new uint8[8](i requires 0 <= i < 8 => frame.data[i]);
      iface := "";
    }

    /**
     * The element `operator[](index)` refers to: the index clamped into the
     * buffer, so that no index leaves the eight bytes.
     */
    static function Slot(index: int): (k: int)
      ensures 0 <= k < 8
      ensures index < 0 ==> k == 0
      ensures index > 7 ==> k == 7
      ensures 0 <= index <= 7 ==> k == index
    {
      if index < 0 then 0 else if index > 7 then 7 else index
    }

    /** Reading through `msg[index]`: the frame's byte at the clamped index. */
    function Get(index: int): (b: uint8)
      reads this, data
      requires Valid()
      ensures 0 <= index < 8 ==> b == Frame().data[index]
      ensures index < 0 ==> b == Frame().data[0]
      ensures index > 7 ==> b == Frame().data[7]
    {
      data[Slot(index)]
    }

    /** Writing through `msg[index]`: only the clamped byte changes. */
    method Set(index: int, b: uint8)
      requires Valid()
      modifies data
      ensures Valid()
      ensures data[..] == old(data[..])[Slot(index) := b]
      ensures Frame() == old(Frame()).(data := old(Frame()).data[Slot(index) := b])
    {
      data[Slot(index)] := b;
    }

    /** `id`: the full identifier of the held frame; its low seven bits are the short id. */
    function Id(): (r: bv32)
      reads this, data
      ensures Valid() ==> r == Frame().canId
      ensures r & 0x7F == IdShort() as bv32
    {
      canId
    }

    /** `id_short`: the CANopen node id, the identifier's low seven bits. */
    function IdShort(): (r: uint8)
      reads this
      ensures r < 128
      ensures r as bv32 == canId & 0x7F
    {
      (canId & 0x7F) as uint8
    }

    /** `size`: the length byte of the held frame. */
    function Size(): (r: uint8)
      reads this, data
      ensures Valid() ==> r == Frame().len
    {
      len
    }

    /** `get_interface`: the stored name, which no frame operation touches. */
    function Interface(): (r: string)
      reads this
      ensures r == iface
    {
      iface
    }

    /** `set_id`: replaces the identifier and nothing else. */
    method SetId(id: bv32)
      requires Valid()
      modifies this`canId
      ensures Valid()
      ensures Id() == id
      ensures Frame() == old(Frame()).(canId := id)
    {
      canId := id;
    }

    /** `set_id_short`: the identifier becomes the low seven bits of `id`. */
    method SetIdShort(id: uint8)
      requires Valid()
      modifies this`canId
      ensures Valid()
      ensures canId == (id as bv32) & 0x7F
      ensures Id() == IdShort() as bv32 == (id as bv32) & 0x7F
      ensures Frame() == old(Frame()).(canId := (id as bv32) & 0x7F)
    {
      canId := (id as bv32) & 0x7F;
    }

    /** `set_size`: replaces the length, with no check against the eight-byte buffer. */
    method SetSize(size: uint8)
      requires Valid()
      modifies this`len
      ensures Valid()
      ensures Size() == size
      ensures Frame() == old(Frame()).(len := size)
    {
      len := size;
    }

    /** `set_interface`. */
    method SetInterface(name: string)
      requires Valid()
      modifies this`iface
      ensures Valid()
      ensures Interface() == name
      ensures Frame() == old(Frame())
    {
      iface := name;
    }
  }

  /** The message's short id agrees with the codec's node-id reader on its frame. */
  lemma IdShortIsGetId(m: Message)
    requires m.Valid()
    ensures m.IdShort() == Canopen.GetId(m.Frame())
  {
  }

  /** Setting the short id and reading the id back, as a client sees it. */
  method ShortIdScenario(frame: CanFrame)
  {
    var m := new Message(frame);
    m.SetIdShort(0x92);
    assert m.Id() == 0x12 && m.IdShort() == 0x12;
    assert m.Frame().data == frame.data && m.Size() == frame.len && m.Interface() == "";
    assert m.Get(-3) == frame.data[0] && m.Get(12) == frame.data[7] && m.Get(5) == frame.data[5];
    m.SetInterface("vcan0");
    m.SetSize(9);
    assert m.Interface() == "vcan0" && m.Size() == 9 && m.Id() == 0x12;
  }
}
