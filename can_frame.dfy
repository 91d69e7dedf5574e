/**
 * The raw CAN frame of Linux SocketCAN (`struct can_frame` from <linux/can.h>),
 * reduced to the three fields the CANopen codec uses: a 32-bit identifier,
 * a one-byte data length and an eight-byte payload buffer. The padding and
 * reserved bytes of the kernel structure are not modelled.
 */
module CanFrame {

  /** An unsigned 8-bit integer (`uint8_t`, `__u8`). */
  newtype uint8 = x: int | 0 <= x < 0x100

  /** An unsigned 16-bit integer (`uint16_t`). */
  newtype uint16 = x: int | 0 <= x < 0x1_0000

  /** The payload buffer `data[8]`: always exactly eight bytes. */
  type Payload = s: seq<uint8> | |s| == 8 witness [0, 0, 0, 0, 0, 0, 0, 0]

  /**
   * `can_id` is `canid_t`, a 32-bit value on which the codec uses bit masks,
   * hence a bit-vector; `len` is the number of meaningful payload bytes.
   */
  datatype CanFrame = CanFrame(canId: bv32, len: uint8, data: Payload)

  /** A run of `n` zero bytes. */
  function Zeros(n: nat): (r: seq<uint8>)
    ensures |r| == n
    ensures forall i :: 0 <= i < n ==> r[i] == 0
  {
    if n == 0 then [] else Zeros(n - 1) + [0]
  }
}
