/**
 * The fixed-width unsigned integers the emulator stores its state in, and the
 * wrap-around that C's unsigned arithmetic performs when a result is stored
 * back into one of them.
 */
module FixedWidth {

  type u8 = x: int | 0 <= x < 0x100
  type u16 = x: int | 0 <= x < 0x1_0000
  type u32 = x: int | 0 <= x < 0x1_0000_0000

  /** Storing an int into a `uint8_t`: keeps it modulo 2^8. */
  function Wrap8(x: int): (r: u8)
    ensures 0 <= x < 0x100 ==> r == x
    ensures x == -1 ==> r == 0xFF
    ensures x == 0x100 ==> r == 0
  {
    x % 0x100
  }

  /** Storing an int into a `uint16_t`: keeps it modulo 2^16. */
  function Wrap16(x: int): (r: u16)
    ensures 0 <= x < 0x1_0000 ==> r == x
    ensures x == 0x1_0000 ==> r == 0
  {
    x % 0x1_0000
  }

  /** Storing an int into a `uint32_t`: keeps it modulo 2^32. */
  function Wrap32(x: int): (r: u32)
    ensures 0 <= x < 0x1_0000_0000 ==> r == x
    ensures x == 0x1_0000_0000 ==> r == 0
  {
    x % 0x1_0000_0000
  }
}
