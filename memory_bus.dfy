/**
 * The memory bus: a flat buffer of RAM_SIZE bytes addressed by 16-bit
 * addresses, with a range check in front of every read and write.
 */
module MemoryBus {

  import opened FixedWidth

  /** Number of RAM cells. One less than the 65536 addresses a 16-bit value can name. */
  const RAM_SIZE: nat := 0xFFFF

  /**
   * The bus range check. It compares a 16-bit address against 0 and 0xFFFF,
   * so it accepts every address, 0xFFFF included.
   */
  function AddressInRange(address: u16): (r: bool)
    ensures r
  {
    address >= 0x00 && address <= 0xFFFF
  }

  /**
   * The one address the range check accepts that does not name a cell of the
   * buffer: 0xFFFF. A read or write there indexes one past the buffer.
   */
  lemma RangeCheckAdmitsAddressPastBuffer(address: u16)
    ensures AddressInRange(address) && address >= RAM_SIZE <==> address == 0xFFFF
  {
  }

  /** What a read outside the range check would return. */
  const NoData: u8 := 0x00

  class Bus {
    var ram: array<u8>

    ghost predicate Valid()
      reads this
    {
      ram.Length == RAM_SIZE
    }

    /** Allocates the buffer and fills all RAM_SIZE cells with zero. */
    constructor Init()
      ensures Valid() && fresh(ram)
      ensures forall i :: 0 <= i < RAM_SIZE ==> ram[i] == 0
    {
      var cells := new u8[RAM_SIZE];
      for i := 0 to RAM_SIZE
        invariant forall j :: 0 <= j < i ==> cells[j] == 0
      {
        cells[i] := 0;
      }
      ram := cells;
    }

    /**
     * Stores one byte. Only the addressed cell changes. The range check always
     * passes, so the caller must keep the address inside the buffer.
     */
    method Write(address: u16, data: u8)
      requires Valid() && address < RAM_SIZE
      modifies ram
      ensures ram[..] == old(ram[..])[address := data]
      ensures ram[address] == data
      ensures forall i :: 0 <= i < RAM_SIZE && i != address ==> ram[i] == old(ram[i])
    {
      if AddressInRange(address) {
        ram[address] := data;
      }
    }

    /**
     * Loads one byte and changes nothing. The NoData fallback behind the range
     * check is never taken.
     */
    method Read(address: u16) returns (data: u8)
      requires Valid() && address < RAM_SIZE
      ensures data == ram[address]
    {
      if AddressInRange(address) {
        data := ram[address];
      } else {
        data := NoData;
      }
    }
  }

  /**
   * A write followed by a read through the same bus: reading the written
   * address gives the written byte, and any other address reads as before.
   */
  method WriteThenRead(bus: Bus, a: u16, d: u8, b: u16) returns (r: u8)
    requires bus.Valid() && a < RAM_SIZE && b < RAM_SIZE
    modifies bus.ram
    ensures r == if a == b then d else old(bus.ram[b])
  {
    bus.Write(a, d);
    r := bus.Read(b);
  }
}
