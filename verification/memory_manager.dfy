/**
 * The memory-control register at I/O port 0x3E (src/memory/memorymanager.cpp).
 *
 * One byte whose bitfields enable the slots and the system RAM; the enables
 * are active low, so bit 4 (`ram_en`) clear means the 8 KiB system RAM
 * answers at 0xC000..0xFFFF.
 */
module MemoryControl {

  /** The `ram_en` bitfield of the register: bit 4, after two unused bits, `io_en` and `bios_en`. */
  function RamEn(b: bv8): bv8 { (b >> 4) & 1 }

  /** System RAM is enabled exactly when bit 4 of the register is clear. */
  function RamEnabled(b: bv8): (r: bool)
    ensures r <==> b & 0x10 == 0
  {
    RamEn(b) == 0
  }

  /** Two register values agree on RAM enabling when they agree on bit 4, whatever the other bits. */
  lemma RamEnabledOnlyBit4(x: bv8, y: bv8)
    requires x & 0x10 == y & 0x10
    ensures RamEnabled(x) == RamEnabled(y)
  {
  }

  class MemoryManager {
    var reg: bv8

    /** The register starts at 0, so system RAM starts enabled. */
    constructor ()
      ensures reg == 0 && SystemRamEnabled()
    {
      reg := 0x00;
    }

    /** `read`: the whole register, whatever the port address. */
    method Read(addr: bv8) returns (data: bv8)
      ensures data == reg
    {
      data := reg;
    }

    /** `write`: the whole register is replaced, whatever the port address. */
    method Write(addr: bv8, data: bv8) returns (ok: bool)
      modifies this
      ensures ok && reg == data
      ensures SystemRamEnabled() <==> data & 0x10 == 0
    {
      reg := data;
      ok := true;
    }

    function SystemRamEnabled(): (r: bool)
      reads this
      ensures r <==> reg & 0x10 == 0
    {
      RamEnabled(reg)
    }
  }
}
