/**
 * The Sega cartridge mapper (src/memory/MapperSega.cpp).
 *
 * Four control registers, written through 0xFFFC..0xFFFF, select which 16 KiB
 * ROM bank appears in each of the three CPU slots. The first KiB is never
 * banked. The cartridge-RAM paths test `(control[0] & mask) == 1`, which no
 * byte satisfies, so cartridge RAM is never read or written: slot 2 always
 * reads ROM bank `control[3]`, and slot 3 leaves the caller's byte alone.
 */
module SegaMapper {
  import opened Console

  /** `readMap`'s ROM offset for a slot: the slot's bank times 16 KiB plus the offset in the slot. */
  function BankOffset(bank: bv8, offset: int): int
  {
    offset + bank as int * 0x4000
  }

  class MapperSega {
    /** `mapper_control`: [0] cartridge RAM control, [1..3] banks of slots 0..2. */
    const control: array<bv8>
    /** The ROM image behind `pROM`; reads past its end are undefined in the source. */
    const rom: seq<bv8>
    /** The 32 KiB cartridge RAM behind `pRAM`. */
    const ram: array<bv8>

    ghost predicate Valid()
      reads this
    {
      control.Length == 4 && ram.Length == 0x8000 && control != ram
    }

    /** `MapperSega(cROM, cRAM)`: banks 0, 1, 2 in slots 0, 1, 2, cartridge RAM control clear. */
    constructor (image: seq<bv8>, cartRam: array<bv8>)
      requires cartRam.Length == 0x8000
      ensures Valid() && fresh(control)
      ensures rom == image && ram == cartRam
      ensures control[..] == [0x00, 0x00, 0x01, 0x02]
    {
      rom := image;
      ram := cartRam;
      control := new bv8[4][0x00, 0x00, 0x01, 0x02];
    }

    /** The ROM byte at `i`, or None past the loaded image. */
    function RomAt(i: int): (r: Option<bv8>)
      reads this
      ensures r.Some? <==> 0 <= i < |rom|
      ensures r.Some? ==> r.value == rom[i]
    {
      if 0 <= i < |rom| then Some(rom[i]) else None
    }

    /**
     * `readMap(addr, data)`: the byte the cartridge drives for `addr`, where
     * `data` is the caller's byte, returned unchanged when no branch assigns it.
     */
    function ReadMap(addr: bv16, data: bv8): Option<bv8>
      requires Valid()
      reads this, control, ram
    {
      var ctl := control[0];
      var low := ram[(addr & 0x3fff) as int];
      var high := ram[0x4000 + (addr & 0x3fff) as int];
      if addr <= 0x03ff then RomAt(addr as int)
      else if addr <= 0x3fff then RomAt(BankOffset(control[1], addr as int))
      else if addr <= 0x7fff then RomAt(BankOffset(control[2], addr as int - 0x4000))
      else if addr <= 0xbfff then
        if ctl & 0x08 == 1 then Some(if ctl & 0x04 == 0 then low else high)
        else RomAt(BankOffset(control[3], addr as int - 0x8000))
      else
        if ctl & 0x10 == 1 then Some(if ctl & 0x04 == 0 then high else low)
        else Some(data)
    }

    /**
     * `writeMap(addr, data)`: the cartridge-RAM stores of slots 2 and 3 (never
     * enabled), then a write to 0xFFFC+k stores `data` in control register k.
     */
    method WriteMap(addr: bv16, data: bv8) returns (ok: bool)
      requires Valid()
      modifies control, ram
      ensures ok
      ensures control[..] == if addr >= 0xfffc then old(control[..])[(addr - 0xfffc) as int := data]
                             else old(control[..])
      ensures ram[..] == old(ram[..])
    {
      var ctl := control[0];
      var i := if ctl & 0x04 == 0 then (addr & 0x3fff) as int else 0x4000 + (addr & 0x3fff) as int;
      var j := if ctl & 0x04 == 0 then 0x4000 + (addr & 0x3fff) as int else (addr & 0x3fff) as int;
      if 0x8000 <= addr <= 0xbfff {
        ram[i] := if ctl & 0x08 == 1 then data else ram[i];
      } else if addr >= 0xc000 {
        ram[j] := if ctl & 0x10 == 1 then data else ram[j];
      }
      if addr >= 0xfffc {
        control[addr - 0xfffc] := data;
      }
      ok := true;
    }
  }

  /** Neither cartridge-RAM enable test can hold: `c & 0x08` is 0 or 8 and `c & 0x10` is 0 or 16. */
  lemma CartRamNeverEnabled(c: bv8)
    ensures c & 0x08 != 1 && c & 0x10 != 1
  {
  }

  /** The first KiB reads the ROM directly whatever the control registers hold. */
  lemma FirstKiBUnbanked(m: MapperSega, addr: bv16, data: bv8)
    requires m.Valid() && addr <= 0x03ff
    ensures m.ReadMap(addr, data) == m.RomAt(addr as int)
  {
  }

  /** Slots 0 and 1 read ROM at the slot's bank times 16 KiB plus the offset in the slot. */
  lemma RomSlots(m: MapperSega, addr: bv16, data: bv8)
    requires m.Valid() && 0x0400 <= addr <= 0x7fff
    ensures addr <= 0x3fff ==> m.ReadMap(addr, data) == m.RomAt(addr as int + m.control[1] as int * 0x4000)
    ensures addr >= 0x4000 ==> m.ReadMap(addr, data) == m.RomAt(addr as int - 0x4000 + m.control[2] as int * 0x4000)
  {
  }

  /** Slot 2 always reads ROM bank `control[3]`; slot 3 always hands back the caller's byte. */
  lemma UpperSlots(m: MapperSega, addr: bv16, data: bv8)
    requires m.Valid() && addr >= 0x8000
    ensures addr <= 0xbfff ==> m.ReadMap(addr, data) == m.RomAt(addr as int - 0x8000 + m.control[3] as int * 0x4000)
    ensures addr >= 0xc000 ==> m.ReadMap(addr, data) == Some(data)
  {
    CartRamNeverEnabled(m.control[0]);
  }

  /** With the power-on control bytes {0, 0, 1, 2}, each ROM slot n shows bank n. */
  lemma InitialBanks(m: MapperSega, addr: bv16, data: bv8)
    requires m.Valid() && m.control[..] == [0x00, 0x00, 0x01, 0x02] && addr <= 0xbfff
    ensures m.ReadMap(addr, data) == m.RomAt(addr as int)
  {
    assert m.control[1] == 0 && m.control[2] == 1 && m.control[3] == 2;
    CartRamNeverEnabled(m.control[0]);
  }
}
