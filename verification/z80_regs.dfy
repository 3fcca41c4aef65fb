/**
 * Register layout of the Z80 core (src/cpu/z80a.h).
 *
 * Every register pair is a 16-bit word whose first-named register is the
 * high byte (A of AF, B of BC, I of IR, W of WZ), the flag register F is a
 * bitfield (C in bit 0 up to S in bit 7), and an instruction's 16-bit
 * immediate is assembled little-endian from the fetched opcode bytes.
 */
module Z80Regs {

  /** High and low byte of a register pair (`x.b.h`, `x.b.l`). */
  function Hi(w: bv16): bv8 { (w >> 8) as bv8 }
  function Lo(w: bv16): bv8 { (w & 0xff) as bv8 }

  /** The pair whose high byte is `h` and whose low byte is `l`. */
  function Pair(h: bv8, l: bv8): (w: bv16)
    ensures Hi(w) == h && Lo(w) == l
  {
    (h as bv16 << 8) | l as bv16
  }

  lemma PairOfHalves(w: bv16)
    ensures Pair(Hi(w), Lo(w)) == w
  {
  }

  /** Writing one half of a pair leaves the other half alone. */
  function WithHi(w: bv16, h: bv8): (r: bv16)
    ensures Hi(r) == h && Lo(r) == Lo(w)
  {
    Pair(h, Lo(w))
  }

  function WithLo(w: bv16, l: bv8): (r: bv16)
    ensures Lo(r) == l && Hi(r) == Hi(w)
  {
    Pair(Hi(w), l)
  }

  /** `OPW(x)`: opcode[x] is the low byte, opcode[x+1] the high byte. */
  function Opw(op: seq<bv8>, x: nat): (w: bv16)
    requires x + 1 < |op|
    ensures Lo(w) == op[x] && Hi(w) == op[x + 1]
  {
    (op[x + 1] as bv16 << 8) + op[x] as bv16
  }

  /** Sign-extension of an 8-bit displacement, `(int8_t)d`, as a 16-bit two's complement addend. */
  function Disp(d: bv8): (w: bv16)
    ensures d < 0x80 ==> w as int == d as int
    ensures d >= 0x80 ==> w as int == d as int - 0x100 + 0x10000
  {
    if d < 0x80 then d as bv16 else d as bv16 | 0xff00
  }

  /** The F register seen through the bitfield struct of `PAIR2`. */
  datatype Flags = Flags(s: bool, z: bool, y: bool, h: bool, x: bool, p: bool, n: bool, c: bool)

  /** Flag masks of the FLAGS enumeration. */
  const SM: bv8 := 0x80
  const ZM: bv8 := 0x40
  const YM: bv8 := 0x20
  const HM: bv8 := 0x10
  const XM: bv8 := 0x08
  const PM: bv8 := 0x04
  const NM: bv8 := 0x02
  const CM: bv8 := 0x01

  function Bit(b: bool, m: bv8): bv8 { if b then m else 0 }

  /** The byte holding the bitfield: cf in bit 0, nf 1, pf 2, xf 3, hf 4, yf 5, zf 6, sf 7. */
  function Pack(fl: Flags): (f: bv8)
    ensures (f & SM != 0) == fl.s && (f & ZM != 0) == fl.z && (f & YM != 0) == fl.y
    ensures (f & HM != 0) == fl.h && (f & XM != 0) == fl.x && (f & PM != 0) == fl.p
    ensures (f & NM != 0) == fl.n && (f & CM != 0) == fl.c
  {
    Bit(fl.s, SM) | Bit(fl.z, ZM) | Bit(fl.y, YM) | Bit(fl.h, HM)
    | Bit(fl.x, XM) | Bit(fl.p, PM) | Bit(fl.n, NM) | Bit(fl.c, CM)
  }

  function Unpack(f: bv8): Flags
  {
    Flags(f & SM != 0, f & ZM != 0, f & YM != 0, f & HM != 0,
          f & XM != 0, f & PM != 0, f & NM != 0, f & CM != 0)
  }

  /** The two views of F are the same storage: the conversions are mutually inverse. */
  lemma PackUnpack(f: bv8)
    ensures Pack(Unpack(f)) == f
  {
  }

  lemma UnpackPack(fl: Flags)
    ensures Unpack(Pack(fl)) == fl
  {
  }

  /** The register file of `Z80A`: main, shadow, index and special pairs. */
  datatype Regs = Regs(af: bv16, bc: bv16, de: bv16, hl: bv16,
                       af1: bv16, bc1: bv16, de1: bv16, hl1: bv16,
                       ir: bv16, ix: bv16, iy: bv16, sp: bv16, pc: bv16, wz: bv16)

  function A(r: Regs): bv8 { Hi(r.af) }
  function F(r: Regs): Flags { Unpack(Lo(r.af)) }
  function B(r: Regs): bv8 { Hi(r.bc) }
  function C(r: Regs): bv8 { Lo(r.bc) }
  function I(r: Regs): bv8 { Hi(r.ir) }
  function R(r: Regs): bv8 { Lo(r.ir) }

  function WithA(r: Regs, v: bv8): (r': Regs)
    ensures A(r') == v && F(r') == F(r)
  {
    r.(af := WithHi(r.af, v))
  }

  function WithF(r: Regs, fl: Flags): (r': Regs)
    ensures A(r') == A(r) && F(r') == fl
  {
    UnpackPack(fl);
    r.(af := WithLo(r.af, Pack(fl)))
  }

  /** EX AF,AF' on the register file: AF trades places with its shadow. */
  function SwapAf(r: Regs): Regs
  {
    r.(af := r.af1, af1 := r.af)
  }

  /** EXX on the register file: BC, DE and HL trade places with their shadows. */
  function SwapSets(r: Regs): Regs
  {
    r.(bc := r.bc1, bc1 := r.bc, de := r.de1, de1 := r.de, hl := r.hl1, hl1 := r.hl)
  }

  /** Both exchanges are involutions: doing one twice restores every pair. */
  lemma ExchangesInvolutive(r: Regs)
    ensures SwapAf(SwapAf(r)) == r && SwapSets(SwapSets(r)) == r
  {
  }

  /** Which pair stands in for H, L and (HL) under the current prefix. */
  datatype Index = UseHL | UseIX | UseIY

  function IndexPair(r: Regs, x: Index): bv16
  {
    match x
    case UseHL => r.hl
    case UseIX => r.ix
    case UseIY => r.iy
  }

  /** The pairs that no register code can name: PC, IR, WZ and the shadow set. */
  predicate SameSpecial(r: Regs, r': Regs)
  {
    r'.pc == r.pc && r'.ir == r.ir && r'.wz == r.wz &&
    r'.af1 == r.af1 && r'.bc1 == r.bc1 && r'.de1 == r.de1 && r'.hl1 == r.hl1
  }

  function WithIndexPair(r: Regs, x: Index, w: bv16): (r': Regs)
    ensures IndexPair(r', x) == w
    ensures r'.af == r.af && r'.bc == r.bc && r'.de == r.de && r'.sp == r.sp && SameSpecial(r, r')
  {
    match x
    case UseHL => r.(hl := w)
    case UseIX => r.(ix := w)
    case UseIY => r.(iy := w)
  }

  /** A register code 0..7 other than 6, the memory operand. */
  predicate IsRegCode(code: bv8) { code < 8 && code != 6 }

  /**
   * The 8-bit register named by `code`: 0 B, 1 C, 2 D, 3 E, 4 H, 5 L, 7 A,
   * where H and L are the halves of the pair chosen by `x`.
   */
  function Reg8(r: Regs, code: bv8, x: Index): bv8
    requires IsRegCode(code)
  {
    match code
    case 0 => Hi(r.bc)
    case 1 => Lo(r.bc)
    case 2 => Hi(r.de)
    case 3 => Lo(r.de)
    case 4 => Hi(IndexPair(r, x))
    case 5 => Lo(IndexPair(r, x))
    case _ => Hi(r.af)
  }

  function SetReg8(r: Regs, code: bv8, x: Index, v: bv8): (r': Regs)
    requires IsRegCode(code)
    ensures Reg8(r', code, x) == v
    ensures F(r') == F(r) && r'.sp == r.sp && SameSpecial(r, r')
  {
    match code
    case 0 => r.(bc := WithHi(r.bc, v))
    case 1 => r.(bc := WithLo(r.bc, v))
    case 2 => r.(de := WithHi(r.de, v))
    case 3 => r.(de := WithLo(r.de, v))
    case 4 => WithIndexPair(r, x, WithHi(IndexPair(r, x), v))
    case 5 => WithIndexPair(r, x, WithLo(IndexPair(r, x), v))
    case _ => r.(af := WithHi(r.af, v))
  }

  /** Writing one register code leaves every other code's register as it was. */
  lemma SetReg8Other(r: Regs, code: bv8, x: Index, v: bv8, other: bv8)
    requires IsRegCode(code) && IsRegCode(other) && other != code
    ensures Reg8(SetReg8(r, code, x, v), other, x) == Reg8(r, other, x)
  {
    match code
    case 0 =>
    case 1 =>
    case 2 =>
    case 3 =>
    case 4 =>
    case 5 =>
    case _ =>
  }

  /** The 16-bit pair named by a 2-bit code, with pair 2 chosen by `x` (BC, DE, HL/IX/IY, SP). */
  function Pair16(r: Regs, code: bv8, x: Index): bv16
    requires code < 4
  {
    match code
    case 0 => r.bc
    case 1 => r.de
    case 2 => IndexPair(r, x)
    case _ => r.sp
  }

  function SetPair16(r: Regs, code: bv8, x: Index, w: bv16): (r': Regs)
    requires code < 4
    ensures Pair16(r', code, x) == w
    ensures r'.af == r.af && SameSpecial(r, r')
  {
    match code
    case 0 => r.(bc := w)
    case 1 => r.(de := w)
    case 2 => WithIndexPair(r, x, w)
    case _ => r.(sp := w)
  }

  /** The pair named by PUSH/POP's 2-bit code: BC, DE, HL, AF. */
  function StackPair(r: Regs, code: bv8): bv16
    requires code < 4
  {
    match code
    case 0 => r.bc
    case 1 => r.de
    case 2 => r.hl
    case _ => r.af
  }

  function SetStackPair(r: Regs, code: bv8, w: bv16): (r': Regs)
    requires code < 4
    ensures StackPair(r', code) == w
    ensures r'.sp == r.sp && SameSpecial(r, r')
  {
    match code
    case 0 => r.(bc := w)
    case 1 => r.(de := w)
    case 2 => r.(hl := w)
    case _ => r.(af := w)
  }

  /** The condition named by a 3-bit code: NZ, Z, NC, C, PO, PE, P, M. */
  function Cond(fl: Flags, cc: bv8): bool
    requires cc < 8
  {
    match cc
    case 0 => !fl.z
    case 1 => fl.z
    case 2 => !fl.c
    case 3 => fl.c
    case 4 => !fl.p
    case 5 => fl.p
    case 6 => !fl.s
    case _ => fl.s
  }

  /** Odd codes test a flag, even codes its negation. */
  lemma CondPairs(fl: Flags, cc: bv8)
    requires cc < 8 && cc % 2 == 0
    ensures Cond(fl, cc + 1) == !Cond(fl, cc)
  {
  }
}
