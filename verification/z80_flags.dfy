/**
 * The flag helpers of src/cpu/z80a.cpp (`isP`, `isC`, `isB`, `isO`, `isU`)
 * and the 8-bit accumulator operations built on them.
 *
 * The helpers work on 32-bit unsigned values: `res` is the already-truncated
 * result, `b` the operand and `c` the carry-in, and `bit` the position whose
 * carry (or borrow) is wanted. They recover the other operand as
 * `res - b - c` (or `res + b + c`) and compare masked sums; when the operand
 * plus carry-in wraps to 0 inside the mask (an operand nibble 0xF with carry
 * in at bit 4, operand 0xFF with carry in at bit 8) the carry is lost, which
 * `AdcLosesCarry` exhibits.
 */
module Z80Flags {
  import opened Z80Regs

  /** `isP`: fold the byte to a nibble and look its parity up in 0x6996. */
  function IsP(a: bv8): bool
  {
    var t := (a ^ (a >> 4)) & 0xf;
    (0x6996 as bv16 >> t) & 1 == 0
  }

  /** The bit positions the handlers ask the flag helpers about. */
  predicate FlagBit(bit: bv32) { bit == 4 || bit == 8 || bit == 12 || bit == 16 }

  /** `isC`: carry out of position `bit - 1` of `res - b - c` plus `b + c`. */
  function IsC(res: bv32, b: bv32, c: bv32, bit: bv32): bool
    requires FlagBit(bit)
  {
    var a := res - b - c;
    if bit == 4 then ((a & 0xf) + ((b + c) & 0xf)) >> 4 != 0
    else if bit == 8 then ((a & 0xff) + ((b + c) & 0xff)) >> 8 != 0
    else if bit == 12 then ((a & 0xfff) + ((b + c) & 0xfff)) >> 12 != 0
    else ((a & 0xffff) + ((b + c) & 0xffff)) >> 16 != 0
  }

  /** `isB`: borrow out of position `bit - 1` of `res + b + c` minus `b + c`. */
  function IsB(res: bv32, b: bv32, c: bv32, bit: bv32): bool
    requires FlagBit(bit)
  {
    var a := res + b + c;
    if bit == 4 then MaskedBelow(a, b + c, 0xf)
    else if bit == 8 then MaskedBelow(a, b + c, 0xff)
    else if bit == 12 then MaskedBelow(a, b + c, 0xfff)
    else MaskedBelow(a, b + c, 0xffff)
  }

  /** The comparison at the heart of `isB`, under a given mask. */
  predicate MaskedBelow(a: bv32, d: bv32, mask: bv32)
  {
    (a & mask) < (d & mask)
  }

  /** `isO`: signed overflow of an addition whose sign bit is `bit - 1`. */
  function IsO(res: bv32, b: bv32, c: bv32, bit: bv32): bool
    requires bit == 8 || bit == 16
  {
    var a := res - b - c;
    var sign: bv32 := if bit == 8 then 0x80 else 0x8000;
    (b ^ a ^ sign) & ((b ^ res) & sign) != 0
  }

  /** `isU`: signed overflow of a subtraction whose sign bit is `bit - 1`. */
  function IsU(res: bv32, b: bv32, c: bv32, bit: bv32): bool
    requires bit == 8 || bit == 16
  {
    var a := res + b + c;
    var sign: bv32 := if bit == 8 then 0x80 else 0x8000;
    (b ^ a) & (a ^ res) & sign != 0
  }

  /** The mask of the helpers as the source computes it, `0xffffffff >> (32 - bit)`. */
  function LowMask(bit: bv32): bv32
    requires 1 <= bit <= 32
  {
    0xffff_ffff >> (32 - bit)
  }

  /**
   * At each position the handlers ask about, the computed mask is the
   * literal one `IsC` and `IsB` are written with: the low `bit` bits.
   */
  lemma LowMaskAtFlagBits(bit: bv32)
    requires FlagBit(bit)
    ensures LowMask(bit) == (if bit == 4 then 0xf else if bit == 8 then 0xff else if bit == 12 then 0xfff else 0xffff)
    ensures LowMask(bit) == (1 << bit) - 1
  {
  }

  function Carry(b: bool): bv8 { if b then 1 else 0 }

  // ---------------------------------------------------------------- parity

  /** Number of set bits of a byte. */
  function PopCount(a: bv8): nat
    decreases a
  {
    if a == 0 then 0 else (a & 1) as nat + PopCount(a >> 1)
  }

  /** XOR of all bits, computed the slow way. */
  function XorBits(a: bv8): bv8
  {
    ((a >> 0) ^ (a >> 1) ^ (a >> 2) ^ (a >> 3) ^ (a >> 4) ^ (a >> 5) ^ (a >> 6) ^ (a >> 7)) & 1
  }

  lemma IsPIsXorBits(a: bv8)
    ensures IsP(a) == (XorBits(a) == 0)
  {
  }

  lemma XorBitsStep(a: bv8)
    ensures XorBits(a) == (a & 1) ^ XorBits(a >> 1)
  {
  }

  lemma {:induction false} XorBitsPopCount(a: bv8)
    ensures (XorBits(a) == 0) == (PopCount(a) % 2 == 0)
    decreases a
  {
    if a != 0 {
      XorBitsStep(a);
      XorBitsPopCount(a >> 1);
    }
  }

  /** `isP(a)` holds exactly when `a` has an even number of set bits. */
  lemma IsPEven(a: bv8)
    ensures IsP(a) == (PopCount(a) % 2 == 0)
  {
    IsPIsXorBits(a);
    XorBitsPopCount(a);
  }

  // ---------------------------------------------------------------- 8-bit ALU

  /** ADD, ADC, SUB, SBC, AND, XOR, OR, CP: the order of opcode bits 5..3. */
  datatype AluOp = Add | Adc | Sub | Sbc | And | Xor | Or | Cp

  /** The new accumulator, the flags, and the raw result (`res` for CP). */
  datatype AluOut = AluOut(a: bv8, f: Flags, result: bv8)

  /** S and Z of a byte result, as the handlers set them (`x >> 7`, `x == 0`). */
  function SignZero(fl: Flags, r: bv8): Flags
  {
    fl.(s := r >> 7 == 1, z := r == 0)
  }

  /** `isC(r, v, c, bit)` on a byte result, operand and carry-in. */
  function ByteCarry(r: bv8, v: bv8, cin: bool, bit: bv32): bool
    requires bit == 4 || bit == 8
  {
    IsC(r as bv32, v as bv32, Carry(cin) as bv32, bit)
  }

  /** `isB(r, v, c, bit)` on a byte result, operand and carry-in. */
  function ByteBorrow(r: bv8, v: bv8, cin: bool, bit: bv32): bool
    requires bit == 4 || bit == 8
  {
    IsB(r as bv32, v as bv32, Carry(cin) as bv32, bit)
  }

  function AddFlags(fl: Flags, r: bv8, v: bv8, cin: bool): Flags
  {
    SignZero(fl, r).(h := ByteCarry(r, v, cin, 4), p := IsO(r as bv32, v as bv32, Carry(cin) as bv32, 8),
                     n := false, c := ByteCarry(r, v, cin, 8))
  }

  function SubFlags(fl: Flags, r: bv8, v: bv8, cin: bool): Flags
  {
    SignZero(fl, r).(h := ByteBorrow(r, v, cin, 4), p := IsU(r as bv32, v as bv32, Carry(cin) as bv32, 8),
                     n := true, c := ByteBorrow(r, v, cin, 8))
  }

  function LogicFlags(fl: Flags, r: bv8, half: bool): Flags
  {
    SignZero(fl, r).(h := half, p := IsP(r), n := false, c := false)
  }

  /** `A_ += v + c` with the flags of ADD/ADC: `isC`, `isO` at bits 4 and 8 with carry-in `c`. */
  function AddC(a: bv8, v: bv8, cin: bool, fl: Flags): AluOut
  {
    var r := a + v + Carry(cin);
    AluOut(r, AddFlags(fl, r, v, cin), r)
  }

  /** `A_ -= v + c` with the flags of SUB/SBC: `isB`, `isU` at bits 4 and 8 with carry-in `c`. */
  function SubC(a: bv8, v: bv8, cin: bool, fl: Flags): AluOut
  {
    var r := a - v - Carry(cin);
    AluOut(r, SubFlags(fl, r, v, cin), r)
  }

  /**
   * The accumulator operations of ADDR/ADDN ... CPR/CPN: `a` is A, `v` the
   * operand and `fl` the flags before the instruction. ADD and SUB pass a
   * carry-in of 0, ADC and SBC the old carry flag; CP computes `res` as SUB
   * does but leaves A alone.
   */
  function Alu(op: AluOp, a: bv8, v: bv8, fl: Flags): AluOut
  {
    match op
    case Add => AddC(a, v, false, fl)
    case Adc => AddC(a, v, fl.c, fl)
    case Sub => SubC(a, v, false, fl)
    case Sbc => SubC(a, v, fl.c, fl)
    case And => var r := a & v; AluOut(r, LogicFlags(fl, r, true), r)
    case Xor => var r := a ^ v; AluOut(r, LogicFlags(fl, r, false), r)
    case Or => var r := a | v; AluOut(r, LogicFlags(fl, r, false), r)
    case Cp => var o := SubC(a, v, false, fl); AluOut(a, o.f, o.result)
  }

  /** Carry out of bit 7 of `a + v + cin`: exact unless operand plus carry-in wraps to 0x100. */
  lemma CarryOut8(a: bv8, v: bv8, cin: bool)
    requires !(v == 0xff && cin)
    ensures ByteCarry(a + v + Carry(cin), v, cin, 8) == (a as bv16 + v as bv16 + Carry(cin) as bv16 > 0xff)
  {
  }

  /** Carry out of bit 3: exact unless the operand's low nibble plus carry-in wraps to 0x10. */
  lemma CarryOut4(a: bv8, v: bv8, cin: bool)
    requires !(v & 0xf == 0xf && cin)
    ensures ByteCarry(a + v + Carry(cin), v, cin, 4) == ((a & 0xf) + (v & 0xf) + Carry(cin) > 0xf)
  {
  }

  /** The 8-bit sum is the 16-bit sum with its ninth bit dropped. */
  lemma SumLow8(a: bv8, v: bv8, cin: bool, fl: Flags)
    ensures AddC(a, v, cin, fl).a as bv16 == (a as bv16 + v as bv16 + Carry(cin) as bv16) & 0xff
  {
  }

  /** The 8-bit difference is the 16-bit difference with its upper byte dropped. */
  lemma DifferenceLow8(a: bv8, v: bv8, cin: bool, fl: Flags)
    ensures SubC(a, v, cin, fl).a as bv16 == (a as bv16 - v as bv16 - Carry(cin) as bv16) & 0xff
  {
  }

  /** Borrow out of bit 7 of `a - v - cin`: exact unless operand plus carry-in wraps to 0x100. */
  lemma BorrowIn8(a: bv8, v: bv8, cin: bool)
    requires !(v == 0xff && cin)
    ensures ByteBorrow(a - v - Carry(cin), v, cin, 8) == (a as bv16 < v as bv16 + Carry(cin) as bv16)
  {
  }

  /** Without carry-in the borrow out of bit 7 is exactly `a < v`. */
  lemma CompareBorrow(a: bv8, v: bv8, fl: Flags)
    ensures SubC(a, v, false, fl).f.c == (a < v)
  {
  }

  /** Borrow out of bit 3: exact unless the operand's low nibble plus carry-in wraps to 0x10. */
  lemma BorrowIn4(a: bv8, v: bv8, cin: bool)
    requires !(v & 0xf == 0xf && cin)
    ensures ByteBorrow(a - v - Carry(cin), v, cin, 4) == (a & 0xf < (v & 0xf) + Carry(cin))
  {
  }

  /**
   * ADD and ADC: the 8-bit result is the 9-bit sum modulo 0x100, C is its
   * ninth bit, H the carry out of the low nibble, N clear, S and Z from the
   * result, and the undocumented Y and X untouched; exact unless the
   * operand's low nibble plus carry-in wraps (see `AdcLosesCarry`).
   */
  lemma AddExact(a: bv8, v: bv8, cin: bool, fl: Flags)
    requires !(v & 0xf == 0xf && cin)
    ensures var o := AddC(a, v, cin, fl);
      && o.a as bv16 == (a as bv16 + v as bv16 + Carry(cin) as bv16) & 0xff
      && o.f.c == (a as bv16 + v as bv16 + Carry(cin) as bv16 > 0xff)
      && o.f.h == ((a & 0xf) + (v & 0xf) + Carry(cin) > 0xf)
      && !o.f.n && o.f.z == (o.a == 0) && o.f.s == (o.a >= 0x80)
      && o.f.y == fl.y && o.f.x == fl.x
  {
    SumLow8(a, v, cin, fl);
    CarryOut8(a, v, cin);
    CarryOut4(a, v, cin);
  }

  /** ADD sets P/V exactly on signed overflow: both operands of one sign, the sum of the other. */
  lemma AddOverflow(a: bv8, v: bv8, fl: Flags)
    ensures Alu(Add, a, v, fl).f.p ==
      ((a >= 0x80) == (v >= 0x80) && (Alu(Add, a, v, fl).a >= 0x80) != (a >= 0x80))
  {
  }

  /**
   * SUB and SBC: the result is the difference modulo 0x100, C is the borrow
   * (A below operand plus carry-in), H the borrow from the low nibble, N set;
   * exact unless the operand's low nibble plus carry-in wraps.
   */
  lemma SubExact(a: bv8, v: bv8, cin: bool, fl: Flags)
    requires !(v & 0xf == 0xf && cin)
    ensures var o := SubC(a, v, cin, fl);
      && o.a as bv16 == (a as bv16 - v as bv16 - Carry(cin) as bv16) & 0xff
      && o.f.c == (a as bv16 < v as bv16 + Carry(cin) as bv16)
      && o.f.h == (a & 0xf < (v & 0xf) + Carry(cin))
      && o.f.n && o.f.z == (o.a == 0) && o.f.s == (o.a >= 0x80)
      && o.f.y == fl.y && o.f.x == fl.x
  {
    DifferenceLow8(a, v, cin, fl);
    BorrowIn8(a, v, cin);
    BorrowIn4(a, v, cin);
  }

  /** CP sets the flags exactly as SUB would and leaves A unchanged: C iff A < v, Z iff A = v. */
  lemma CpIsSubWithoutStore(a: bv8, v: bv8, fl: Flags)
    ensures Alu(Cp, a, v, fl).a == a
    ensures Alu(Cp, a, v, fl).f == Alu(Sub, a, v, fl).f
    ensures Alu(Cp, a, v, fl).f.c == (a < v) && Alu(Cp, a, v, fl).f.z == (a == v)
  {
    CompareBorrow(a, v, fl);
  }

  /** AND sets H and clears C; OR and XOR clear both; all three set P to the parity of the result. */
  lemma LogicFacts(op: AluOp, a: bv8, v: bv8, fl: Flags)
    requires op == And || op == Or || op == Xor
    ensures var o := Alu(op, a, v, fl);
      && o.a == (if op == And then a & v else if op == Or then a | v else a ^ v)
      && o.f.h == (op == And) && !o.f.c && !o.f.n
      && o.f.p == (PopCount(o.a) % 2 == 0)
  {
    IsPEven(Alu(op, a, v, fl).a);
  }

  /**
   * ADC with carry in and an operand whose low nibble is 0xF always carries
   * out of bit 3, yet `isC` masks operand plus carry to 0 and reports no half
   * carry; with operand 0xFF the carry out of bit 7 is lost the same way.
   */
  lemma AdcLosesCarry(a: bv8, v: bv8, fl: Flags)
    requires fl.c && v & 0xf == 0xf
    ensures (a & 0xf) + (v & 0xf) + 1 > 0xf && !Alu(Adc, a, v, fl).f.h
    ensures v == 0xff ==> Alu(Adc, a, v, fl).a == a && !Alu(Adc, a, v, fl).f.c
  {
  }

  /** SBC's counterpart: with carry in and operand 0xFF, A is unchanged and no borrow is reported. */
  lemma SbcLosesBorrow(a: bv8, fl: Flags)
    requires fl.c
    ensures Alu(Sbc, a, 0xff, fl).a == a && !Alu(Sbc, a, 0xff, fl).f.c && !Alu(Sbc, a, 0xff, fl).f.h
  {
  }
}
