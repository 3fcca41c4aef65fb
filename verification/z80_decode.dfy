/**
 * The value-level half of the Z80 interpreter of src/cpu/z80a.cpp: the
 * memory seen through `memRd`/`memWr`, the decoding of fetched bytes into a
 * table index, operand selection under the DD/FD/CB prefixes, the flag
 * updates of single handlers, and the taken/not-taken result that picks an
 * instruction's cycle count.
 */
module Z80Decode {
  import opened Z80Regs
  import opened Z80Flags
  import opened Z80Table

  // ---------------------------------------------------------------- bus

  /** The 64 KiB address space seen through `memRd`/`memWr`. */
  type Memory = bv16 -> bv8

  /** `memWr(a, v)`. */
  function Poke(m: Memory, a: bv16, v: bv8): (m': Memory)
    ensures m'(a) == v
    ensures forall b :: b != a ==> m'(b) == m(b)
  {
    b => if b == a then v else m(b)
  }

  /** `memRd16(a)`: the low byte at `a`, the high byte at `a + 1` (wrapping). */
  function Peek16(m: Memory, a: bv16): (w: bv16)
    ensures Lo(w) == m(a) && Hi(w) == m(a + 1)
  {
    Pair(m(a + 1), m(a))
  }

  /** `memWr16(a, w)`: the low byte to `a`, then the high byte to `a + 1`. */
  function Poke16(m: Memory, a: bv16, w: bv16): (m': Memory)
    ensures m'(a) == Lo(w) && m'(a + 1) == Hi(w)
    ensures forall b :: b != a && b != a + 1 ==> m'(b) == m(b)
  {
    Poke(Poke(m, a, Lo(w)), a + 1, Hi(w))
  }

  /** A word written with `memWr16` reads back unchanged with `memRd16`. */
  lemma Peek16Poke16(m: Memory, a: bv16, w: bv16)
    ensures Peek16(Poke16(m, a, w), a) == w
  {
    PairOfHalves(w);
  }

  /**
   * `stkWr16(SP_, w)` writes the low byte to SP-2 and the high byte to SP-1
   * and then lowers SP by 2; CALL's `SP_ -= 2; memWr16(SP_, PC_)` has the
   * same effect.
   */
  function PushMem(r: Regs, m: Memory, w: bv16): Memory
  {
    Poke16(m, r.sp - 2, w)
  }

  /**
   * PUSH then POP at the lowered SP gives back the word pushed, its low
   * byte at SP - 2, and SP returns to where it was.
   */
  lemma PushThenPop(r: Regs, m: Memory, w: bv16)
    ensures PushMem(r, m, w)(r.sp - 2) == Lo(w) && PushMem(r, m, w)(r.sp - 1) == Hi(w)
    ensures Peek16(PushMem(r, m, w), r.sp - 2) == w
    ensures (r.sp - 2) + 2 == r.sp
  {
    Peek16Poke16(m, r.sp - 2, w);
  }

  // ---------------------------------------------------------------- decode

  /** Which of the prefix flags `cbprefix` ... `fdcbprefix` the decoder set. */
  datatype Prefix = NoPrefix | CBPrefix | DDPrefix | EDPrefix | FDPrefix | DDCBPrefix | FDCBPrefix

  function DecodePrefix(op: seq<bv8>): Prefix
    requires |op| == 4
  {
    if op[0] == 0xcb then CBPrefix
    else if op[0] == 0xdd then (if op[1] != 0xcb then DDPrefix else DDCBPrefix)
    else if op[0] == 0xed then EDPrefix
    else if op[0] == 0xfd then (if op[1] != 0xcb then FDPrefix else FDCBPrefix)
    else NoPrefix
  }

  /** The group of `instSet` a prefix selects (main, CB, DD, ED, FD, DD CB, FD CB). */
  function Group(p: Prefix): bv16
  {
    match p
    case NoPrefix => 0
    case CBPrefix => 1
    case DDPrefix => 2
    case EDPrefix => 3
    case FDPrefix => 4
    case DDCBPrefix => 5
    case FDCBPrefix => 6
  }

  /** The byte that selects the entry inside its group: the opcode after the prefixes. */
  function KeyByte(op: seq<bv8>): bv8
    requires |op| == 4
  {
    match DecodePrefix(op)
    case NoPrefix => op[0]
    case DDCBPrefix => op[3]
    case FDCBPrefix => op[3]
    case _ => op[1]
  }

  /**
   * `indexOp` as `clock` computes it from the four fetched bytes: always a
   * valid index of the 1792-entry table, and exactly group * 0x100 plus the
   * selecting byte.
   */
  function DecodeIndex(op: seq<bv8>): (i: bv16)
    requires |op| == 4
    ensures i < 0x700
    ensures i == Group(DecodePrefix(op)) * 0x100 + KeyByte(op) as bv16
  {
    if op[0] == 0xcb then op[1] as bv16 + 0x100
    else if op[0] == 0xdd then (if op[1] != 0xcb then op[1] as bv16 + 0x200 else op[3] as bv16 + 0x500)
    else if op[0] == 0xed then op[1] as bv16 + 0x300
    else if op[0] == 0xfd then (if op[1] != 0xcb then op[1] as bv16 + 0x400 else op[3] as bv16 + 0x600)
    else op[0] as bv16
  }

  /** Distinct selecting bytes under one prefix decode to distinct entries. */
  lemma DecodeIndexInjective(op: seq<bv8>, op': seq<bv8>)
    requires |op| == 4 && |op'| == 4
    requires DecodePrefix(op) == DecodePrefix(op')
    ensures (DecodeIndex(op) == DecodeIndex(op')) == (KeyByte(op) == KeyByte(op'))
  {
  }

  /**
   * The refresh register after a fetch: bit 7 is kept, the low seven bits
   * count up by 1 for an unprefixed opcode and by 2 for a prefixed one.
   */
  function NextR(r: bv8, index: bv16): (r': bv8)
    ensures r' & 0x80 == r & 0x80
    ensures r' & 0x7f == (r + (if index <= 0xff then 1 else 2)) & 0x7f
  {
    var bit := r & 0x80;
    var r1 := if index <= 0xff then r + 1 else r + 2;
    bit + (r1 & 0x7f)
  }

  /** The four bytes `OPB(0)`..`OPB(3)` read at PC. */
  function Fetched(m: Memory, pc: bv16): (op: seq<bv8>)
    ensures |op| == 4 && op[0] == m(pc)
  {
    [m(pc), m(pc + 1), m(pc + 2), m(pc + 3)]
  }

  // ---------------------------------------------------------------- operand selection

  /** `ddprefix | fdprefix`, the offset of the opcode byte inside a DD/FD instruction. */
  function IdxD(p: Prefix): nat
  {
    if p == DDPrefix || p == FDPrefix then 1 else 0
  }

  /** Which pair H and L name: IX under DD, IY under FD, HL otherwise. */
  function IdxOf(p: Prefix): Index
  {
    if p == DDPrefix then UseIX else if p == FDPrefix then UseIY else UseHL
  }

  /** The memory operand `(HL)`, `(IX+d)` or `(IY+d)`, d = `(int8_t)OPB(2)`. */
  function IdxAddr(r: Regs, op: seq<bv8>, p: Prefix): bv16
    requires |op| == 4
  {
    if p == DDPrefix then r.ix + Disp(op[2])
    else if p == FDPrefix then r.iy + Disp(op[2])
    else r.hl
  }

  /** `cbprefix + (ddcbprefix | fdcbprefix) * 3`, the opcode byte of a CB-group instruction. */
  function CbD(p: Prefix): nat
  {
    if p == CBPrefix then 1 else if p == DDCBPrefix || p == FDCBPrefix then 3 else 0
  }

  /** The memory operand of the CB group: `(IX+d)` under DD CB, `(IY+d)` under FD CB, else `(HL)`. */
  function CbAddr(r: Regs, op: seq<bv8>, p: Prefix): bv16
    requires |op| == 4
  {
    if p == DDCBPrefix then r.ix + Disp(op[2])
    else if p == FDCBPrefix then r.iy + Disp(op[2])
    else r.hl
  }

  /** Source code `code` of the 8-bit ALU group: a register, or the memory operand for 6. */
  function Operand(r: Regs, m: Memory, op: seq<bv8>, p: Prefix, code: bv8): bv8
    requires |op| == 4 && code < 8
  {
    if code == 6 then m(IdxAddr(r, op, p)) else Reg8(r, code, IdxOf(p))
  }

  /** Source code `code` of the CB group, where H and L are never replaced by IX or IY halves. */
  function CbOperand(r: Regs, m: Memory, op: seq<bv8>, p: Prefix, code: bv8): bv8
    requires |op| == 4 && code < 8
  {
    if code == 6 then m(CbAddr(r, op, p)) else Reg8(r, code, UseHL)
  }

  /** Write-back of the CB group to a register (code 6 goes to memory instead). */
  function CbPutReg(r: Regs, code: bv8, v: bv8): Regs
    requires code < 8
  {
    if code == 6 then r else SetReg8(r, code, UseHL, v)
  }

  function CbPutMem(r: Regs, m: Memory, op: seq<bv8>, p: Prefix, code: bv8, v: bv8): Memory
    requires |op| == 4
  {
    if code == 6 then Poke(m, CbAddr(r, op, p), v) else m
  }

  // ---------------------------------------------------------------- flag updates of single handlers

  /** `INC`: S, Z from the result, H from `isC(u8, 1, 0, 4)`, P/V iff the result is 0x80, N clear. */
  function IncFlags(fl: Flags, v: bv8): Flags
  {
    SignZero(fl, v).(h := IsC(v as bv32, 1, 0, 4), p := v == 0x80, n := false)
  }

  /** `DEC`: H from `isB(u8, 1, 0, 4)`, P/V iff the result is 0x7F, N set. */
  function DecFlags(fl: Flags, v: bv8): Flags
  {
    SignZero(fl, v).(h := IsB(v as bv32, 1, 0, 4), p := v == 0x7f, n := true)
  }

  /** INC sets H exactly when the low nibble wraps; P/V exactly when 0x7F becomes 0x80; C is kept. */
  lemma IncFlagsExact(fl: Flags, v: bv8)
    ensures IncFlags(fl, v + 1).h == (v & 0xf == 0xf)
    ensures IncFlags(fl, v + 1).p == (v == 0x7f)
    ensures IncFlags(fl, v + 1).c == fl.c
  {
  }

  /** DEC sets H exactly when the low nibble borrows; P/V exactly when 0x80 becomes 0x7F. */
  lemma DecFlagsExact(fl: Flags, v: bv8)
    ensures DecFlags(fl, v - 1).h == (v & 0xf == 0)
    ensures DecFlags(fl, v - 1).p == (v == 0x80)
    ensures DecFlags(fl, v - 1).c == fl.c
  {
  }

  /** S, Z and parity with H and N cleared: IN r,(C), RLD, RRD and the CB shifts. */
  function ParityFlags(fl: Flags, v: bv8): Flags
  {
    SignZero(fl, v).(h := false, p := IsP(v), n := false)
  }

  /** The rotates and shifts of the CB group, in opcode order. */
  datatype ShiftOp = Rlc | Rl | Rrc | Rr | Sla | Sra | Sll | Srl

  /** Result and carry-out of one rotate or shift of `w` with carry-in `cin`. */
  function Shift(k: ShiftOp, w: bv8, cin: bool): (bv8, bool)
  {
    match k
    case Rlc => ((w << 1) + (w >> 7), w >> 7 == 1)
    case Rl => ((w << 1) + Carry(cin), w >> 7 == 1)
    case Rrc => ((w >> 1) | ((w & 1) << 7), w & 1 == 1)
    case Rr => ((w >> 1) | (Carry(cin) << 7), w & 1 == 1)
    case Sla => (w << 1, w >> 7 == 1)
    case Sra => ((w >> 1) | (w & 0x80), w & 1 == 1)
    case Sll => ((w << 1) | 1, w >> 7 == 1)
    case Srl => (w >> 1, w & 1 == 1)
  }

  /** RRC undoes RLC, and RR undoes RL when given back the carry RL shifted out. */
  lemma RotateInverse(w: bv8, cin: bool)
    ensures Shift(Rrc, Shift(Rlc, w, cin).0, cin).0 == w
    ensures var (v, c) := Shift(Rl, w, cin); Shift(Rr, v, c) == (w, cin)
  {
  }

  /** SRA keeps the sign bit; SRL clears it; both drop bit 0 into the carry. */
  lemma ShiftRightFacts(w: bv8, cin: bool)
    ensures Shift(Sra, w, cin).0 & 0x80 == w & 0x80 && Shift(Srl, w, cin).0 & 0x80 == 0
    ensures Shift(Sra, w, cin).1 == Shift(Srl, w, cin).1 == (w & 1 == 1)
    ensures Shift(Srl, w, cin).0 as int == w as int / 2
  {
  }

  /** The correction `DAA` adds to the accumulator, picked by `status` from H, C, N and A's digits. */
  function DaaAdjust(a: bv8, fl: Flags): bv8
  {
    var status := (if fl.h || a & 0x0f > 9 then 1 else 0) + (if fl.c || a > 0x99 then 2 else 0);
    if status == 1 then a + (if fl.n then 0xfa else 0x06)
    else if status == 2 then a + (if fl.n then 0xa0 else 0x60)
    else if status == 3 then a + (if fl.n then 0x9a else 0x66)
    else a
  }

  /** The accumulator byte after `DAA`, and its flags. */
  function Daa(a: bv8, fl: Flags): AluOut
  {
    var c := fl.c || a > 0x99;
    var h := if fl.n && !fl.h then false
             else if fl.n && fl.h then a & 0x0f < 6
             else a & 0x0f >= 0x0a;
    var a' := DaaAdjust(a, fl);
    AluOut(a', SignZero(fl, a').(h := h, p := IsP(a'), c := c), a')
  }

  /** ADD HL/IX/IY,ss: H = `isC(.., 12)`, N clear, C = `isC(.., 16)`; S, Z and P/V kept. */
  function Add16Flags(fl: Flags, w: bv16, v: bv16): Flags
  {
    fl.(h := IsC(w as bv32, v as bv32, 0, 12), n := false, c := IsC(w as bv32, v as bv32, 0, 16))
  }

  /** ADC HL,ss: S from bit 15, Z, H = `isC(.., 12)`, P/V = `isO(.., 16)`, N clear, C = `isC(.., 16)`. */
  function Adc16Flags(fl: Flags, w: bv16, v: bv16, cin: bool): Flags
  {
    var c := Carry(cin) as bv32;
    fl.(s := w >> 15 == 1, z := w == 0, h := IsC(w as bv32, v as bv32, c, 12),
        p := IsO(w as bv32, v as bv32, c, 16), n := false, c := IsC(w as bv32, v as bv32, c, 16))
  }

  /** SBC HL,ss: as ADC with `isB` and `isU`, N set. */
  function Sbc16Flags(fl: Flags, w: bv16, v: bv16, cin: bool): Flags
  {
    var c := Carry(cin) as bv32;
    fl.(s := w >> 15 == 1, z := w == 0, h := IsB(w as bv32, v as bv32, c, 12),
        p := IsU(w as bv32, v as bv32, c, 16), n := true, c := IsB(w as bv32, v as bv32, c, 16))
  }

  /** ADD HL,ss reports in C exactly the carry out of bit 15 of the 17-bit sum. */
  lemma Add16Carry(hl: bv16, v: bv16, fl: Flags)
    ensures Add16Flags(fl, hl + v, v).c == (hl as bv32 + v as bv32 > 0xffff)
  {
  }

  /**
   * ADC HL,ss with carry in and ss = 0xFFFF adds 0x10000, leaving HL as it
   * was, yet `isC` masks operand plus carry to 0 and reports no carry.
   */
  lemma Adc16LosesCarry(hl: bv16, fl: Flags)
    ensures hl + 0xffff + Carry(true) as bv16 == hl
    ensures !Adc16Flags(fl, hl + 0xffff + Carry(true) as bv16, 0xffff, true).c
  {
  }

  /** RLD on WZ = A:(HL): the low twelve bits rotate left by one nibble, the top nibble stays. */
  function DigitLeft(wz: bv16): bv16
  {
    ((wz & 0x00ff) << 4) | ((wz & 0x0fff) >> 8) | (wz & 0xf000)
  }

  /** RRD on WZ = A:(HL): the low twelve bits rotate right by one nibble. */
  function DigitRight(wz: bv16): bv16
  {
    ((wz & 0x0ff0) >> 4) | ((wz & 0x000f) << 8) | (wz & 0xf000)
  }

  /**
   * What RLD does to the digits: A keeps its high nibble and takes the high
   * nibble of (HL); (HL) moves its low nibble up and takes A's low nibble.
   */
  lemma DigitLeftNibbles(a: bv8, m: bv8)
    ensures Hi(DigitLeft(Pair(a, m))) == (a & 0xf0) | (m >> 4)
    ensures Lo(DigitLeft(Pair(a, m))) == (m << 4) | (a & 0x0f)
  {
  }

  /** RRD undoes RLD and RLD undoes RRD. */
  lemma DigitRotationsInverse(wz: bv16)
    ensures DigitRight(DigitLeft(wz)) == wz && DigitLeft(DigitRight(wz)) == wz
  {
  }

  /** BIT b: Z and P/V iff bit b is clear, S iff b = 7 and bit 7 is set, H set, N clear. */
  function BitFlags(fl: Flags, v: bv8, bit: bv8): Flags
    requires bit < 8
  {
    var z := v & (1 << bit) == 0;
    fl.(s := bit == 7 && v >> 7 == 1, z := z, h := true, p := z, n := false)
  }

  /** SET b (`on`) or RES b. */
  function ForceBit(v: bv8, bit: bv8, on: bool): (r: bv8)
    requires bit < 8
    ensures r & (1 << bit) != 0 <==> on
    ensures r & !(1 << bit) == v & !(1 << bit)
  {
    if on then v | (1 << bit) else v & !(1 << bit)
  }

  /** A BIT test after SET b reports the bit set, after RES b clear. */
  lemma BitAfterForce(fl: Flags, v: bv8, bit: bv8, on: bool)
    requires bit < 8
    ensures BitFlags(fl, ForceBit(v, bit, on), bit).z == !on
  {
  }

  /** INI/IND/OUTI/OUTD: B counts down, HL steps; Z iff B reached 0, N set. */
  function BlockIoRegs(r: Regs, up: bool): (r': Regs)
    ensures B(r') == B(r) - 1 && C(r') == C(r) && A(r') == A(r)
    ensures F(r').z == (B(r') == 0) && F(r').n
  {
    var r1 := r.(bc := WithHi(r.bc, B(r) - 1), hl := if up then r.hl + 1 else r.hl - 1);
    WithF(r1, F(r).(z := B(r1) == 0, n := true))
  }

  /** INIR, INDR, OTIR and OTDR repeat exactly when B was not 1 before the step. */
  lemma BlockIoCountsDown(r: Regs, up: bool)
    ensures (B(BlockIoRegs(r, up)) != 0) == (B(r) - 1 != 0)
  {
  }

  /** A packed BCD byte: two decimal digits, one per nibble. */
  predicate IsBcd(a: bv8) { a >> 4 <= 9 && a & 0xf <= 9 }

  /** Decimal addition of two packed BCD bytes, digit by digit: the BCD sum mod 100 and its decimal carry. */
  function BcdSum(x: bv8, y: bv8): (bv8, bool)
  {
    var l := (x & 0xf) + (y & 0xf);
    var lc := l > 9;
    var h := (x >> 4) + (y >> 4) + (if lc then 1 else 0);
    var c := h > 9;
    (((if c then h - 10 else h) << 4) | (if lc then l - 10 else l), c)
  }

  /** The correction `DAA` applies after a binary addition of two BCD bytes gives their decimal sum. */
  lemma DaaOfSum(x: bv8, y: bv8, fl: Flags)
    requires IsBcd(x) && IsBcd(y) && !fl.n
    requires fl.h == ((x & 0xf) + (y & 0xf) > 0xf)
    requires fl.c == (x as bv16 + y as bv16 > 0xff)
    ensures (DaaAdjust(x + y, fl), fl.c || x + y > 0x99) == BcdSum(x, y)
  {
  }

  /** The digit sum of two BCD bytes is again a BCD byte. */
  lemma BcdSumIsBcd(x: bv8, y: bv8)
    requires IsBcd(x) && IsBcd(y)
    ensures IsBcd(BcdSum(x, y).0)
  {
  }

  /** Binary `ADD A,v` without carry: the sum, N clear, H and C the nibble and byte carries. */
  lemma AddWithoutCarry(x: bv8, y: bv8, fl: Flags)
    ensures var o := AddC(x, y, false, fl);
      && o.a == x + y && !o.f.n
      && o.f.h == ((x & 0xf) + (y & 0xf) > 0xf) && o.f.c == (x as bv16 + y as bv16 > 0xff)
  {
    AddExact(x, y, false, fl);
  }

  /** `ADD A,v` followed by `DAA` on BCD operands leaves the decimal sum in A and its carry in C. */
  lemma DaaAfterAdd(x: bv8, y: bv8, fl: Flags)
    requires IsBcd(x) && IsBcd(y)
    ensures var o := AddC(x, y, false, fl);
      var d := Daa(o.a, o.f);
      (d.a, d.f.c) == BcdSum(x, y) && IsBcd(d.a)
  {
    AddWithoutCarry(x, y, fl);
    DaaOfSum(x, y, AddC(x, y, false, fl).f);
    BcdSumIsBcd(x, y);
  }

  // ---------------------------------------------------------------- handler results

  /**
   * The value a handler returns, which picks `cycles1` (true) or `cycles2`
   * (false), from the state it starts in: block repeats continue while the
   * decremented counter is non-zero (CPIR/CPDR also while A differs from
   * (HL)), DJNZ while B-1 is non-zero, and conditional relative jumps and
   * calls when their condition holds. Every other handler returns true,
   * RET cc included whether or not it returns.
   */
  function Taken(h: Handler, op: seq<bv8>, r: Regs, m: Memory): bool
    requires |op| == 4
  {
    if h.LDIR? || h.LDDR? then r.bc - 1 != 0
    else if h.CPIR? || h.CPDR? then r.bc - 1 != 0 && A(r) - m(r.hl) != 0
    else if h.INIR? || h.INDR? || h.OTIR? || h.OTDR? || h.DJNZE? then B(r) - 1 != 0
    else if h.JRCE? then F(r).c
    else if h.JRNCE? then !F(r).c
    else if h.JRZE? then F(r).z
    else if h.JRNZE? then !F(r).z
    else if h.CALLCCNN? then Cond(F(r), (op[0] >> 3) & 7)
    else true
  }

  /**
   * RET NZ whose condition fails does not return, yet its handler reports
   * true, so `clock` charges the 11 cycles of a taken return instead of 5.
   */
  lemma RetCcChargesTakenCycles(op: seq<bv8>, r: Regs, m: Memory)
    requires |op| == 4 && op[0] == 0xc0 && F(r).z
    ensures !Cond(F(r), (op[0] >> 3) & 7)
    ensures DecodeIndex(op) == 0xc0 && Entry(0xc0) == Instr(RETCC, 11, 5, 1)
    ensures Taken(RETCC, op, r, m)
  {
    RetNzDecodes(op);
    RetNzEntry();
  }

  lemma RetNzDecodes(op: seq<bv8>)
    requires |op| == 4 && op[0] == 0xc0
    ensures DecodeIndex(op) == 0xc0
  {
  }

  lemma RetNzEntry()
    ensures Entry(0xc0) == Instr(RETCC, 11, 5, 1)
  {
  }

  /** Taken reads only AF, BC and HL (and memory), never PC, IR, SP, WZ or the shadows. */
  lemma TakenReadsAfBcHl(h: Handler, op: seq<bv8>, r: Regs, r': Regs, m: Memory)
    requires |op| == 4 && r'.af == r.af && r'.bc == r.bc && r'.hl == r.hl
    ensures Taken(h, op, r', m) == Taken(h, op, r, m)
  {
  }

  /** The registers after the fetch step of `clock`: PC past the instruction, R bumped. */
  function FetchedRegs(r: Regs, m: Memory): (r': Regs)
    ensures r'.af == r.af && r'.bc == r.bc && r'.hl == r.hl && r'.sp == r.sp
  {
    var op := Fetched(m, r.pc);
    var i := DecodeIndex(op);
    r.(pc := r.pc + Entry(i as int).length as bv16, ir := WithLo(r.ir, NextR(R(r), i)))
  }

  /**
   * The cycles `clock` charges for the instruction at PC: the entry's
   * `cycles1` when its handler reports true, its `cycles2` otherwise.
   */
  function Charged(r: Regs, m: Memory): bv8
  {
    var op := Fetched(m, r.pc);
    var e := Entry(DecodeIndex(op) as int);
    if Taken(e.handler, op, FetchedRegs(r, m), m) then e.cycles1 else e.cycles2
  }

  /**
   * RET NZ at PC with Z set does not return (its condition fails), yet it is
   * charged the 11 cycles of a taken return, never the table's 5.
   */
  lemma RetNzChargedAsTaken(r: Regs, m: Memory)
    requires m(r.pc) == 0xc0 && F(r).z
    ensures !Cond(F(r), (m(r.pc) >> 3) & 7)
    ensures Charged(r, m) == 11
  {
    RetCcChargesTakenCycles(Fetched(m, r.pc), FetchedRegs(r, m), m);
  }
}
