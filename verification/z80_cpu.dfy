/**
 * The Z80 CPU object of src/cpu/z80a.cpp: its registers and status,
 * `reset`, the interrupt latches and their service routines, the per-tick
 * `clock`, and every opcode handler as a method that updates the object.
 *
 * The CPU reaches memory and ports only through `memRd`/`memWr` and
 * `ioRd`/`ioWr`; here memory is a 64 KiB byte map held by the CPU, a port
 * read is a fixed function of the port number, and port writes are appended
 * to a log in the order they happen.
 *
 * Each handler's postcondition gives the whole new state in terms of the
 * state before the call, and its result, which `clock` uses to pick the
 * entry's `cycles1` or `cycles2`, equals `Taken` of that state.
 */
module Z80Cpu {
  import opened Z80Regs
  import opened Z80Flags
  import opened Z80Table
  import opened Z80Decode

  /** A CPU halted on HALT resumes after it: PC moves past the HALT opcode. */
  function ResumeAfterHalt(r: Regs, halted: bool): (r': Regs)
    ensures r' == r.(pc := r'.pc)
    ensures r'.pc == if halted then r.pc + 1 else r.pc
  {
    if halted then r.(pc := r.pc + 1) else r
  }

  /**
   * The registers after an interrupt is taken: the resume address is pushed
   * (SP down by 2) and PC jumps to the service routine.
   */
  function Interrupted(r: Regs, halted: bool, vector: bv16): (r': Regs)
    ensures r' == r.(sp := r.sp - 2, pc := vector)
  {
    ResumeAfterHalt(r, halted).(sp := r.sp - 2).(pc := vector)
  }

  /** The handlers whose result depends on the state: the only ones that can report `false`. */
  predicate Conditional(h: Handler)
  {
    h.LDIR? || h.LDDR? || h.CPIR? || h.CPDR? || h.INIR? || h.INDR? || h.OTIR? || h.OTDR? ||
    h.DJNZE? || h.JRCE? || h.JRNCE? || h.JRZE? || h.JRNZE? || h.CALLCCNN?
  }

  /** Every other handler reports `true`, so `clock` charges its `cycles1`. */
  lemma UnconditionalTaken(h: Handler, op: seq<bv8>, r: Regs, m: Memory)
    requires |op| == 4 && !Conditional(h)
    ensures Taken(h, op, r, m)
  {
  }

  /** Whether `h` is one of the 8-bit load handlers. */
  predicate Load8Group(h: Handler)
  {
    h.LDRR? || h.LDiRR? || h.LDRRi? || h.LDRN? || h.LDAiBC? || h.LDAiDE? || h.LDAiNN? ||
    h.LDiBCA? || h.LDiDEA? || h.LDiNNA? || h.LDAI? || h.LDAR? || h.LDIA? || h.LDRA?
  }

  /** Whether `h` is one of the 16-bit load handlers. */
  predicate Load16Group(h: Handler)
  {
    h.LDDDNN? || h.LDHLiNN? || h.LDDDiNN? || h.LDIXiNN? || h.LDIYiNN? || h.LDiNNHL? ||
    h.LDiNNDD? || h.LDiNNIX? || h.LDiNNIY? || h.LDSPHL? || h.LDSPIX? || h.LDSPIY?
  }

  /** Whether `h` is one of the push, pop and exchange handlers. */
  predicate StackGroup(h: Handler)
  {
    h.PUSHQQ? || h.PUSHIX? || h.PUSHIY? || h.POPQQ? || h.POPIX? || h.POPIY? || h.EXDEHL? ||
    h.EXAF? || h.EXX? || h.EXiSPHL? || h.EXiSPIX? || h.EXiSPIY?
  }

  /** Whether `h` is one of the single-step block transfer and search handlers. */
  predicate BlockGroup(h: Handler)
  {
    h.LDI? || h.LDD? || h.CPI? || h.CPD?
  }

  /** Whether `h` is one of the 8-bit arithmetic and logic handlers with a register or immediate operand. */
  predicate AluGroup(h: Handler)
  {
    h.ADDR? || h.ADDN? || h.ADCR? || h.ADCN? || h.SUBR? || h.SUBN? || h.SBCR? || h.SBCN? ||
    h.ANDR? || h.ANDN? || h.ORR? || h.ORN? || h.XORR? || h.XORN? || h.CPR? || h.CPN?
  }

  /** Whether `h` is one of INC, DEC and the general-purpose arithmetic and CPU control handlers. */
  predicate ControlGroup(h: Handler)
  {
    h.INCR? || h.DECR? || h.DAA? || h.CPL? || h.NEG? || h.CCF? || h.SCF? || h.NOP? || h.HALT? ||
    h.DI? || h.EI? || h.IM0? || h.IM1? || h.IM2?
  }

  /** Whether `h` is one of the 16-bit additions and subtractions. */
  predicate Add16Group(h: Handler)
  {
    h.ADDHLSS? || h.ADCHLSS? || h.SBCHLSS? || h.ADDIXSS? || h.ADDIYSS?
  }

  /** Whether `h` is one of the 16-bit increments and decrements. */
  predicate Step16Group(h: Handler)
  {
    h.INCSS? || h.INCIX? || h.INCIY? || h.DECSS? || h.DECIX? || h.DECIY?
  }

  /** Whether `h` is one of the rotate and shift handlers. */
  predicate RotateGroup(h: Handler)
  {
    h.RLCA? || h.RLA? || h.RRCA? || h.RRA? || h.RLCR? || h.RLR? || h.RRCR? || h.RRR? || h.SLAR? ||
    h.SRAR? || h.SRLR? || h.SLLR? || h.RLD? || h.RRD?
  }

  /** Whether `h` is one of the bit handlers and the unconditional or flag-tested absolute jumps. */
  predicate JumpGroup(h: Handler)
  {
    h.BITBR? || h.SETBR? || h.RESBR? || h.JPNN? || h.JPCCNN? || h.JRE? || h.JPiHL? || h.JPiIX? ||
    h.JPiIY?
  }

  /** Whether `h` is one of the call, return and restart handlers other than CALL cc. */
  predicate CallGroup(h: Handler)
  {
    h.CALLNN? || h.RET? || h.RETCC? || h.RETI? || h.RETN? || h.RSTP?
  }

  /** Whether `h` is one of the single-step input/output handlers and the placeholders for undocumented and invalid opcodes. */
  predicate IoGroup(h: Handler)
  {
    h.INAiN? || h.INRiC? || h.INI? || h.IND? || h.OUTiNA? || h.OUTiCR? || h.OUTI? || h.OUTD? ||
    h.INiC? || h.OUTiC0? || h.UNDOC? || h.INVAL?
  }

  /** Whether `h` is one of the repeating block transfer and search handlers. */
  predicate RepeatGroup(h: Handler)
  {
    h.LDIR? || h.LDDR? || h.CPIR? || h.CPDR?
  }

  /** Whether `h` is one of the repeating block input/output handlers. */
  predicate RepeatIoGroup(h: Handler)
  {
    h.INIR? || h.INDR? || h.OTIR? || h.OTDR?
  }

  /** Whether `h` is one of the flag-tested relative jumps. */
  predicate RelJumpGroup(h: Handler)
  {
    h.JRCE? || h.JRNCE? || h.JRZE? || h.JRNZE?
  }

  /** Whether `h` is one of DJNZ and CALL cc. */
  predicate CountCallGroup(h: Handler)
  {
    h.DJNZE? || h.CALLCCNN?
  }

  /**
   * The CPU's registers, memory, port log, interrupt state, cycle
   * bookkeeping and decode buffer: everything but the handlers' scratch
   * members.
   */
  datatype Core = Core(reg: Regs, mem: Memory, ioLog: seq<(bv8, bv8)>, iff1: bool, iff2: bool, halt: bool,
                       intmode: bv8, nmiLatch: bool, irqLatch: bool, cycles: bv8, cycleCounter: bv32,
                       opcode: seq<bv8>, prefix: Prefix, indexOp: bv16)

  class Z80A {
    /** The register file: main, shadow, index, IR, SP, PC and the internal WZ. */
    var reg: Regs
    var intmode: bv8
    var iff1: bool
    var iff2: bool
    var halt: bool
    var nmiLatch: bool
    var irqLatch: bool
    /** Ticks left of the instruction in execution (`uint8_t`). */
    var cycles: bv8
    /** `nCycleCounter` (`uint32_t`). */
    var cycleCounter: bv32
    /** `opcode[0..3]`, the bytes fetched at the last decode. */
    var opcode: seq<bv8>
    var prefix: Prefix
    var indexOp: bv16
    /** Scratch members the handlers leave behind. */
    var u8: bv8
    var res: bv8
    var u16: bv16
    var mem: Memory
    /** Every `ioWr(port, data)` so far, oldest first. */
    var ioLog: seq<(bv8, bv8)>
    /** What `ioRd(port)` returns. */
    const ioRead: bv8 -> bv8

    ghost predicate Valid()
      reads this
    {
      |opcode| == 4
    }

    /**
     * The power-on state: AF and AF' 0xFFFF, SP 0xFFFF, every other pair
     * and PC 0, interrupts disabled in mode 0, no latch pending, no cycle
     * outstanding. WZ and the scratch members are not initialised by the
     * source and stay arbitrary; the fetch buffer is overwritten by the
     * first fetch before any handler reads it.
     */
    constructor (memory: Memory, ports: bv8 -> bv8)
      ensures Valid()
      ensures reg.af == 0xffff && reg.af1 == 0xffff && reg.sp == 0xffff && reg.pc == 0
      ensures reg.bc == 0 && reg.de == 0 && reg.hl == 0 && reg.bc1 == 0 && reg.de1 == 0 && reg.hl1 == 0
      ensures reg.ir == 0 && reg.ix == 0 && reg.iy == 0
      ensures !halt && !iff1 && !iff2 && intmode == 0 && !nmiLatch && !irqLatch
      ensures cycles == 0 && cycleCounter == 0
      ensures mem == memory && ioRead == ports && ioLog == []
    {
      var wz: bv16 := *;
      reg := Regs(0xffff, 0, 0, 0, 0xffff, 0, 0, 0, 0, 0, 0, 0xffff, 0, wz);
      halt := false;
      iff1 := false;
      iff2 := false;
      intmode := 0;
      nmiLatch := false;
      irqLatch := false;
      cycles := 0;
      cycleCounter := 0;
      opcode := [0, 0, 0, 0];
      mem := memory;
      ioRead := ports;
      ioLog := [];
    }

    /** `reset`: the register and status values of the constructor; WZ and `cycles` are kept. */
    method Reset() returns (ok: bool)
      modifies this`reg, this`halt, this`iff1, this`iff2, this`intmode, this`nmiLatch, this`irqLatch,
               this`cycleCounter
      ensures ok
      ensures reg == Regs(0xffff, 0, 0, 0, 0xffff, 0, 0, 0, 0, 0, 0, 0xffff, 0, old(reg).wz)
      ensures !halt && !iff1 && !iff2 && intmode == 0 && !nmiLatch && !irqLatch && cycleCounter == 0
    {
      reg := Regs(0xffff, 0, 0, 0, 0xffff, 0, 0, 0, 0, 0, 0, 0xffff, 0, reg.wz);
      halt := false;
      iff1 := false;
      iff2 := false;
      intmode := 0;
      nmiLatch := false;
      irqLatch := false;
      cycleCounter := 0;
      ok := true;
    }

    /** `irq`: latch the maskable interrupt line until the next instruction boundary. */
    method Irq() returns (ok: bool)
      modifies this`irqLatch
      ensures ok && irqLatch
    {
      irqLatch := true;
      ok := true;
    }

    /** `nmi`: latch the non-maskable interrupt line. */
    method Nmi() returns (ok: bool)
      modifies this`nmiLatch
      ensures ok && nmiLatch
    {
      nmiLatch := true;
      ok := true;
    }

    /** `ioWr`. */
    method IoWrite(port: bv8, data: bv8)
      modifies this`ioLog
      ensures ioLog == old(ioLog) + [(port, data)]
    {
      ioLog := ioLog + [(port, data)];
    }

    /** `stkWr16(SP_, w)`. */
    method Push(w: bv16)
      modifies this`reg, this`mem
      ensures reg == old(reg).(sp := old(reg).sp - 2)
      ensures mem == PushMem(old(reg), old(mem), w)
    {
      mem := PushMem(reg, mem, w);
      reg := reg.(sp := reg.sp - 2);
    }

    /** `stkRd16(SP_)`: the word at SP, SP+1, after which SP grows by 2. */
    method Pop() returns (w: bv16)
      modifies this`reg
      ensures w == Peek16(old(mem), old(reg).sp)
      ensures reg == old(reg).(sp := old(reg).sp + 2)
    {
      w := Peek16(mem, reg.sp);
      reg := reg.(sp := reg.sp + 2);
    }

    // ------------------------------------------------------------ interrupts

    /**
     * `IRQEXEC`: the latch is cleared; only with IFF1 set are both IFFs
     * cleared, and only in mode 1 is the interrupt serviced: a HALT is left
     * (PC moves past it), PC is pushed, PC becomes 0x38 and 13 cycles are
     * charged. Modes 0 and 2 do nothing further.
     */
    method IrqExec() returns (ok: bool)
      modifies this`irqLatch, this`iff1, this`iff2, this`halt, this`reg, this`mem, this`cycles
      ensures ok && !irqLatch
      ensures old(iff1) ==> !iff1 && !iff2
      ensures !old(iff1) ==> iff1 == old(iff1) && iff2 == old(iff2)
      ensures old(iff1) && old(intmode) == 1 ==>
        && !halt && cycles == 13
        && reg == Interrupted(old(reg), old(halt), 0x38)
        && mem == PushMem(ResumeAfterHalt(old(reg), old(halt)), old(mem), ResumeAfterHalt(old(reg), old(halt)).pc)
      ensures !(old(iff1) && old(intmode) == 1) ==>
        halt == old(halt) && cycles == old(cycles) && reg == old(reg) && mem == old(mem)
    {
      if iff1 && intmode == 1 {
        irqLatch, iff1, iff2, halt, cycles, mem, reg :=
          false, false, false, false, 13,
          PushMem(ResumeAfterHalt(reg, halt), mem, ResumeAfterHalt(reg, halt).pc),
          Interrupted(reg, halt, 0x38);
      } else if iff1 {
        irqLatch, iff1, iff2 := false, false, false;
      } else {
        irqLatch := false;
      }
      ok := true;
    }

    /**
     * `NMIEXEC`: the latch and IFF1 are cleared while IFF2 keeps the old
     * enable, a HALT is left, PC is pushed, PC becomes 0x66, 11 cycles.
     */
    method NmiExec() returns (ok: bool)
      modifies this`nmiLatch, this`iff1, this`halt, this`reg, this`mem, this`cycles
      ensures ok && !nmiLatch && !iff1 && !halt && cycles == 11
      ensures reg == Interrupted(old(reg), old(halt), 0x66)
      ensures mem == PushMem(ResumeAfterHalt(old(reg), old(halt)), old(mem), ResumeAfterHalt(old(reg), old(halt)).pc)
    {
      nmiLatch, iff1, halt, cycles, mem, reg :=
        false, false, false, 11,
        PushMem(ResumeAfterHalt(reg, halt), mem, ResumeAfterHalt(reg, halt).pc),
        Interrupted(reg, halt, 0x66);
      ok := true;
    }

    // ------------------------------------------------------------ fetch and clock

    /**
     * The decode half of `clock`: fetch four bytes at PC, set the prefix
     * flags and `indexOp`, advance PC by the entry's length and bump R.
     */
    method Fetch()
      requires Valid()
      modifies this`opcode, this`prefix, this`indexOp, this`reg
      ensures Valid()
      ensures opcode == Fetched(old(mem), old(reg).pc)
      ensures prefix == DecodePrefix(opcode) && indexOp == DecodeIndex(opcode)
      ensures reg == FetchedRegs(old(reg), old(mem))
    {
      opcode := Fetched(mem, reg.pc);
      prefix := DecodePrefix(opcode);
      indexOp := DecodeIndex(opcode);
      reg := FetchedRegs(reg, mem);
    }

    /**
     * One tick of `clock`. With instruction cycles outstanding it only
     * counts down. At an instruction boundary a pending NMI is serviced
     * before a pending IRQ, each without counting the tick in
     * `nCycleCounter`; otherwise the next instruction is fetched and run and
     * `cycles` becomes `cycles1` or `cycles2` by the handler's result, less
     * the current tick. A refused IRQ leaves `cycles` at 0, which the
     * decrement wraps to 255.
     */
    method Clock() returns (ok: bool)
      requires Valid()
      modifies this`opcode, this`prefix, this`indexOp, this`reg, this`mem, this`u8, this`res, this`u16,
               this`iff1, this`iff2, this`halt, this`intmode, this`ioLog, this`cycles, this`cycleCounter,
               this`nmiLatch, this`irqLatch
      ensures Valid() && ok
      ensures ClockedFrom(old(CoreOf()))
    {
      if cycles == 0 && (nmiLatch || irqLatch) {
        ok := ServiceInterrupt();
      } else if cycles == 0 {
        NextInstruction();
        ok := true;
      } else {
        cycles, cycleCounter := cycles - 1, cycleCounter + 1;
        ok := true;
      }
    }

    /** The state `clock` works on, as a value. */
    ghost function CoreOf(): Core
      reads this
    {
      Core(reg, mem, ioLog, iff1, iff2, halt, intmode, nmiLatch, irqLatch, cycles, cycleCounter, opcode, prefix, indexOp)
    }

    /**
     * The CPU after one `clock` from `k`. Inside an instruction only the
     * two counters move. At a boundary a pending NMI pushes PC, enters
     * 0x66, clears IFF1 and leaves 10 cycles; otherwise a pending IRQ
     * clears its latch and, with IFF1 set, both IFFs, and in mode 1 pushes
     * PC, enters 0x38 and leaves 12 cycles, while a refused one leaves
     * `cycles` wrapped to 255; neither counts the tick. Otherwise the
     * instruction at PC is decoded and `cycles` is the count it is charged,
     * less this tick.
     */
    ghost predicate ClockedFrom(k: Core)
      reads this
    {
      && (k.cycles != 0 ==> CoreOf() == k.(cycles := k.cycles - 1, cycleCounter := k.cycleCounter + 1))
      && (k.cycles == 0 && (k.nmiLatch || k.irqLatch) ==> Serviced(k))
      && (k.cycles == 0 && !k.nmiLatch && !k.irqLatch ==> Decoded(k))
    }

    /** The CPU after the interrupt half of `clock` from `k`, at an instruction boundary. */
    ghost predicate Serviced(k: Core)
      reads this
    {
      if k.nmiLatch then NmiServiced(k) else IrqServiced(k)
    }

    /** The CPU after servicing the pending NMI from `k`. */
    ghost predicate NmiServiced(k: Core)
      reads this
    {
      var resumed := ResumeAfterHalt(k.reg, k.halt);
      && reg == Interrupted(k.reg, k.halt, 0x66) && mem == PushMem(resumed, k.mem, resumed.pc)
      && !nmiLatch && !iff1 && !halt && cycles == 10
      && ioLog == k.ioLog && iff2 == k.iff2 && intmode == k.intmode && irqLatch == k.irqLatch
      && cycleCounter == k.cycleCounter && opcode == k.opcode && prefix == k.prefix && indexOp == k.indexOp
    }

    /** The CPU after taking or refusing the pending IRQ from `k`. */
    ghost predicate IrqServiced(k: Core)
      reads this
    {
      var resumed := ResumeAfterHalt(k.reg, k.halt);
      if k.iff1 && k.intmode == 1 then
        CoreOf() == k.(irqLatch := false, iff1 := false, iff2 := false, halt := false, cycles := 12,
                       reg := Interrupted(k.reg, k.halt, 0x38), mem := PushMem(resumed, k.mem, resumed.pc))
      else if k.iff1 then CoreOf() == k.(irqLatch := false, iff1 := false, iff2 := false, cycles := 0xff)
      else CoreOf() == k.(irqLatch := false, cycles := 0xff)
    }

    /**
     * The CPU after the instruction half of `clock` from `k`: the bytes at
     * PC are decoded and `cycles` holds the count the instruction is
     * charged, less this tick, which is counted.
     */
    ghost predicate Decoded(k: Core)
      reads this
    {
      && opcode == Fetched(k.mem, k.reg.pc)
      && prefix == DecodePrefix(opcode) && indexOp == DecodeIndex(opcode)
      && nmiLatch == k.nmiLatch && irqLatch == k.irqLatch
      && cycles == Charged(k.reg, k.mem) - 1
      && cycleCounter == k.cycleCounter + 1
    }

    /**
     * The interrupt half of `clock` at an instruction boundary: a pending NMI
     * is serviced before a pending IRQ, and the tick is taken off `cycles`
     * without being counted in `nCycleCounter`.
     */
    method ServiceInterrupt() returns (ok: bool)
      requires cycles == 0 && (nmiLatch || irqLatch)
      modifies this`reg, this`mem, this`iff1, this`iff2, this`halt, this`cycles, this`nmiLatch, this`irqLatch
      ensures ok && Serviced(old(CoreOf()))
    {
      if nmiLatch {
        ok := ServiceNmi();
      } else {
        ok := ServiceIrq();
      }
    }

    /** A pending NMI is serviced and the tick taken off `cycles`. */
    method ServiceNmi() returns (ok: bool)
      requires cycles == 0 && nmiLatch
      modifies this`reg, this`mem, this`iff1, this`halt, this`cycles, this`nmiLatch
      ensures ok && NmiServiced(old(CoreOf()))
    {
      ok := NmiExec();
      cycles := cycles - 1;
    }

    /** A pending IRQ is taken or refused and the tick taken off `cycles`. */
    method ServiceIrq() returns (ok: bool)
      requires cycles == 0 && irqLatch
      modifies this`reg, this`mem, this`iff1, this`iff2, this`halt, this`cycles, this`irqLatch
      ensures ok && IrqServiced(old(CoreOf()))
    {
      ok := IrqExec();
      cycles := cycles - 1;
    }

    /** The instruction half of `clock`: fetch, decode and run, then count the tick. */
    method NextInstruction()
      requires Valid() && cycles == 0
      modifies this`opcode, this`prefix, this`indexOp, this`reg, this`mem, this`u8, this`res, this`u16,
               this`iff1, this`iff2, this`halt, this`intmode, this`ioLog, this`cycles, this`cycleCounter
      ensures Valid() && Decoded(old(CoreOf()))
    {
      Dispatch();
      cycles, cycleCounter := cycles - 1, cycleCounter + 1;
    }

    /**
     * The instruction-boundary half of `clock`: fetch and decode, run the
     * entry's handler, and load `cycles` from the entry by its result.
     */
    method Dispatch()
      requires Valid()
      modifies this`opcode, this`prefix, this`indexOp, this`reg, this`mem, this`u8, this`res, this`u16,
               this`iff1, this`iff2, this`halt, this`intmode, this`ioLog, this`cycles
      ensures Valid()
      ensures opcode == Fetched(old(mem), old(reg).pc)
      ensures prefix == DecodePrefix(opcode) && indexOp == DecodeIndex(opcode)
      ensures cycles == Charged(old(reg), old(mem))
    {
      Fetch();
      var taken := Execute(Entry(indexOp as int).handler);
      cycles := if taken then Entry(indexOp as int).cycles1 else Entry(indexOp as int).cycles2;
    }

    /**
     * `(this->*instSet[indexOp].operate)()`: run the handler an entry names.
     * The dispatch is split by instruction group; only the groups of
     * state-dependent handlers need their result related to `Taken`.
     */
    method Execute(h: Handler) returns (taken: bool)
      requires Valid()
      modifies this`reg, this`mem, this`u8, this`res, this`u16, this`iff1, this`iff2, this`halt,
               this`intmode, this`ioLog
      ensures taken == Taken(h, old(opcode), old(reg), old(mem))
    {
      if RepeatGroup(h) {
        taken := ExecuteRepeat(h);
      } else if RepeatIoGroup(h) {
        taken := ExecuteRepeatIo(h);
      } else if RelJumpGroup(h) {
        taken := ExecuteRelJump(h);
      } else if CountCallGroup(h) {
        taken := ExecuteCountCall(h);
      } else {
        UnconditionalTaken(h, opcode, reg, mem);
        if Load8Group(h) {
          taken := ExecuteLoad8(h);
        } else if Load16Group(h) {
          taken := ExecuteLoad16(h);
        } else if StackGroup(h) {
          taken := ExecuteStack(h);
        } else if BlockGroup(h) {
          taken := ExecuteBlock(h);
        } else if AluGroup(h) {
          taken := ExecuteAlu(h);
        } else if ControlGroup(h) {
          taken := ExecuteControl(h);
        } else if Add16Group(h) {
          taken := ExecuteAdd16(h);
        } else if Step16Group(h) {
          taken := ExecuteStep16(h);
        } else if RotateGroup(h) {
          taken := ExecuteRotate(h);
        } else if JumpGroup(h) {
          taken := ExecuteJump(h);
        } else if CallGroup(h) {
          taken := ExecuteCall(h);
        } else if IoGroup(h) {
          taken := ExecuteIo(h);
        } else {
          assert false;
        }
      }
    }

    /** `Execute` for the 8-bit load handlers. */
    method ExecuteLoad8(h: Handler) returns (taken: bool)
      requires Valid() && Load8Group(h)
      modifies this`reg, this`mem, this`u8, this`res, this`u16, this`iff1, this`iff2, this`halt,
               this`intmode, this`ioLog
      ensures taken
    {
      if h.LDRR? {
        taken := LoadRegReg();
      } else if h.LDiRR? {
        taken := StoreReg();
      } else if h.LDRRi? {
        taken := LoadRegMem();
      } else if h.LDRN? {
        taken := LoadRegImm();
      } else if h.LDAiBC? {
        taken := LoadAFrom(reg.bc);
      } else if h.LDAiDE? {
        taken := LoadAFrom(reg.de);
      } else if h.LDAiNN? {
        taken := LoadAFrom(Opw(opcode, 1));
      } else if h.LDiBCA? {
        taken := StoreA(reg.bc);
      } else if h.LDiDEA? {
        taken := StoreA(reg.de);
      } else if h.LDiNNA? {
        taken := StoreA(Opw(opcode, 1));
      } else if h.LDAI? {
        taken := LoadASpecial(false);
      } else if h.LDAR? {
        taken := LoadASpecial(true);
      } else if h.LDIA? {
        taken := StoreASpecial(false);
      } else if h.LDRA? {
        taken := StoreASpecial(true);
      } else {
        assert false;
      }
    }

    /** `Execute` for the 16-bit load handlers. */
    method ExecuteLoad16(h: Handler) returns (taken: bool)
      requires Valid() && Load16Group(h)
      modifies this`reg, this`mem, this`u8, this`res, this`u16, this`iff1, this`iff2, this`halt,
               this`intmode, this`ioLog
      ensures taken
    {
      if h.LDDDNN? {
        taken := LoadPairImm();
      } else if h.LDHLiNN? {
        taken := LoadPairMem(2, UseHL, Opw(opcode, 1));
      } else if h.LDDDiNN? {
        taken := LoadPairMem((opcode[1] >> 4) & 3, UseHL, Opw(opcode, 2));
      } else if h.LDIXiNN? {
        taken := LoadPairMem(2, UseIX, Opw(opcode, 2));
      } else if h.LDIYiNN? {
        taken := LoadPairMem(2, UseIY, Opw(opcode, 2));
      } else if h.LDiNNHL? {
        taken := StoreWord(Opw(opcode, 1), reg.hl);
      } else if h.LDiNNDD? {
        taken := StoreWord(Opw(opcode, 2), Pair16(reg, (opcode[1] >> 4) & 3, UseHL));
      } else if h.LDiNNIX? {
        taken := StoreWord(Opw(opcode, 2), reg.ix);
      } else if h.LDiNNIY? {
        taken := StoreWord(Opw(opcode, 2), reg.iy);
      } else if h.LDSPHL? {
        taken := LoadSP(reg.hl);
      } else if h.LDSPIX? {
        taken := LoadSP(reg.ix);
      } else if h.LDSPIY? {
        taken := LoadSP(reg.iy);
      } else {
        assert false;
      }
    }

    /** `Execute` for the push, pop and exchange handlers. */
    method ExecuteStack(h: Handler) returns (taken: bool)
      requires Valid() && StackGroup(h)
      modifies this`reg, this`mem, this`u8, this`res, this`u16, this`iff1, this`iff2, this`halt,
               this`intmode, this`ioLog
      ensures taken
    {
      if h.PUSHQQ? {
        taken := PushWord(StackPair(reg, (opcode[0] >> 4) & 3));
      } else if h.PUSHIX? {
        taken := PushWord(reg.ix);
      } else if h.PUSHIY? {
        taken := PushWord(reg.iy);
      } else if h.POPQQ? {
        taken := PopPair();
      } else if h.POPIX? {
        taken := PopIndex(UseIX);
      } else if h.POPIY? {
        taken := PopIndex(UseIY);
      } else if h.EXDEHL? {
        taken := ExDeHl();
      } else if h.EXAF? {
        taken := ExAf();
      } else if h.EXX? {
        taken := Exx();
      } else if h.EXiSPHL? {
        taken := ExSp(UseHL);
      } else if h.EXiSPIX? {
        taken := ExSp(UseIX);
      } else if h.EXiSPIY? {
        taken := ExSp(UseIY);
      } else {
        assert false;
      }
    }

    /** `Execute` for the single-step block transfer and search handlers. */
    method ExecuteBlock(h: Handler) returns (taken: bool)
      requires Valid() && BlockGroup(h)
      modifies this`reg, this`mem, this`u8, this`res, this`u16, this`iff1, this`iff2, this`halt,
               this`intmode, this`ioLog
      ensures taken
    {
      if h.LDI? {
        taken := BlockLoad(true);
      } else if h.LDD? {
        taken := BlockLoad(false);
      } else if h.CPI? {
        taken := BlockCompare(true);
      } else if h.CPD? {
        taken := BlockCompare(false);
      } else {
        assert false;
      }
    }

    /** `Execute` for the 8-bit arithmetic and logic handlers with a register or immediate operand. */
    method ExecuteAlu(h: Handler) returns (taken: bool)
      requires Valid() && AluGroup(h)
      modifies this`reg, this`mem, this`u8, this`res, this`u16, this`iff1, this`iff2, this`halt,
               this`intmode, this`ioLog
      ensures taken
    {
      if h.ADDR? {
        taken := AluReg(Add);
      } else if h.ADDN? {
        taken := AluImm(Add);
      } else if h.ADCR? {
        taken := AluReg(Adc);
      } else if h.ADCN? {
        taken := AluImm(Adc);
      } else if h.SUBR? {
        taken := AluReg(Sub);
      } else if h.SUBN? {
        taken := AluImm(Sub);
      } else if h.SBCR? {
        taken := AluReg(Sbc);
      } else if h.SBCN? {
        taken := AluImm(Sbc);
      } else if h.ANDR? {
        taken := AluReg(And);
      } else if h.ANDN? {
        taken := AluImm(And);
      } else if h.ORR? {
        taken := AluReg(Or);
      } else if h.ORN? {
        taken := AluImm(Or);
      } else if h.XORR? {
        taken := AluReg(Xor);
      } else if h.XORN? {
        taken := AluImm(Xor);
      } else if h.CPR? {
        taken := AluReg(Cp);
      } else if h.CPN? {
        taken := AluImm(Cp);
      } else {
        assert false;
      }
    }

    /** `Execute` for INC, DEC and the general-purpose arithmetic and CPU control handlers. */
    method ExecuteControl(h: Handler) returns (taken: bool)
      requires Valid() && ControlGroup(h)
      modifies this`reg, this`mem, this`u8, this`res, this`u16, this`iff1, this`iff2, this`halt,
               this`intmode, this`ioLog
      ensures taken
    {
      if h.INCR? {
        taken := IncReg();
      } else if h.DECR? {
        taken := DecReg();
      } else if h.DAA? {
        taken := DecimalAdjust();
      } else if h.CPL? {
        taken := Complement();
      } else if h.NEG? {
        taken := Negate();
      } else if h.CCF? {
        taken := ComplementCarry();
      } else if h.SCF? {
        taken := SetCarry();
      } else if h.NOP? {
        taken := NoOperation();
      } else if h.HALT? {
        taken := Halt();
      } else if h.DI? {
        taken := SetInterrupts(false);
      } else if h.EI? {
        taken := SetInterrupts(true);
      } else if h.IM0? {
        taken := SetIntMode(0);
      } else if h.IM1? {
        taken := SetIntMode(1);
      } else if h.IM2? {
        taken := SetIntMode(2);
      } else {
        assert false;
      }
    }

    /** `Execute` for the 16-bit additions and subtractions. */
    method ExecuteAdd16(h: Handler) returns (taken: bool)
      requires Valid() && Add16Group(h)
      modifies this`reg, this`mem, this`u8, this`res, this`u16, this`iff1, this`iff2, this`halt,
               this`intmode, this`ioLog
      ensures taken
    {
      if h.ADDHLSS? {
        taken := AddPair(UseHL, (opcode[0] >> 4) & 3);
      } else if h.ADCHLSS? {
        taken := AdcHl();
      } else if h.SBCHLSS? {
        taken := SbcHl();
      } else if h.ADDIXSS? {
        taken := AddPair(UseIX, (opcode[1] >> 4) & 3);
      } else if h.ADDIYSS? {
        taken := AddPair(UseIY, (opcode[1] >> 4) & 3);
      } else {
        assert false;
      }
    }

    /** `Execute` for the 16-bit increments and decrements. */
    method ExecuteStep16(h: Handler) returns (taken: bool)
      requires Valid() && Step16Group(h)
      modifies this`reg, this`mem, this`u8, this`res, this`u16, this`iff1, this`iff2, this`halt,
               this`intmode, this`ioLog
      ensures taken
    {
      if h.INCSS? {
        taken := StepPair((opcode[0] >> 4) & 3, UseHL, true);
      } else if h.INCIX? {
        taken := StepPair(2, UseIX, true);
      } else if h.INCIY? {
        taken := StepPair(2, UseIY, true);
      } else if h.DECSS? {
        taken := StepPair((opcode[0] >> 4) & 3, UseHL, false);
      } else if h.DECIX? {
        taken := StepPair(2, UseIX, false);
      } else if h.DECIY? {
        taken := StepPair(2, UseIY, false);
      } else {
        assert false;
      }
    }

    /** `Execute` for the rotate and shift handlers. */
    method ExecuteRotate(h: Handler) returns (taken: bool)
      requires Valid() && RotateGroup(h)
      modifies this`reg, this`mem, this`u8, this`res, this`u16, this`iff1, this`iff2, this`halt,
               this`intmode, this`ioLog
      ensures taken
    {
      if h.RLCA? {
        taken := RotateA(Rlc);
      } else if h.RLA? {
        taken := RotateA(Rl);
      } else if h.RRCA? {
        taken := RotateA(Rrc);
      } else if h.RRA? {
        taken := RotateA(Rr);
      } else if h.RLCR? {
        taken := ShiftCb(Rlc);
      } else if h.RLR? {
        taken := ShiftCb(Rl);
      } else if h.RRCR? {
        taken := ShiftCb(Rrc);
      } else if h.RRR? {
        taken := ShiftCb(Rr);
      } else if h.SLAR? {
        taken := ShiftCb(Sla);
      } else if h.SRAR? {
        taken := ShiftCb(Sra);
      } else if h.SRLR? {
        taken := ShiftCb(Srl);
      } else if h.SLLR? {
        taken := ShiftCb(Sll);
      } else if h.RLD? {
        taken := RotateDigitLeft();
      } else if h.RRD? {
        taken := RotateDigitRight();
      } else {
        assert false;
      }
    }

    /** `Execute` for the bit handlers and the unconditional or flag-tested absolute jumps. */
    method ExecuteJump(h: Handler) returns (taken: bool)
      requires Valid() && JumpGroup(h)
      modifies this`reg, this`mem, this`u8, this`res, this`u16, this`iff1, this`iff2, this`halt,
               this`intmode, this`ioLog
      ensures taken
    {
      if h.BITBR? {
        taken := BitTest();
      } else if h.SETBR? {
        taken := BitWrite(true);
      } else if h.RESBR? {
        taken := BitWrite(false);
      } else if h.JPNN? {
        taken := Jump(Opw(opcode, 1));
      } else if h.JPCCNN? {
        taken := JumpCond();
      } else if h.JRE? {
        taken := JumpRel();
      } else if h.JPiHL? {
        taken := Jump(reg.hl);
      } else if h.JPiIX? {
        taken := Jump(reg.ix);
      } else if h.JPiIY? {
        taken := Jump(reg.iy);
      } else {
        assert false;
      }
    }

    /** `Execute` for the call, return and restart handlers other than CALL cc. */
    method ExecuteCall(h: Handler) returns (taken: bool)
      requires Valid() && CallGroup(h)
      modifies this`reg, this`mem, this`u8, this`res, this`u16, this`iff1, this`iff2, this`halt,
               this`intmode, this`ioLog
      ensures taken
    {
      if h.CALLNN? {
        taken := Call();
      } else if h.RET? {
        taken := Return(false);
      } else if h.RETCC? {
        taken := ReturnCond();
      } else if h.RETI? {
        taken := Return(false);
      } else if h.RETN? {
        taken := Return(true);
      } else if h.RSTP? {
        taken := Restart();
      } else {
        assert false;
      }
    }

    /** `Execute` for the single-step input/output handlers and the placeholders for undocumented and invalid opcodes. */
    method ExecuteIo(h: Handler) returns (taken: bool)
      requires Valid() && IoGroup(h)
      modifies this`reg, this`mem, this`u8, this`res, this`u16, this`iff1, this`iff2, this`halt,
               this`intmode, this`ioLog
      ensures taken
    {
      if h.INAiN? {
        taken := InAImm();
      } else if h.INRiC? {
        taken := InRegC(true);
      } else if h.INI? {
        taken := BlockIn(true);
      } else if h.IND? {
        taken := BlockIn(false);
      } else if h.OUTiNA? {
        taken := OutImmA();
      } else if h.OUTiCR? {
        taken := OutCReg();
      } else if h.OUTI? {
        taken := BlockOut(true);
      } else if h.OUTD? {
        taken := BlockOut(false);
      } else if h.INiC? {
        taken := InRegC(false);
      } else if h.OUTiC0? {
        taken := OutC0();
      } else if h.UNDOC? {
        taken := NoOperation();
      } else if h.INVAL? {
        taken := NoOperation();
      } else {
        assert false;
      }
    }

    /** `Execute` for the repeating block transfer and search handlers. */
    method ExecuteRepeat(h: Handler) returns (taken: bool)
      requires Valid() && RepeatGroup(h)
      modifies this`reg, this`mem, this`u8, this`res, this`u16, this`iff1, this`iff2, this`halt,
               this`intmode, this`ioLog
      ensures taken == Taken(h, old(opcode), old(reg), old(mem))
    {
      if h.LDIR? {
        taken := BlockLoadRepeat(true);
      } else if h.LDDR? {
        taken := BlockLoadRepeat(false);
      } else if h.CPIR? {
        taken := BlockCompareRepeat(true);
      } else if h.CPDR? {
        taken := BlockCompareRepeat(false);
      } else {
        assert false;
      }
    }

    /** `Execute` for the repeating block input/output handlers. */
    method ExecuteRepeatIo(h: Handler) returns (taken: bool)
      requires Valid() && RepeatIoGroup(h)
      modifies this`reg, this`mem, this`u8, this`res, this`u16, this`iff1, this`iff2, this`halt,
               this`intmode, this`ioLog
      ensures taken == Taken(h, old(opcode), old(reg), old(mem))
    {
      if h.INIR? {
        taken := BlockInRepeat(true);
      } else if h.INDR? {
        taken := BlockInRepeat(false);
      } else if h.OTIR? {
        taken := BlockOutRepeat(true);
      } else if h.OTDR? {
        taken := BlockOutRepeat(false);
      } else {
        assert false;
      }
    }

    /** `Execute` for the flag-tested relative jumps. */
    method ExecuteRelJump(h: Handler) returns (taken: bool)
      requires Valid() && RelJumpGroup(h)
      modifies this`reg, this`mem, this`u8, this`res, this`u16, this`iff1, this`iff2, this`halt,
               this`intmode, this`ioLog
      ensures taken == Taken(h, old(opcode), old(reg), old(mem))
    {
      if h.JRCE? {
        taken := JumpRelCond(3);
      } else if h.JRNCE? {
        taken := JumpRelCond(2);
      } else if h.JRZE? {
        taken := JumpRelCond(1);
      } else if h.JRNZE? {
        taken := JumpRelCond(0);
      } else {
        assert false;
      }
    }

    /** `Execute` for DJNZ and CALL cc. */
    method ExecuteCountCall(h: Handler) returns (taken: bool)
      requires Valid() && CountCallGroup(h)
      modifies this`reg, this`mem, this`u8, this`res, this`u16, this`iff1, this`iff2, this`halt,
               this`intmode, this`ioLog
      ensures taken == Taken(h, old(opcode), old(reg), old(mem))
    {
      if h.DJNZE? {
        taken := DecJumpNonZero();
      } else if h.CALLCCNN? {
        taken := CallCond();
      } else {
        assert false;
      }
    }


    // ------------------------------------------------------------ 8-bit loads

    /**
     * LD r,r' (LDRR), IX/IY halves under DD/FD: the source register goes to
     * `u8` and from there to the destination. Code 6 (the memory operand) is
     * skipped on either side, so `u8` keeps its old value for a source 6.
     */
    method LoadRegReg() returns (ok: bool)
      requires Valid()
      modifies this`reg, this`u8
      ensures ok
      ensures var b := old(opcode)[IdxD(old(prefix))]; var x := IdxOf(old(prefix));
        var v := if IsRegCode(b & 7) then Reg8(old(reg), b & 7, x) else old(u8);
        && u8 == v
        && reg == (if IsRegCode((b >> 3) & 7) then SetReg8(old(reg), (b >> 3) & 7, x, v) else old(reg))
    {
      var b := opcode[IdxD(prefix)];
      var x := IdxOf(prefix);
      var v := if IsRegCode(b & 7) then Reg8(reg, b & 7, x) else u8;
      u8 := v;
      if IsRegCode((b >> 3) & 7) {
        reg := SetReg8(reg, (b >> 3) & 7, x, v);
      }
      ok := true;
    }

    /** LD (HL),r / LD (IX+d),r / LD (IY+d),r (LDiRR): the source uses plain H and L. */
    method StoreReg() returns (ok: bool)
      requires Valid()
      modifies this`mem, this`u8
      ensures ok
      ensures var b := old(opcode)[IdxD(old(prefix))];
        var v := if IsRegCode(b & 7) then Reg8(old(reg), b & 7, UseHL) else old(u8);
        u8 == v && mem == Poke(old(mem), IdxAddr(old(reg), old(opcode), old(prefix)), v)
    {
      var b := opcode[IdxD(prefix)];
      var v := if IsRegCode(b & 7) then Reg8(reg, b & 7, UseHL) else u8;
      u8 := v;
      mem := Poke(mem, IdxAddr(reg, opcode, prefix), v);
      ok := true;
    }

    /** LD r,(HL) / LD r,(IX+d) / LD r,(IY+d) (LDRRi): the destination uses plain H and L. */
    method LoadRegMem() returns (ok: bool)
      requires Valid()
      modifies this`reg, this`u8
      ensures ok
      ensures var b := old(opcode)[IdxD(old(prefix))];
        var v := old(mem)(IdxAddr(old(reg), old(opcode), old(prefix)));
        && u8 == v
        && reg == (if IsRegCode((b >> 3) & 7) then SetReg8(old(reg), (b >> 3) & 7, UseHL, v) else old(reg))
    {
      var b := opcode[IdxD(prefix)];
      var v := mem(IdxAddr(reg, opcode, prefix));
      u8 := v;
      if IsRegCode((b >> 3) & 7) {
        reg := SetReg8(reg, (b >> 3) & 7, UseHL, v);
      }
      ok := true;
    }

    /**
     * LD r,n / LD (HL),n / LD (IX+d),n (LDRN). B, C, D, E and A take
     * `OPB(1 + 2d)`, the IX/IY halves `OPB(2)` and H, L `OPB(1)`; the memory
     * form stores `OPB(3)` at (IX+d)/(IY+d) or `OPB(1)` at (HL).
     */
    method LoadRegImm() returns (ok: bool)
      requires Valid()
      modifies this`reg, this`mem
      ensures ok
      ensures var op := old(opcode); var d := IdxD(old(prefix)); var code := (op[d] >> 3) & 7;
        var x := IdxOf(old(prefix));
        && (code == 6 ==> reg == old(reg) && mem == Poke(old(mem), IdxAddr(old(reg), op, old(prefix)), op[1 + 2 * d]))
        && (code == 4 || code == 5 ==> mem == old(mem) && reg == SetReg8(old(reg), code, x, op[1 + d]))
        && (code < 4 || code == 7 ==> mem == old(mem) && reg == SetReg8(old(reg), code, x, op[1 + 2 * d]))
    {
      var d := IdxD(prefix);
      var code := (opcode[d] >> 3) & 7;
      var x := IdxOf(prefix);
      if code == 6 {
        mem := Poke(mem, IdxAddr(reg, opcode, prefix), opcode[1 + 2 * d]);
      } else if code == 4 || code == 5 {
        reg := SetReg8(reg, code, x, opcode[1 + d]);
      } else {
        reg := SetReg8(reg, code, x, opcode[1 + 2 * d]);
      }
      ok := true;
    }

    /** LD A,(BC) / LD A,(DE) / LD A,(nn). */
    method LoadAFrom(addr: bv16) returns (ok: bool)
      modifies this`reg
      ensures ok && reg == WithA(old(reg), old(mem)(addr))
    {
      reg := WithA(reg, mem(addr));
      ok := true;
    }

    /** LD (BC),A / LD (DE),A / LD (nn),A. */
    method StoreA(addr: bv16) returns (ok: bool)
      modifies this`mem
      ensures ok && mem == Poke(old(mem), addr, A(old(reg)))
    {
      mem := Poke(mem, addr, A(reg));
      ok := true;
    }

    /** LD A,I and LD A,R: S and Z from the value, H and N clear, P/V = IFF2. */
    method LoadASpecial(fromR: bool) returns (ok: bool)
      modifies this`reg
      ensures ok
      ensures var v := if fromR then R(old(reg)) else I(old(reg));
        reg == WithF(WithA(old(reg), v), SignZero(F(old(reg)), v).(h := false, p := old(iff2), n := false))
    {
      var v := if fromR then R(reg) else I(reg);
      reg := WithF(WithA(reg, v), SignZero(F(reg), v).(h := false, p := iff2, n := false));
      ok := true;
    }

    /** LD I,A and LD R,A. */
    method StoreASpecial(toR: bool) returns (ok: bool)
      modifies this`reg
      ensures ok
      ensures reg == old(reg).(ir := if toR then WithLo(old(reg).ir, A(old(reg))) else WithHi(old(reg).ir, A(old(reg))))
    {
      reg := reg.(ir := if toR then WithLo(reg.ir, A(reg)) else WithHi(reg.ir, A(reg)));
      ok := true;
    }

    // ------------------------------------------------------------ 16-bit loads

    /**
     * LD dd,nn / LD IX,nn / LD IY,nn (LDDDNN): pair code from bits 5-4 of the
     * opcode byte; IX and IY take `OPW(2)`, every other case `OPW(1)`.
     */
    method LoadPairImm() returns (ok: bool)
      requires Valid()
      modifies this`reg
      ensures ok
      ensures var op := old(opcode); var code := (op[IdxD(old(prefix))] >> 4) & 3; var x := IdxOf(old(prefix));
        reg == SetPair16(old(reg), code, x, if code == 2 && x != UseHL then Opw(op, 2) else Opw(op, 1))
    {
      var code := (opcode[IdxD(prefix)] >> 4) & 3;
      var x := IdxOf(prefix);
      reg := SetPair16(reg, code, x, if code == 2 && x != UseHL then Opw(opcode, 2) else Opw(opcode, 1));
      ok := true;
    }

    /** LD HL,(nn) / LD dd,(nn) / LD IX,(nn) / LD IY,(nn): the pair reads `memRd16(addr)`. */
    method LoadPairMem(code: bv8, x: Index, addr: bv16) returns (ok: bool)
      requires code < 4
      modifies this`reg
      ensures ok && reg == SetPair16(old(reg), code, x, Peek16(old(mem), addr))
    {
      reg := SetPair16(reg, code, x, Peek16(mem, addr));
      ok := true;
    }

    /** LD (nn),HL / LD (nn),dd / LD (nn),IX / LD (nn),IY: `memWr16(addr, w)`. */
    method StoreWord(addr: bv16, w: bv16) returns (ok: bool)
      modifies this`mem
      ensures ok && mem == Poke16(old(mem), addr, w)
    {
      mem := Poke16(mem, addr, w);
      ok := true;
    }

    /** LD SP,HL / LD SP,IX / LD SP,IY. */
    method LoadSP(w: bv16) returns (ok: bool)
      modifies this`reg
      ensures ok && reg == old(reg).(sp := w)
    {
      reg := reg.(sp := w);
      ok := true;
    }

    /** PUSH qq / PUSH IX / PUSH IY. */
    method PushWord(w: bv16) returns (ok: bool)
      modifies this`reg, this`mem
      ensures ok
      ensures reg == old(reg).(sp := old(reg).sp - 2) && mem == PushMem(old(reg), old(mem), w)
    {
      Push(w);
      ok := true;
    }

    /** POP qq: the pair of bits 5-4 (BC, DE, HL, AF) takes the word at SP. */
    method PopPair() returns (ok: bool)
      requires Valid()
      modifies this`reg
      ensures ok
      ensures reg == SetStackPair(old(reg).(sp := old(reg).sp + 2), (old(opcode)[0] >> 4) & 3, Peek16(old(mem), old(reg).sp))
    {
      var w := Pop();
      reg := SetStackPair(reg, (opcode[0] >> 4) & 3, w);
      ok := true;
    }

    /** POP IX / POP IY. */
    method PopIndex(x: Index) returns (ok: bool)
      modifies this`reg
      ensures ok
      ensures reg == WithIndexPair(old(reg).(sp := old(reg).sp + 2), x, Peek16(old(mem), old(reg).sp))
    {
      var w := Pop();
      reg := WithIndexPair(reg, x, w);
      ok := true;
    }

    // ------------------------------------------------------------ exchanges

    /** EX DE,HL, through WZ, which ends holding the old HL. */
    method ExDeHl() returns (ok: bool)
      modifies this`reg
      ensures ok && reg == old(reg).(de := old(reg).hl, hl := old(reg).de, wz := old(reg).hl)
    {
      var r := reg.(wz := reg.hl);
      r := r.(hl := r.de);
      reg := r.(de := r.wz);
      ok := true;
    }

    /** EX AF,AF', through WZ. */
    method ExAf() returns (ok: bool)
      modifies this`reg
      ensures ok && reg == SwapAf(old(reg)).(wz := old(reg).af)
    {
      var r := reg.(wz := reg.af);
      r := r.(af := r.af1);
      reg := r.(af1 := r.wz);
      ok := true;
    }

    /** EXX, through WZ, which ends holding the old HL. */
    method Exx() returns (ok: bool)
      modifies this`reg
      ensures ok
      ensures reg == SwapSets(old(reg)).(wz := old(reg).hl)
    {
      var r := reg.(wz := reg.bc);
      r := r.(bc := r.bc1);
      r := r.(bc1 := r.wz);
      r := r.(wz := r.de);
      r := r.(de := r.de1);
      r := r.(de1 := r.wz);
      r := r.(wz := r.hl);
      r := r.(hl := r.hl1);
      reg := r.(hl1 := r.wz);
      ok := true;
    }

    /** EX (SP),HL / EX (SP),IX / EX (SP),IY: the pair and the word at SP trade places via WZ. */
    method ExSp(x: Index) returns (ok: bool)
      modifies this`reg, this`mem
      ensures ok
      ensures mem == Poke16(old(mem), old(reg).sp, IndexPair(old(reg), x))
      ensures reg == WithIndexPair(old(reg).(wz := Peek16(old(mem), old(reg).sp)), x, Peek16(old(mem), old(reg).sp))
    {
      var w := Peek16(mem, reg.sp);
      mem := Poke16(mem, reg.sp, IndexPair(reg, x));
      reg := WithIndexPair(reg.(wz := w), x, w);
      ok := true;
    }

    // ------------------------------------------------------------ block transfer and search

    /**
     * LDI / LDD: copy (HL) to (DE), step DE and HL up (LDI) or down (LDD),
     * count BC down; H and N clear, P/V iff BC is still non-zero.
     */
    method BlockLoad(up: bool) returns (ok: bool)
      modifies this`reg, this`mem
      ensures ok
      ensures mem == Poke(old(mem), old(reg).de, old(mem)(old(reg).hl))
      ensures var r1 := old(reg).(de := if up then old(reg).de + 1 else old(reg).de - 1,
                                   hl := if up then old(reg).hl + 1 else old(reg).hl - 1,
                                   bc := old(reg).bc - 1);
        reg == WithF(r1, F(old(reg)).(h := false, p := r1.bc != 0, n := false))
    {
      mem, reg := Poke(mem, reg.de, mem(reg.hl)),
        var r1 := reg.(de := if up then reg.de + 1 else reg.de - 1,
                            hl := if up then reg.hl + 1 else reg.hl - 1,
                            bc := reg.bc - 1);
        WithF(r1, F(reg).(h := false, p := r1.bc != 0, n := false));
      ok := true;
    }

    /** LDIR / LDDR: one LDI/LDD step; while BC is non-zero PC moves back 2 to repeat. */
    method BlockLoadRepeat(up: bool) returns (ok: bool)
      modifies this`reg, this`mem
      ensures ok == (old(reg).bc - 1 != 0)
      ensures mem == Poke(old(mem), old(reg).de, old(mem)(old(reg).hl))
      ensures var r1 := old(reg).(de := if up then old(reg).de + 1 else old(reg).de - 1,
                                   hl := if up then old(reg).hl + 1 else old(reg).hl - 1,
                                   bc := old(reg).bc - 1);
        var r2 := WithF(r1, F(old(reg)).(h := false, p := r1.bc != 0, n := false));
        reg == if ok then r2.(pc := r2.pc - 2) else r2
    {
      ok := BlockLoad(up);
      if reg.bc != 0 {
        reg := reg.(pc := reg.pc - 2);
        return true;
      }
      ok := false;
    }

    /**
     * CPI / CPD: `u8` = (HL), `res` = A - u8; HL steps, BC counts down;
     * S and Z from `res`, H = `isB(res, u8, 0, 4)`, P/V iff BC is non-zero,
     * N set, C kept.
     */
    method BlockCompare(up: bool) returns (ok: bool)
      modifies this`reg, this`u8, this`res
      ensures ok
      ensures var v := old(mem)(old(reg).hl); var d := A(old(reg)) - v;
        var r1 := old(reg).(hl := if up then old(reg).hl + 1 else old(reg).hl - 1, bc := old(reg).bc - 1);
        && u8 == v && res == d
        && reg == WithF(r1, SignZero(F(old(reg)), d).(h := IsB(d as bv32, v as bv32, 0, 4), p := r1.bc != 0, n := true))
    {
      u8, res, reg := mem(reg.hl), A(reg) - mem(reg.hl),
        var v := mem(reg.hl); var d := A(reg) - v;
        var r1 := reg.(hl := if up then reg.hl + 1 else reg.hl - 1, bc := reg.bc - 1);
        WithF(r1, SignZero(F(reg), d).(h := IsB(d as bv32, v as bv32, 0, 4), p := r1.bc != 0, n := true));
      ok := true;
    }

    /** CPIR / CPDR: one CPI/CPD step, repeated (PC back by 2) while BC is non-zero and A differed from (HL). */
    method BlockCompareRepeat(up: bool) returns (ok: bool)
      modifies this`reg, this`u8, this`res
      ensures var v := old(mem)(old(reg).hl); var d := A(old(reg)) - v;
        var r1 := old(reg).(hl := if up then old(reg).hl + 1 else old(reg).hl - 1, bc := old(reg).bc - 1);
        var r2 := WithF(r1, SignZero(F(old(reg)), d).(h := IsB(d as bv32, v as bv32, 0, 4), p := r1.bc != 0, n := true));
        && u8 == v && res == d
        && ok == (r1.bc != 0 && d != 0)
        && reg == if ok then r2.(pc := r2.pc - 2) else r2
    {
      ok := BlockCompare(up);
      if reg.bc != 0 && res != 0 {
        reg := reg.(pc := reg.pc - 2);
        return true;
      }
      ok := false;
    }

    // ------------------------------------------------------------ 8-bit arithmetic

    /**
     * ADD/ADC/SUB/SBC/AND/XOR/OR/CP with a register or memory operand (code
     * in bits 2-0, IX/IY halves and (IX+d)/(IY+d) under DD/FD). The operand
     * is left in `u8`; CP leaves A - u8 in `res`.
     */
    method AluReg(op: AluOp) returns (ok: bool)
      requires Valid()
      modifies this`reg, this`u8, this`res
      ensures ok
      ensures var v := Operand(old(reg), old(mem), old(opcode), old(prefix), old(opcode)[IdxD(old(prefix))] & 7);
        var o := Alu(op, A(old(reg)), v, F(old(reg)));
        && u8 == v
        && reg == WithF(WithA(old(reg), o.a), o.f)
        && res == (if op == Cp then o.result else old(res))
    {
      var v := Operand(reg, mem, opcode, prefix, opcode[IdxD(prefix)] & 7);
      var o := Alu(op, A(reg), v, F(reg));
      u8 := v;
      reg := WithF(WithA(reg, o.a), o.f);
      if op == Cp {
        res := o.result;
      }
      ok := true;
    }

    /**
     * The same operations with the immediate `OPB(1)`. ADD, ADC, SUB, SBC and
     * CP copy it to `u8` first; AND, OR and XOR use it directly.
     */
    method AluImm(op: AluOp) returns (ok: bool)
      requires Valid()
      modifies this`reg, this`u8, this`res
      ensures ok
      ensures var o := Alu(op, A(old(reg)), old(opcode)[1], F(old(reg)));
        && u8 == (if op == And || op == Or || op == Xor then old(u8) else old(opcode)[1])
        && reg == WithF(WithA(old(reg), o.a), o.f)
        && res == (if op == Cp then o.result else old(res))
    {
      var o := Alu(op, A(reg), opcode[1], F(reg));
      if !(op == And || op == Or || op == Xor) {
        u8 := opcode[1];
      }
      reg := WithF(WithA(reg, o.a), o.f);
      if op == Cp {
        res := o.result;
      }
      ok := true;
    }

    /** INC r / INC (HL) / INC (IX+d): the incremented byte is written back and left in `u8`. */
    method IncReg() returns (ok: bool)
      requires Valid()
      modifies this`reg, this`mem, this`u8
      ensures ok
      ensures var code := (old(opcode)[IdxD(old(prefix))] >> 3) & 7;
        var v := Operand(old(reg), old(mem), old(opcode), old(prefix), code) + 1;
        && u8 == v
        && mem == (if code == 6 then Poke(old(mem), IdxAddr(old(reg), old(opcode), old(prefix)), v) else old(mem))
        && reg == WithF(if code == 6 then old(reg) else SetReg8(old(reg), code, IdxOf(old(prefix)), v), IncFlags(F(old(reg)), v))
    {
      u8 := Operand(reg, mem, opcode, prefix, (opcode[IdxD(prefix)] >> 3) & 7) + 1;
      if (opcode[IdxD(prefix)] >> 3) & 7 == 6 {
        mem := Poke(mem, IdxAddr(reg, opcode, prefix), u8);
      }
      reg := var code := (opcode[IdxD(prefix)] >> 3) & 7;
        WithF(if code == 6 then reg else SetReg8(reg, code, IdxOf(prefix), u8), IncFlags(F(reg), u8));
      ok := true;
    }

    /** DEC r / DEC (HL) / DEC (IX+d). */
    method DecReg() returns (ok: bool)
      requires Valid()
      modifies this`reg, this`mem, this`u8
      ensures ok
      ensures var code := (old(opcode)[IdxD(old(prefix))] >> 3) & 7;
        var v := Operand(old(reg), old(mem), old(opcode), old(prefix), code) - 1;
        && u8 == v
        && mem == (if code == 6 then Poke(old(mem), IdxAddr(old(reg), old(opcode), old(prefix)), v) else old(mem))
        && reg == WithF(if code == 6 then old(reg) else SetReg8(old(reg), code, IdxOf(old(prefix)), v), DecFlags(F(old(reg)), v))
    {
      u8 := Operand(reg, mem, opcode, prefix, (opcode[IdxD(prefix)] >> 3) & 7) - 1;
      if (opcode[IdxD(prefix)] >> 3) & 7 == 6 {
        mem := Poke(mem, IdxAddr(reg, opcode, prefix), u8);
      }
      reg := var code := (opcode[IdxD(prefix)] >> 3) & 7;
        WithF(if code == 6 then reg else SetReg8(reg, code, IdxOf(prefix), u8), DecFlags(F(reg), u8));
      ok := true;
    }

    // ------------------------------------------------------------ general purpose and control

    /** DAA. */
    method DecimalAdjust() returns (ok: bool)
      modifies this`reg
      ensures ok
      ensures var o := Daa(A(old(reg)), F(old(reg))); reg == WithF(WithA(old(reg), o.a), o.f)
    {
      var o := Daa(A(reg), F(reg));
      reg := WithF(WithA(reg, o.a), o.f);
      ok := true;
    }

    /** CPL: A = ~A, H and N set. */
    method Complement() returns (ok: bool)
      modifies this`reg
      ensures ok && reg == WithF(WithA(old(reg), !A(old(reg))), F(old(reg)).(h := true, n := true))
    {
      reg := WithF(WithA(reg, !A(reg)), F(reg).(h := true, n := true));
      ok := true;
    }

    /**
     * NEG: `u8` = A, A = 0 - A; S, Z from the result, H = `isB(A, u8, 0, 4)`,
     * P/V iff A was 0x80, N set, C iff A was non-zero.
     */
    method Negate() returns (ok: bool)
      modifies this`reg, this`u8
      ensures ok
      ensures var v := A(old(reg)); var a := 0 - v;
        && u8 == v
        && reg == WithF(WithA(old(reg), a),
                        SignZero(F(old(reg)), a).(h := IsB(a as bv32, v as bv32, 0, 4), p := v == 0x80, n := true, c := v != 0))
    {
      var v := A(reg);
      var a := 0 - v;
      u8 := v;
      reg := WithF(WithA(reg, a), SignZero(F(reg), a).(h := IsB(a as bv32, v as bv32, 0, 4), p := v == 0x80, n := true, c := v != 0));
      ok := true;
    }

    /** CCF: H takes the old carry, N clear, C inverted. */
    method ComplementCarry() returns (ok: bool)
      modifies this`reg
      ensures ok && reg == WithF(old(reg), F(old(reg)).(h := F(old(reg)).c, n := false, c := !F(old(reg)).c))
    {
      reg := WithF(reg, F(reg).(h := F(reg).c, n := false, c := !F(reg).c));
      ok := true;
    }

    /** SCF: H and N clear, C set. */
    method SetCarry() returns (ok: bool)
      modifies this`reg
      ensures ok && reg == WithF(old(reg), F(old(reg)).(h := false, n := false, c := true))
    {
      reg := WithF(reg, F(reg).(h := false, n := false, c := true));
      ok := true;
    }

    /** NOP, and the logging-only UNDOC and INVAL. */
    method NoOperation() returns (ok: bool)
      ensures ok
    {
      ok := true;
    }

    /** HALT: set `bHalt` and move PC back onto the HALT so it is fetched again. */
    method Halt() returns (ok: bool)
      modifies this`halt, this`reg
      ensures ok && halt && reg == old(reg).(pc := old(reg).pc - 1)
    {
      halt := true;
      reg := reg.(pc := reg.pc - 1);
      ok := true;
    }

    /** DI / EI: both flip-flops together. */
    method SetInterrupts(enable: bool) returns (ok: bool)
      modifies this`iff1, this`iff2
      ensures ok && iff1 == enable && iff2 == enable
    {
      iff1 := enable;
      iff2 := enable;
      ok := true;
    }

    /** IM 0 / IM 1 / IM 2. */
    method SetIntMode(mode: bv8) returns (ok: bool)
      modifies this`intmode
      ensures ok && intmode == mode
    {
      intmode := mode;
      ok := true;
    }

    // ------------------------------------------------------------ 16-bit arithmetic

    /**
     * ADD HL,ss (pair code from `OPB(0)`) and ADD IX,ss / ADD IY,ss (from
     * `OPB(1)`, pair 2 being the index register itself): `u16` = the pair,
     * the target grows by it, H = `isC(.., 12)`, N clear, C = `isC(.., 16)`.
     */
    method AddPair(x: Index, code: bv8) returns (ok: bool)
      requires code < 4
      modifies this`reg, this`u16
      ensures ok
      ensures var v := Pair16(old(reg), code, x); var w := IndexPair(old(reg), x) + v;
        && u16 == v
        && reg == WithF(WithIndexPair(old(reg), x, w), Add16Flags(F(old(reg)), w, v))
    {
      u16, reg := Pair16(reg, code, x),
        var v := Pair16(reg, code, x); var w := IndexPair(reg, x) + v;
        WithF(WithIndexPair(reg, x, w), Add16Flags(F(reg), w, v));
      ok := true;
    }

    /** ADC HL,ss: HL += ss + C; S from bit 15, Z, H, P/V = `isO(.., 16)`, N clear, C. */
    method AdcHl() returns (ok: bool)
      requires Valid()
      modifies this`reg, this`u16
      ensures ok
      ensures var v := Pair16(old(reg), (old(opcode)[1] >> 4) & 3, UseHL); var cin := F(old(reg)).c;
        var w := old(reg).hl + v + Carry(cin) as bv16;
        && u16 == v
        && reg == WithF(old(reg).(hl := w), Adc16Flags(F(old(reg)), w, v, cin))
    {
      u16, reg := Pair16(reg, (opcode[1] >> 4) & 3, UseHL),
        var v := Pair16(reg, (opcode[1] >> 4) & 3, UseHL); var cin := F(reg).c;
        var w := reg.hl + v + Carry(cin) as bv16;
        WithF(reg.(hl := w), Adc16Flags(F(reg), w, v, cin));
      ok := true;
    }

    /** SBC HL,ss: HL -= ss + C; borrow flags from `isB`, P/V from `isU`, N set. */
    method SbcHl() returns (ok: bool)
      requires Valid()
      modifies this`reg, this`u16
      ensures ok
      ensures var v := Pair16(old(reg), (old(opcode)[1] >> 4) & 3, UseHL); var cin := F(old(reg)).c;
        var w := old(reg).hl - v - Carry(cin) as bv16;
        && u16 == v
        && reg == WithF(old(reg).(hl := w), Sbc16Flags(F(old(reg)), w, v, cin))
    {
      u16, reg := Pair16(reg, (opcode[1] >> 4) & 3, UseHL),
        var v := Pair16(reg, (opcode[1] >> 4) & 3, UseHL); var cin := F(reg).c;
        var w := reg.hl - v - Carry(cin) as bv16;
        WithF(reg.(hl := w), Sbc16Flags(F(reg), w, v, cin));
      ok := true;
    }

    /** INC ss / DEC ss / INC IX / DEC IX / INC IY / DEC IY: no flags. */
    method StepPair(code: bv8, x: Index, up: bool) returns (ok: bool)
      requires code < 4
      modifies this`reg
      ensures ok
      ensures var w := Pair16(old(reg), code, x);
        reg == SetPair16(old(reg), code, x, if up then w + 1 else w - 1)
    {
      reg := var w := Pair16(reg, code, x); SetPair16(reg, code, x, if up then w + 1 else w - 1);
      ok := true;
    }

    // ------------------------------------------------------------ rotates and shifts

    /** RLCA / RLA / RRCA / RRA: rotate A; only C changes besides H and N, which clear. */
    method RotateA(k: ShiftOp) returns (ok: bool)
      requires k == Rlc || k == Rl || k == Rrc || k == Rr
      modifies this`reg, this`u8
      ensures ok
      ensures var s := Shift(k, A(old(reg)), F(old(reg)).c);
        && reg == WithF(WithA(old(reg), s.0), F(old(reg)).(h := false, n := false, c := s.1))
        && u8 == (if k == Rl then Carry(F(old(reg)).c) else if k == Rr then A(old(reg)) & 1 else old(u8))
    {
      var s := Shift(k, A(reg), F(reg).c);
      u8 := if k == Rl then Carry(F(reg).c) else if k == Rr then A(reg) & 1 else u8;
      reg := WithF(WithA(reg, s.0), F(reg).(h := false, n := false, c := s.1));
      ok := true;
    }

    /**
     * RLC/RL/RRC/RR/SLA/SRA/SLL/SRL on r, (HL), (IX+d) or (IY+d): the value
     * passes through W (the high byte of WZ), is written back, and sets S, Z,
     * P = parity, H and N clear, and C = the bit shifted out.
     */
    method ShiftCb(k: ShiftOp) returns (ok: bool)
      requires Valid()
      modifies this`reg, this`mem, this`u8
      ensures ok
      ensures var op := old(opcode); var p := old(prefix); var code := op[CbD(p)] & 7;
        var w := CbOperand(old(reg), old(mem), op, p, code);
        var s := Shift(k, w, F(old(reg)).c);
        && mem == CbPutMem(old(reg), old(mem), op, p, code, s.0)
        && reg == WithF(CbPutReg(old(reg).(wz := WithHi(old(reg).wz, s.0)), code, s.0), ParityFlags(F(old(reg)), s.0).(c := s.1))
        && u8 == (if k == Rl then Carry(F(old(reg)).c) else if k == Rr then w & 1 else old(u8))
    {
      var code := opcode[CbD(prefix)] & 7;
      var w := CbOperand(reg, mem, opcode, prefix, code);
      var s := Shift(k, w, F(reg).c);
      u8 := if k == Rl then Carry(F(reg).c) else if k == Rr then w & 1 else u8;
      mem := CbPutMem(reg, mem, opcode, prefix, code, s.0);
      reg := WithF(CbPutReg(reg.(wz := WithHi(reg.wz, s.0)), code, s.0), ParityFlags(F(reg), s.0).(c := s.1));
      ok := true;
    }

    /**
     * RLD: with W = A and Z = (HL), WZ's low twelve bits rotate left by a
     * nibble; A gets W and (HL) gets Z. S, Z, parity of A, H and N clear.
     */
    method RotateDigitLeft() returns (ok: bool)
      modifies this`reg, this`mem
      ensures ok
      ensures var wz := DigitLeft(Pair(A(old(reg)), old(mem)(old(reg).hl)));
        && mem == Poke(old(mem), old(reg).hl, Lo(wz))
        && reg == WithF(WithA(old(reg).(wz := wz), Hi(wz)), ParityFlags(F(old(reg)), Hi(wz)))
    {
      var wz := DigitLeft(Pair(A(reg), mem(reg.hl)));
      mem := Poke(mem, reg.hl, Lo(wz));
      reg := WithF(WithA(reg.(wz := wz), Hi(wz)), ParityFlags(F(reg), Hi(wz)));
      ok := true;
    }

    /** RRD: as RLD with the twelve bits rotated right by a nibble. */
    method RotateDigitRight() returns (ok: bool)
      modifies this`reg, this`mem
      ensures ok
      ensures var wz := DigitRight(Pair(A(old(reg)), old(mem)(old(reg).hl)));
        && mem == Poke(old(mem), old(reg).hl, Lo(wz))
        && reg == WithF(WithA(old(reg).(wz := wz), Hi(wz)), ParityFlags(F(old(reg)), Hi(wz)))
    {
      var wz := DigitRight(Pair(A(reg), mem(reg.hl)));
      mem := Poke(mem, reg.hl, Lo(wz));
      reg := WithF(WithA(reg.(wz := wz), Hi(wz)), ParityFlags(F(reg), Hi(wz)));
      ok := true;
    }

    // ------------------------------------------------------------ bit operations

    /**
     * BIT b,r / BIT b,(HL) / BIT b,(IX+d): the operand goes to `u8`; Z and
     * P/V iff bit b is clear, S only for b = 7 and then bit 7, H set, N clear.
     */
    method BitTest() returns (ok: bool)
      requires Valid()
      modifies this`reg, this`u8
      ensures ok
      ensures var op := old(opcode); var b := op[CbD(old(prefix))];
        var v := CbOperand(old(reg), old(mem), op, old(prefix), b & 7);
        && u8 == v
        && reg == WithF(old(reg), BitFlags(F(old(reg)), v, (b >> 3) & 7))
    {
      var b := opcode[CbD(prefix)];
      var v := CbOperand(reg, mem, opcode, prefix, b & 7);
      u8 := v;
      reg := WithF(reg, BitFlags(F(reg), v, (b >> 3) & 7));
      ok := true;
    }

    /** SET b / RES b on r, (HL), (IX+d), (IY+d): the operand with bit b forced, written back; no flags. */
    method BitWrite(setBit: bool) returns (ok: bool)
      requires Valid()
      modifies this`reg, this`mem, this`u8
      ensures ok
      ensures var op := old(opcode); var p := old(prefix); var b := op[CbD(p)];
        var v := ForceBit(CbOperand(old(reg), old(mem), op, p, b & 7), (b >> 3) & 7, setBit);
        && u8 == v
        && mem == CbPutMem(old(reg), old(mem), op, p, b & 7, v)
        && reg == CbPutReg(old(reg), b & 7, v)
    {
      var b := opcode[CbD(prefix)];
      var v := ForceBit(CbOperand(reg, mem, opcode, prefix, b & 7), (b >> 3) & 7, setBit);
      u8 := v;
      mem := CbPutMem(reg, mem, opcode, prefix, b & 7, v);
      reg := CbPutReg(reg, b & 7, v);
      ok := true;
    }

    // ------------------------------------------------------------ jumps

    /** JP nn / JP (HL) / JP (IX) / JP (IY). */
    method Jump(target: bv16) returns (ok: bool)
      modifies this`reg
      ensures ok && reg == old(reg).(pc := target)
    {
      reg := reg.(pc := target);
      ok := true;
    }

    /** JP cc,nn: jump to `OPW(1)` if condition bits 5-3 hold; true either way. */
    method JumpCond() returns (ok: bool)
      requires Valid()
      modifies this`reg
      ensures ok
      ensures reg == if Cond(F(old(reg)), (old(opcode)[0] >> 3) & 7) then old(reg).(pc := Opw(old(opcode), 1)) else old(reg)
    {
      if Cond(F(reg), (opcode[0] >> 3) & 7) {
        reg := reg.(pc := Opw(opcode, 1));
      }
      ok := true;
    }

    /** JR e: PC moves by the signed displacement `OPB(1)`. */
    method JumpRel() returns (ok: bool)
      requires Valid()
      modifies this`reg
      ensures ok && reg == old(reg).(pc := old(reg).pc + Disp(old(opcode)[1]))
    {
      reg := reg.(pc := reg.pc + Disp(opcode[1]));
      ok := true;
    }

    /** JR C / JR NC / JR Z / JR NZ: jump and return true iff the condition holds. */
    method JumpRelCond(cc: bv8) returns (ok: bool)
      requires Valid() && cc < 4
      modifies this`reg
      ensures ok == Cond(F(old(reg)), cc)
      ensures reg == if ok then old(reg).(pc := old(reg).pc + Disp(old(opcode)[1])) else old(reg)
    {
      ok := Cond(F(reg), cc);
      if ok {
        reg := reg.(pc := reg.pc + Disp(opcode[1]));
      }
    }

    /** DJNZ e: B counts down; while it is non-zero the relative jump is taken. */
    method DecJumpNonZero() returns (ok: bool)
      requires Valid()
      modifies this`reg
      ensures ok == (B(old(reg)) - 1 != 0)
      ensures var r1 := old(reg).(bc := WithHi(old(reg).bc, B(old(reg)) - 1));
        reg == if ok then r1.(pc := r1.pc + Disp(old(opcode)[1])) else r1
    {
      ok := B(reg) - 1 != 0;
      reg := var r1 := reg.(bc := WithHi(reg.bc, B(reg) - 1));
        if ok then r1.(pc := r1.pc + Disp(opcode[1])) else r1;
    }

    // ------------------------------------------------------------ calls and returns

    /** CALL nn: `SP_ -= 2; memWr16(SP_, PC_)`, then PC = `OPW(1)`. */
    method Call() returns (ok: bool)
      requires Valid()
      modifies this`reg, this`mem
      ensures ok
      ensures reg == old(reg).(sp := old(reg).sp - 2).(pc := Opw(old(opcode), 1))
      ensures mem == Poke16(old(mem), old(reg).sp - 2, old(reg).pc)
    {
      reg := reg.(sp := reg.sp - 2);
      mem := Poke16(mem, reg.sp, reg.pc);
      reg := reg.(pc := Opw(opcode, 1));
      ok := true;
    }

    /** CALL cc,nn: push PC and jump if the condition holds, else return false. */
    method CallCond() returns (ok: bool)
      requires Valid()
      modifies this`reg, this`mem
      ensures ok == Cond(F(old(reg)), (old(opcode)[0] >> 3) & 7)
      ensures ok ==> reg == old(reg).(sp := old(reg).sp - 2).(pc := Opw(old(opcode), 1))
                     && mem == PushMem(old(reg), old(mem), old(reg).pc)
      ensures !ok ==> reg == old(reg) && mem == old(mem)
    {
      ok := Cond(F(reg), (opcode[0] >> 3) & 7);
      if ok {
        Push(reg.pc);
        reg := reg.(pc := Opw(opcode, 1));
      }
    }

    /** RET / RETI, and RETN, which first copies IFF2 into IFF1: PC pops off the stack. */
    method Return(restoreIff: bool) returns (ok: bool)
      modifies this`reg, this`iff1
      ensures ok
      ensures reg == old(reg).(sp := old(reg).sp + 2).(pc := Peek16(old(mem), old(reg).sp))
      ensures iff1 == if restoreIff then old(iff2) else old(iff1)
    {
      if restoreIff {
        iff1 := iff2;
      }
      var w := Pop();
      reg := reg.(pc := w);
      ok := true;
    }

    /** RET cc: pop PC if the condition holds; returns true either way. */
    method ReturnCond() returns (ok: bool)
      requires Valid()
      modifies this`reg
      ensures ok
      ensures reg == if Cond(F(old(reg)), (old(opcode)[0] >> 3) & 7)
                     then old(reg).(sp := old(reg).sp + 2).(pc := Peek16(old(mem), old(reg).sp))
                     else old(reg)
    {
      if Cond(F(reg), (opcode[0] >> 3) & 7) {
        var w := Pop();
        reg := reg.(pc := w);
      }
      ok := true;
    }

    /** RST p: push PC and jump to 8 times bits 5-3. */
    method Restart() returns (ok: bool)
      requires Valid()
      modifies this`reg, this`mem
      ensures ok
      ensures reg == old(reg).(sp := old(reg).sp - 2).(pc := ((old(opcode)[0] >> 3) & 7) as bv16 * 8)
      ensures mem == PushMem(old(reg), old(mem), old(reg).pc)
    {
      Push(reg.pc);
      reg := reg.(pc := ((opcode[0] >> 3) & 7) as bv16 * 8);
      ok := true;
    }

    // ------------------------------------------------------------ input and output

    /** IN A,(n). */
    method InAImm() returns (ok: bool)
      requires Valid()
      modifies this`reg
      ensures ok && reg == WithA(old(reg), ioRead(old(opcode)[1]))
    {
      reg := WithA(reg, ioRead(opcode[1]));
      ok := true;
    }

    /**
     * IN r,(C) (`store`) and the undocumented IN (C): `u8` = port C; IN r,(C)
     * stores it to the register of bits 5-3 (none for code 6); S, Z,
     * parity, H and N clear.
     */
    method InRegC(store: bool) returns (ok: bool)
      requires Valid()
      modifies this`reg, this`u8
      ensures ok
      ensures var v := ioRead(C(old(reg))); var code := (old(opcode)[1] >> 3) & 7;
        var r1 := if store && IsRegCode(code) then SetReg8(old(reg), code, UseHL, v) else old(reg);
        u8 == v && reg == WithF(r1, ParityFlags(F(old(reg)), v))
    {
      var v := ioRead(C(reg));
      var code := (opcode[1] >> 3) & 7;
      u8 := v;
      var r1 := if store && IsRegCode(code) then SetReg8(reg, code, UseHL, v) else reg;
      reg := WithF(r1, ParityFlags(F(reg), v));
      ok := true;
    }

    /** INI / IND: (HL) = port C, B counts down, HL steps; Z iff B reached 0, N set. */
    method BlockIn(up: bool) returns (ok: bool)
      modifies this`reg, this`mem
      ensures ok
      ensures mem == Poke(old(mem), old(reg).hl, ioRead(C(old(reg))))
      ensures reg == BlockIoRegs(old(reg), up)
    {
      mem := Poke(mem, reg.hl, ioRead(C(reg)));
      reg := BlockIoRegs(reg, up);
      ok := true;
    }

    /** INIR / INDR: one INI/IND step, repeated while B is non-zero. */
    method BlockInRepeat(up: bool) returns (ok: bool)
      modifies this`reg, this`mem
      ensures ok == (B(old(reg)) - 1 != 0)
      ensures mem == Poke(old(mem), old(reg).hl, ioRead(C(old(reg))))
      ensures var r1 := BlockIoRegs(old(reg), up); reg == if ok then r1.(pc := r1.pc - 2) else r1
    {
      BlockIoCountsDown(reg, up);
      ok := BlockIn(up);
      ok := B(reg) != 0;
      if ok {
        reg := reg.(pc := reg.pc - 2);
      }
    }

    /** OUT (n),A. */
    method OutImmA() returns (ok: bool)
      requires Valid()
      modifies this`ioLog
      ensures ok && ioLog == old(ioLog) + [(old(opcode)[1], A(old(reg)))]
    {
      IoWrite(opcode[1], A(reg));
      ok := true;
    }

    /** OUT (C),r: the register of bits 5-3 goes to port C; code 6 writes nothing. */
    method OutCReg() returns (ok: bool)
      requires Valid()
      modifies this`ioLog
      ensures ok
      ensures var code := (old(opcode)[1] >> 3) & 7;
        ioLog == if IsRegCode(code) then old(ioLog) + [(C(old(reg)), Reg8(old(reg), code, UseHL))] else old(ioLog)
    {
      var code := (opcode[1] >> 3) & 7;
      if IsRegCode(code) {
        IoWrite(C(reg), Reg8(reg, code, UseHL));
      }
      ok := true;
    }

    /** The undocumented OUT (C),0. */
    method OutC0() returns (ok: bool)
      modifies this`ioLog
      ensures ok && ioLog == old(ioLog) + [(C(old(reg)), 0)]
    {
      IoWrite(C(reg), 0);
      ok := true;
    }

    /** OUTI / OUTD: (HL) goes to port C, B counts down, HL steps; Z iff B reached 0, N set. */
    method BlockOut(up: bool) returns (ok: bool)
      modifies this`reg, this`ioLog
      ensures ok
      ensures ioLog == old(ioLog) + [(C(old(reg)), old(mem)(old(reg).hl))]
      ensures reg == BlockIoRegs(old(reg), up)
    {
      IoWrite(C(reg), mem(reg.hl));
      reg := BlockIoRegs(reg, up);
      ok := true;
    }

    /** OTIR / OTDR: one OUTI/OUTD step, repeated while B is non-zero. */
    method BlockOutRepeat(up: bool) returns (ok: bool)
      modifies this`reg, this`ioLog
      ensures ok == (B(old(reg)) - 1 != 0)
      ensures ioLog == old(ioLog) + [(C(old(reg)), old(mem)(old(reg).hl))]
      ensures var r1 := BlockIoRegs(old(reg), up); reg == if ok then r1.(pc := r1.pc - 2) else r1
    {
      BlockIoCountsDown(reg, up);
      ok := BlockOut(up);
      ok := B(reg) != 0;
      if ok {
        reg := reg.(pc := reg.pc - 2);
      }
    }
  }
}
