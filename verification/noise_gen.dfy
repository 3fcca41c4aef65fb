/**
 * The noise channel of the sound chip (src/audio/noisegen.cpp).
 *
 * A 16-bit down-counter is reloaded from a rate chosen by `nFrequency`
 * (0x10, 0x20, 0x40, or the third tone channel's frequency), and every
 * reload flips a shift-enable flag. While the flag is set, each clock shifts
 * a 16-bit register right: white noise feeds bit 15 from `parity` of the
 * tapped bits, periodic noise rotates bit 0 round to bit 15. The output
 * sample is bit 0 of the register.
 */
module NoiseGenerator {
  import Z80Flags
  import ToneGenerator

  /**
   * `parity`: folds the low byte to a nibble and looks it up in 0x6996,
   * returning the negation of the lookup (1 for an even number of set bits).
   */
  function Parity(data: bv16): (p: bv16)
    ensures p == 0 || p == 1
  {
    var d := (data ^ (data >> 4)) & 0xf;
    if (0x6996 as bv16 >> d) & 1 == 0 then 1 else 0
  }

  /** `parity` only sees the low byte, and agrees with the CPU's parity flag on it. */
  lemma ParityIsP(data: bv16)
    ensures Parity(data) == 1 <==> Z80Flags.IsP((data & 0xff) as bv8)
  {
  }

  /** `parity(x)` is 1 exactly when the low eight bits of `x` hold an even number of ones. */
  lemma ParityEven(data: bv16)
    ensures Parity(data) == 1 <==> Z80Flags.PopCount((data & 0xff) as bv8) % 2 == 0
  {
    ParityIsP(data);
    Z80Flags.IsPEven((data & 0xff) as bv8);
  }

  /** The reload value for each `nFrequency`; other values leave the counter at 0. */
  function Reload(frequency: bv8, tone2: int, counter: int): int
  {
    if frequency == 0 then 0x10
    else if frequency == 1 then 0x20
    else if frequency == 2 then 0x40
    else if frequency == 3 then tone2
    else counter
  }

  /** The counter after one clock, and whether it reached 0 (and so flipped the shift flag). */
  function CountStep(frequency: bv8, tone2: int, counter: int): (int, bool)
  {
    var c := ToneGenerator.Dec16(counter);
    if c == 0 then (Reload(frequency, tone2, c), true) else (c, false)
  }

  /** `n` clocks of the noise counter: the counter after them and how often the shift flag flipped. */
  function CountRun(frequency: bv8, tone2: int, counter: int, n: nat): (int, nat)
    decreases n
  {
    if n == 0 then (counter, 0)
    else
      var (c, flipped) := CountStep(frequency, tone2, counter);
      var (c', k) := CountRun(frequency, tone2, c, n - 1);
      (c', k + if flipped then 1 else 0)
  }

  /** From a counter value `c`, the first c - 1 clocks only count down and never flip the shift flag. */
  lemma {:induction false} NoiseCountsDown(frequency: bv8, tone2: int, c: int, k: nat)
    requires k < c
    ensures CountRun(frequency, tone2, c, k) == (c - k, 0)
    decreases k
  {
    if k > 0 {
      NoiseCountsDown(frequency, tone2, c - 1, k - 1);
    }
  }

  /**
   * The c-th clock from counter `c` reaches 0: the shift flag flips exactly
   * once and the counter is reloaded (0x10, 0x20, 0x40 or tone 2's period).
   */
  lemma {:induction false} NoiseReload(frequency: bv8, tone2: int, c: int)
    requires c > 0
    ensures CountRun(frequency, tone2, c, c) == (Reload(frequency, tone2, 0), 1)
    decreases c
  {
    if c > 1 {
      NoiseReload(frequency, tone2, c - 1);
    }
  }

  /** Periodic noise: a 16-bit rotate right by one. */
  function Rotate(sr: bv16): bv16
  {
    (sr >> 1) | ((sr & 0x0001) << 15)
  }

  /** White noise: shift right, feeding bit 15 from the parity of the tapped bits. */
  function WhiteShift(sr: bv16, tap: bv16): bv16
  {
    (sr >> 1) | (Parity(sr & tap) << 15)
  }

  /** One shift of the register for noise type `nType`. */
  function Shift(nType: bv8, sr: bv16, tap: bv16): bv16
  {
    if nType == 1 then WhiteShift(sr, tap) else Rotate(sr)
  }

  /** With the taps of the model (bits 0 and 3), the new bit 15 is 1 exactly when bits 0 and 3 agree. */
  lemma WhiteFeedback(sr: bv16)
    ensures WhiteShift(sr, 0x0009) >> 15 == (if sr & 1 == (sr >> 3) & 1 then 1 else 0)
    ensures WhiteShift(sr, 0x0009) & 0x7fff == sr >> 1
  {
    ParityIsP(sr & 0x0009);
  }

  /** `n` periodic shifts. */
  function Rotations(sr: bv16, n: nat): bv16
  {
    if n == 0 then sr else Rotate(Rotations(sr, n - 1))
  }

  /** Shifts compose: `m` shifts followed by `n` more are `m + n` shifts. */
  lemma {:induction false} RotationsAdd(sr: bv16, m: nat, n: nat)
    ensures Rotations(Rotations(sr, m), n) == Rotations(sr, m + n)
  {
    if n > 0 {
      RotationsAdd(sr, m, n - 1);
    }
  }

  /** Four periodic shifts rotate the register right by a nibble. */
  lemma FourRotations(sr: bv16)
    ensures Rotations(sr, 4) == (sr >> 4) | (sr << 12)
  {
    assert Rotations(sr, 1) == Rotate(sr);
    assert Rotations(sr, 2) == Rotate(Rotate(sr));
    assert Rotations(sr, 3) == Rotate(Rotations(sr, 2));
    assert Rotations(sr, 4) == Rotate(Rotations(sr, 3));
  }

  /** Sixteen periodic shifts give the register back. */
  lemma PeriodicCycle(sr: bv16)
    ensures Rotations(sr, 16) == sr
  {
    var r4 := Rotations(sr, 4);
    var r8 := Rotations(r4, 4);
    var r12 := Rotations(r8, 4);
    FourRotations(sr);
    FourRotations(r4);
    FourRotations(r8);
    FourRotations(r12);
    RotationsAdd(sr, 4, 4);
    RotationsAdd(sr, 8, 4);
    RotationsAdd(sr, 12, 4);
  }

  /** `bShift`, a function-static flag that every noise channel shares. */
  class ShiftToggle {
    var on: bool

    constructor ()
      ensures !on
    {
      on := false;
    }
  }

  class NoiseGen {
    /** `nType`: 1 for white noise. */
    var nType: bv8
    /** `nFrequency`: the reload rate selector. */
    var frequency: bv8
    /** `nTone2Freq`, a `uint16_t` value. */
    var tone2Freq: int
    /** `nCounter`, a `uint16_t` value. */
    var counter: int
    var shiftReg: bv16
    var tapBit: bv16
    /** `fSample`: false for 0.0, true for 1.0. */
    var sample: bool
    /** Index into the attenuation table; the initial 0.0 is the table's last entry, 15. */
    var attenuation: bv8
    const shift: ShiftToggle

    predicate Valid()
      reads this
    {
      0 <= tone2Freq < 0x1_0000 && 0 <= counter < 0x1_0000
    }

    constructor (shared: ShiftToggle)
      ensures Valid() && shift == shared
      ensures nType == 0 && frequency == 0 && tone2Freq == 0 && counter == 0
      ensures shiftReg == 0x8000 && tapBit == 0x0009 && !sample && attenuation == 15
    {
      nType := 0;
      frequency := 0;
      tone2Freq := 0;
      counter := 0;
      shiftReg := 0x8000;
      tapBit := 0x0009;
      sample := false;
      attenuation := 15;
      shift := shared;
    }

    /** `clock`: count down, flip the shared shift flag on reload, and shift while it is set. */
    method Clock() returns (ok: bool)
      requires Valid()
      modifies this`counter, this`shiftReg, this`sample, shift`on
      ensures Valid() && ok
      ensures (counter, shift.on != old(shift.on)) == CountStep(old(frequency), old(tone2Freq), old(counter))
      ensures shiftReg == if shift.on then Shift(old(nType), old(shiftReg), old(tapBit)) else old(shiftReg)
      ensures sample == if shift.on then shiftReg & 1 == 1 else old(sample)
    {
      counter := ToneGenerator.Dec16(counter);
      if counter == 0 {
        counter := Reload(frequency, tone2Freq, counter);
        shift.on := !shift.on;
      }
      if shift.on {
        shiftReg := Shift(nType, shiftReg, tapBit);
        sample := shiftReg & 0x0001 == 1;
      }
      ok := true;
    }
  }
}
