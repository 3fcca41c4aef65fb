/**
 * A square-wave tone channel of the sound chip (src/audio/tonegen.cpp).
 *
 * A 16-bit down-counter is reloaded with the channel's frequency register
 * each time it reaches 0, and the output flips between 0 and 1 at every
 * reload; a frequency of 0 or 1 holds the output at 1. The output sample
 * is `fSample`, a float that only ever holds 0.0 or 1.0, modelled as a bit.
 */
module ToneGenerator {

  /** `uint16_t` decrement: 0 wraps to 0xFFFF. */
  function Dec16(c: int): int
  {
    if c == 0 then 0xffff else c - 1
  }

  /** The channel's counter and output after one clock, for frequency `f`. */
  function ToneStep(f: int, counter: int, sample: bool): (int, bool)
  {
    if f <= 1 then (counter, true)
    else if Dec16(counter) == 0 then (f, !sample)
    else (Dec16(counter), sample)
  }

  /** `n` clocks at frequency `f`. */
  function ToneRun(f: int, counter: int, sample: bool, n: nat): (int, bool)
    decreases n
  {
    if n == 0 then (counter, sample)
    else var (c, s) := ToneStep(f, counter, sample); ToneRun(f, c, s, n - 1)
  }

  /** From a counter value `c`, the output stays put for c - 1 clocks while the counter runs down. */
  lemma {:induction false} CountsDown(f: int, c: int, sample: bool, k: nat)
    requires f > 1 && k < c
    ensures ToneRun(f, c, sample, k) == (c - k, sample)
    decreases k
  {
    if k > 0 {
      CountsDown(f, c - 1, sample, k - 1);
    }
  }

  lemma {:induction false} RunSplit(f: int, c: int, sample: bool, m: nat, n: nat)
    ensures ToneRun(f, c, sample, m + n) == var (c', s') := ToneRun(f, c, sample, m); ToneRun(f, c', s', n)
    decreases m
  {
    if m > 0 {
      var (c1, s1) := ToneStep(f, c, sample);
      RunSplit(f, c1, s1, m - 1, n);
    }
  }

  /**
   * Once reloaded, the output toggles exactly every `f` clocks: after k < f
   * clocks it has not changed, and after f clocks it has flipped and the
   * counter holds `f` again.
   */
  lemma ToggleEvery(f: int, sample: bool, k: nat)
    requires f > 1 && k < f
    ensures ToneRun(f, f, sample, k) == (f - k, sample)
    ensures ToneRun(f, f, sample, f) == (f, !sample)
  {
    CountsDown(f, f, sample, k);
    CountsDown(f, f, sample, f - 1);
    RunSplit(f, f, sample, f - 1, 1);
  }

  /** At frequency 0 or 1 the output is 1 after any clock. */
  lemma {:induction false} HeldHigh(f: int, counter: int, sample: bool, n: nat)
    requires f <= 1 && n > 0
    ensures ToneRun(f, counter, sample, n).1
    decreases n
  {
    if n > 1 {
      HeldHigh(f, counter, true, n - 1);
    }
  }

  class ToneGen {
    /** `nFrequency`, a `uint16_t` value. */
    var frequency: int
    /** `nCounter`, a `uint16_t`. */
    var counter: int
    /** `fSample`: false for 0.0, true for 1.0. */
    var sample: bool
    /** Index into the attenuation table; the initial 0.0 is the table's last entry, 15. */
    var attenuation: bv8

    /** Both registers hold 16-bit values. */
    predicate Valid()
      reads this
    {
      0 <= frequency < 0x1_0000 && 0 <= counter < 0x1_0000
    }

    constructor ()
      ensures Valid()
      ensures frequency == 0 && counter == 0 && !sample && attenuation == 15
    {
      frequency := 0;
      counter := 0;
      sample := false;
      attenuation := 15;
    }

    /** `clock`: one step of the counter and output. */
    method Clock() returns (ok: bool)
      requires Valid()
      modifies this`counter, this`sample
      ensures Valid()
      ensures ok && (counter, sample) == ToneStep(frequency, old(counter), old(sample))
    {
      if frequency <= 1 {
        sample := true;
      } else {
        counter := Dec16(counter);
        if counter == 0 {
          counter := frequency;
          sample := !sample;
        }
      }
      ok := true;
    }
  }
}
