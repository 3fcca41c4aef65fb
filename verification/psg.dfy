/**
 * Register writes of the programmable sound generator (src/audio/psg.cpp).
 *
 * A byte with bit 7 set latches a channel (bits 5-6) and a mode (bit 4,
 * 1 for volume) and writes its low nibble into the register they name: the
 * low four bits of a tone frequency, an attenuation, or the noise control.
 * A byte with bit 7 clear writes to the latched register: the frequency
 * bits 4-9 of a tone channel, an attenuation, or the noise control.
 * Attenuations are kept as the index into the 16-entry attenuation table.
 */
module SoundChip {
  import ToneGenerator
  import NoiseGenerator

  /** `reg_addr` of a latch byte: channel and mode together, bits 4-6. */
  function LatchRegister(data: bv8): int
  {
    ((data >> 4) & 0x07) as int
  }

  /** `(f & 0xfff0) | (data & 0x0f)` on a 16-bit frequency. */
  function LatchLow(f: int, data: bv8): int
  {
    f / 16 * 16 + (data & 0x0f) as int
  }

  /** `(f & 0x000f) | (data & 0x3f) << 4` on a 16-bit frequency. */
  function DataHigh(f: int, data: bv8): int
  {
    f % 16 + (data & 0x3f) as int * 16
  }

  /** A latch byte replaces frequency bits 0-3 and keeps bits 4-15. */
  lemma LatchLowBits(f: int, data: bv8)
    requires 0 <= f < 0x1_0000
    ensures 0 <= LatchLow(f, data) < 0x1_0000
    ensures LatchLow(f, data) % 16 == (data & 0x0f) as int
    ensures LatchLow(f, data) / 16 == f / 16
  {
  }

  /** A data byte sets frequency bits 4-9, keeps bits 0-3 and clears bits 10-15. */
  lemma DataHighBits(f: int, data: bv8)
    requires 0 <= f < 0x1_0000
    ensures 0 <= DataHigh(f, data) < 0x400
    ensures DataHigh(f, data) % 16 == f % 16
    ensures DataHigh(f, data) / 16 == (data & 0x3f) as int
  {
  }

  /**
   * A latch byte followed by a data byte sets the whole 10-bit frequency,
   * whatever it was before, and so does the data byte followed by the latch.
   */
  lemma TenBitFrequency(f: int, low: bv8, high: bv8)
    requires 0 <= f < 0x1_0000
    ensures DataHigh(LatchLow(f, low), high) == (high & 0x3f) as int * 16 + (low & 0x0f) as int
    ensures LatchLow(DataHigh(f, high), low) == (high & 0x3f) as int * 16 + (low & 0x0f) as int
  {
    LatchLowBits(f, low);
    DataHighBits(f, high);
    LatchLowBits(DataHigh(f, high), low);
    DataHighBits(LatchLow(f, low), high);
  }

  /** The latched channel and mode after writing `data`. */
  function Latched(data: bv8, channel: int, mode: int): (int, int)
  {
    if data >= 0x80 then (((data >> 5) & 0x03) as int, ((data >> 4) & 0x01) as int)
    else (channel, mode)
  }

  /** The frequency of tone channel `i` after writing `data` with the given latch. */
  function ToneFrequency(data: bv8, i: int, channel: int, mode: int, f: int): int
  {
    if data >= 0x80 then (if LatchRegister(data) == 2 * i then LatchLow(f, data) else f)
    else if mode == 0 && channel == i then DataHigh(f, data)
    else f
  }

  /** The attenuation index of channel `i` (3 for noise) after writing `data`. */
  function Attenuation(data: bv8, i: int, channel: int, mode: int, a: bv8): bv8
  {
    if data >= 0x80 then (if LatchRegister(data) == 2 * i + 1 then data & 0x0f else a)
    else if mode == 1 && channel == i then data & 0x0f
    else a
  }

  /**
   * Whether `data` writes the noise control: a latch byte for register 6,
   * or for register 5 (the tone-2 volume case falls through into it), or a
   * data byte while channel 3 is latched in tone mode.
   */
  function NoiseControl(data: bv8, channel: int, mode: int): bool
  {
    if data >= 0x80 then LatchRegister(data) == 5 || LatchRegister(data) == 6
    else mode == 0 && channel == 3
  }

  /** A latch byte and a data byte for the same register reach the same channel. */
  lemma DataFollowsLatch(latch: bv8, data: bv8, i: int, f: int)
    requires latch >= 0x80 && data < 0x80 && 0 <= i < 3
    requires LatchRegister(latch) == 2 * i
    ensures var (ch, mode) := Latched(latch, 0, 0);
            ToneFrequency(data, i, ch, mode, f) == DataHigh(f, data)
  {
  }

  /** Every attenuation a write can leave is a valid index into the 16-entry table. */
  lemma AttenuationInTable(data: bv8, i: int, channel: int, mode: int, a: bv8)
    requires a < 16
    ensures Attenuation(data, i, channel, mode, a) < 16
  {
  }

  /**
   * The tone-2 volume latch byte (register 0b101) also writes the noise
   * control, while a data byte never writes both a volume and the noise control.
   */
  lemma FallThrough(data: bv8, channel: int, mode: int, a: bv8)
    ensures data >= 0x80 && LatchRegister(data) == 5 ==>
              Attenuation(data, 2, channel, mode, a) == data & 0x0f && NoiseControl(data, channel, mode)
    ensures data < 0x80 && NoiseControl(data, channel, mode) ==>
              forall i :: Attenuation(data, i, channel, mode, a) == a
  {
  }

  /** The registers `write` sets: the latch, the tone periods, the attenuations and the noise control. */
  datatype Tuning = Tuning(channel: int, mode: int, f0: int, f1: int, f2: int,
                           a0: bv8, a1: bv8, a2: bv8, an: bv8,
                           nType: bv8, nFreq: bv8, shiftReg: bv16, tapBit: bv16)

  /**
   * The registers after `write(data)`: each register as its own function
   * of the byte and the latch says, and a write of white-noise type 0
   * reloads the shift register with 0x8000.
   */
  function Retuned(data: bv8, t: Tuning): Tuning
  {
    var latch := Latched(data, t.channel, t.mode);
    var noiseControl := NoiseControl(data, t.channel, t.mode);
    var nType := if noiseControl then (data >> 2) & 0x01 else t.nType;
    Tuning(latch.0, latch.1,
           ToneFrequency(data, 0, t.channel, t.mode, t.f0),
           ToneFrequency(data, 1, t.channel, t.mode, t.f1),
           ToneFrequency(data, 2, t.channel, t.mode, t.f2),
           Attenuation(data, 0, t.channel, t.mode, t.a0),
           Attenuation(data, 1, t.channel, t.mode, t.a1),
           Attenuation(data, 2, t.channel, t.mode, t.a2),
           Attenuation(data, 3, t.channel, t.mode, t.an),
           nType,
           if noiseControl then data & 0x03 else t.nFreq,
           if noiseControl && nType == 0 then 0x8000 else t.shiftReg,
           t.tapBit)
  }

  /** What the channels' `clock`s step: tone counters and outputs, the noise counter and output, the shared toggle. */
  datatype Voices = Voices(c0: int, s0: bool, c1: int, s1: bool, c2: int, s2: bool, nc: int, ns: bool, on: bool)

  class Psg {
    /** `nLatchedChannel` and `nLatchedMode`, function-statics that start at 0. */
    var latchedChannel: int
    var latchedMode: int
    /** `m_nClockCounter`. */
    var clockCounter: bv32
    const tone0: ToneGenerator.ToneGen
    const tone1: ToneGenerator.ToneGen
    const tone2: ToneGenerator.ToneGen
    const noise: NoiseGenerator.NoiseGen

    /**
     * The channels are distinct objects with 16-bit registers, the latch
     * names one of the eight registers, and the noise channel's copy of the
     * tone-2 frequency is up to date.
     */
    predicate Valid()
      reads this, tone0, tone1, tone2, noise
    {
      tone0 != tone1 && tone0 != tone2 && tone1 != tone2 &&
      tone0.Valid() && tone1.Valid() && tone2.Valid() && noise.Valid() &&
      0 <= latchedChannel < 4 && 0 <= latchedMode < 2 &&
      noise.tone2Freq == tone2.frequency
    }

    constructor (shared: NoiseGenerator.ShiftToggle)
      ensures Valid() && fresh(tone0) && fresh(tone1) && fresh(tone2) && fresh(noise)
      ensures latchedChannel == 0 && latchedMode == 0 && clockCounter == 0
    {
      latchedChannel := 0;
      latchedMode := 0;
      clockCounter := 0;
      tone0 := new ToneGenerator.ToneGen();
      tone1 := new ToneGenerator.ToneGen();
      tone2 := new ToneGenerator.ToneGen();
      noise := new NoiseGenerator.NoiseGen(shared);
    }

    /** `reset`: only the clock counter. */
    method Reset() returns (ok: bool)
      modifies this`clockCounter
      ensures ok && clockCounter == 0
    {
      clockCounter := 0;
      ok := true;
    }

    /**
     * `clock`: every sixteenth call clocks the three tone channels and the
     * noise channel, in that order; the counter then steps, wrapping at
     * 2^32. The mixing of the channel samples into the audio buffer every
     * 81 calls is floating point and is not part of this model.
     */
    method Clock() returns (ok: bool)
      requires Valid()
      modifies this`clockCounter, tone0`counter, tone0`sample, tone1`counter, tone1`sample,
               tone2`counter, tone2`sample, noise`counter, noise`shiftReg, noise`sample, noise.shift`on
      ensures Valid() && ok
      ensures ClockedFrom(old(clockCounter), old(TuningOf()), old(VoicesOf()))
    {
      ghost var t, v := TuningOf(), VoicesOf();
      if clockCounter % 16 == 0 {
        ClockChannels();
      }
      assert TuningOf() == t.(shiftReg := noise.shiftReg);
      clockCounter := clockCounter + 1;
      ok := true;
    }

    /** The registers `write` sets, as a value. */
    function TuningOf(): Tuning
      reads this, tone0, tone1, tone2, noise
    {
      Tuning(latchedChannel, latchedMode, tone0.frequency, tone1.frequency, tone2.frequency,
             tone0.attenuation, tone1.attenuation, tone2.attenuation, noise.attenuation,
             noise.nType, noise.frequency, noise.shiftReg, noise.tapBit)
    }

    /** The state the channels' `clock`s step, as a value. */
    function VoicesOf(): Voices
      reads this, tone0, tone1, tone2, noise, noise.shift
    {
      Voices(tone0.counter, tone0.sample, tone1.counter, tone1.sample, tone2.counter, tone2.sample,
             noise.counter, noise.sample, noise.shift.on)
    }

    /** Each channel has taken one step of its own `clock` from voices `v` and shift register `sr`. */
    ghost predicate ChannelsClocked(v: Voices, sr: bv16)
      reads this, tone0, tone1, tone2, noise, noise.shift
    {
      && (tone0.counter, tone0.sample) == ToneGenerator.ToneStep(tone0.frequency, v.c0, v.s0)
      && (tone1.counter, tone1.sample) == ToneGenerator.ToneStep(tone1.frequency, v.c1, v.s1)
      && (tone2.counter, tone2.sample) == ToneGenerator.ToneStep(tone2.frequency, v.c2, v.s2)
      && (noise.counter, noise.shift.on != v.on) == NoiseGenerator.CountStep(noise.frequency, noise.tone2Freq, v.nc)
      && noise.shiftReg == (if noise.shift.on then NoiseGenerator.Shift(noise.nType, sr, noise.tapBit) else sr)
      && noise.sample == (if noise.shift.on then noise.shiftReg & 1 == 1 else v.ns)
    }

    /**
     * The PSG after one `clock` from counter `k`, registers `t` and voices
     * `v`: the counter steps, the registers are kept but for the shift
     * register, and on every sixteenth clock each channel steps once.
     */
    ghost predicate ClockedFrom(k: bv32, t: Tuning, v: Voices)
      reads this, tone0, tone1, tone2, noise, noise.shift
    {
      && clockCounter == k + 1
      && TuningOf() == t.(shiftReg := noise.shiftReg)
      && (k % 16 == 0 ==> ChannelsClocked(v, t.shiftReg))
      && (k % 16 != 0 ==> VoicesOf() == v && noise.shiftReg == t.shiftReg)
    }

    /** The PSG on a master tick that does not clock it. */
    ghost predicate HeldFrom(k: bv32, t: Tuning, v: Voices)
      reads this, tone0, tone1, tone2, noise, noise.shift
    {
      clockCounter == k && TuningOf() == t && VoicesOf() == v
    }

    /** The channel half of `clock`. */
    method ClockChannels()
      requires Valid()
      modifies tone0`counter, tone0`sample, tone1`counter, tone1`sample,
               tone2`counter, tone2`sample, noise`counter, noise`shiftReg, noise`sample, noise.shift`on
      ensures Valid()
      ensures ChannelsClocked(old(VoicesOf()), old(noise.shiftReg))
      ensures TuningOf() == old(TuningOf()).(shiftReg := noise.shiftReg)
    {
      var ok := tone0.Clock();
      ok := tone1.Clock();
      ok := tone2.Clock();
      ok := noise.Clock();
    }

    /** `write`: latch and register decoding. */
    method Write(addr: bv8, data: bv8) returns (ok: bool)
      requires Valid()
      modifies this`latchedChannel, this`latchedMode
      modifies tone0`frequency, tone1`frequency, tone2`frequency
      modifies tone0`attenuation, tone1`attenuation, tone2`attenuation
      modifies noise`tone2Freq, noise`nType, noise`frequency, noise`shiftReg, noise`attenuation
      ensures Valid() && ok
      ensures TuningOf() == Retuned(data, old(TuningOf()))
    {
      if data >= 0x80 {
        WriteLatch(data);
      } else {
        WriteData(data);
      }
      ok := true;
    }

    /** A byte with bit 7 set: latch, then write the low nibble into the named register. */
    method WriteLatch(data: bv8)
      requires data >= 0x80
      requires Valid()
      modifies this`latchedChannel, this`latchedMode
      modifies tone0`frequency, tone1`frequency, tone2`frequency
      modifies tone0`attenuation, tone1`attenuation, tone2`attenuation
      modifies noise`tone2Freq, noise`nType, noise`frequency, noise`shiftReg, noise`attenuation
      ensures Valid()
      ensures (latchedChannel, latchedMode) == Latched(data, old(latchedChannel), old(latchedMode))
      ensures tone0.frequency == ToneFrequency(data, 0, old(latchedChannel), old(latchedMode), old(tone0.frequency))
      ensures tone1.frequency == ToneFrequency(data, 1, old(latchedChannel), old(latchedMode), old(tone1.frequency))
      ensures tone2.frequency == ToneFrequency(data, 2, old(latchedChannel), old(latchedMode), old(tone2.frequency))
      ensures tone0.attenuation == Attenuation(data, 0, old(latchedChannel), old(latchedMode), old(tone0.attenuation))
      ensures tone1.attenuation == Attenuation(data, 1, old(latchedChannel), old(latchedMode), old(tone1.attenuation))
      ensures tone2.attenuation == Attenuation(data, 2, old(latchedChannel), old(latchedMode), old(tone2.attenuation))
      ensures noise.attenuation == Attenuation(data, 3, old(latchedChannel), old(latchedMode), old(noise.attenuation))
      ensures NoiseControl(data, old(latchedChannel), old(latchedMode)) ==>
                noise.nType == (data >> 2) & 0x01 && noise.frequency == data & 0x03 &&
                noise.shiftReg == (if noise.nType == 0 then 0x8000 else old(noise.shiftReg))
      ensures !NoiseControl(data, old(latchedChannel), old(latchedMode)) ==>
                noise.nType == old(noise.nType) && noise.frequency == old(noise.frequency) &&
                noise.shiftReg == old(noise.shiftReg)
    {
      latchedChannel := ((data >> 5) & 0x03) as int;
      latchedMode := ((data >> 4) & 0x01) as int;
      var reg := (data >> 4) & 0x07;
      if reg == 0 {
        tone0.frequency := LatchLow(tone0.frequency, data);
      } else if reg == 1 {
        tone0.attenuation := data & 0x0f;
      } else if reg == 2 {
        tone1.frequency := LatchLow(tone1.frequency, data);
      } else if reg == 3 {
        tone1.attenuation := data & 0x0f;
      } else if reg == 4 {
        tone2.frequency := LatchLow(tone2.frequency, data);
        noise.tone2Freq := tone2.frequency;
      } else if reg == 5 || reg == 6 {
        if reg == 5 {
          tone2.attenuation := data & 0x0f;
        }
        noise.nType := (data >> 2) & 0x01;
        noise.frequency := data & 0x03;
        if noise.nType == 0 {
          noise.shiftReg := 0x8000;
        }
      } else {
        noise.attenuation := data & 0x0f;
      }
    }

    /** A byte with bit 7 clear: write the latched register. */
    method WriteData(data: bv8)
      requires data < 0x80
      requires Valid()
      modifies this`latchedChannel, this`latchedMode
      modifies tone0`frequency, tone1`frequency, tone2`frequency
      modifies tone0`attenuation, tone1`attenuation, tone2`attenuation
      modifies noise`tone2Freq, noise`nType, noise`frequency, noise`shiftReg, noise`attenuation
      ensures Valid()
      ensures (latchedChannel, latchedMode) == Latched(data, old(latchedChannel), old(latchedMode))
      ensures tone0.frequency == ToneFrequency(data, 0, old(latchedChannel), old(latchedMode), old(tone0.frequency))
      ensures tone1.frequency == ToneFrequency(data, 1, old(latchedChannel), old(latchedMode), old(tone1.frequency))
      ensures tone2.frequency == ToneFrequency(data, 2, old(latchedChannel), old(latchedMode), old(tone2.frequency))
      ensures tone0.attenuation == Attenuation(data, 0, old(latchedChannel), old(latchedMode), old(tone0.attenuation))
      ensures tone1.attenuation == Attenuation(data, 1, old(latchedChannel), old(latchedMode), old(tone1.attenuation))
      ensures tone2.attenuation == Attenuation(data, 2, old(latchedChannel), old(latchedMode), old(tone2.attenuation))
      ensures noise.attenuation == Attenuation(data, 3, old(latchedChannel), old(latchedMode), old(noise.attenuation))
      ensures NoiseControl(data, old(latchedChannel), old(latchedMode)) ==>
                noise.nType == (data >> 2) & 0x01 && noise.frequency == data & 0x03 &&
                noise.shiftReg == (if noise.nType == 0 then 0x8000 else old(noise.shiftReg))
      ensures !NoiseControl(data, old(latchedChannel), old(latchedMode)) ==>
                noise.nType == old(noise.nType) && noise.frequency == old(noise.frequency) &&
                noise.shiftReg == old(noise.shiftReg)
    {
      if latchedMode == 1 {
        if latchedChannel == 0 {
          tone0.attenuation := data & 0x0f;
        } else if latchedChannel == 1 {
          tone1.attenuation := data & 0x0f;
        } else if latchedChannel == 2 {
          tone2.attenuation := data & 0x0f;
        } else {
          noise.attenuation := data & 0x0f;
        }
      } else {
        if latchedChannel == 0 {
          tone0.frequency := DataHigh(tone0.frequency, data);
        } else if latchedChannel == 1 {
          tone1.frequency := DataHigh(tone1.frequency, data);
        } else if latchedChannel == 2 {
          tone2.frequency := DataHigh(tone2.frequency, data);
          noise.tone2Freq := tone2.frequency;
        } else {
          noise.nType := (data >> 2) & 0x01;
          noise.frequency := data & 0x03;
          if noise.nType == 0 {
            noise.shiftReg := 0x8000;
          }
        }
      }
    }
  }
}
