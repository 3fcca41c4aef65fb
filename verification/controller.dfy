/**
 * The two joypad ports (src/controller/controller.cpp).
 *
 * Port 0xDC carries player 1's six lines and player 2's UP/DOWN, port 0xDD
 * player 2's other four lines and the TH outputs; both are active low, so
 * a pressed button reads as a 0 bit. Port 0x3F is the nationalisation
 * control byte whose TH bits are reflected in bits 6 and 7 of 0xDD,
 * inverted on a Japanese console.
 */
module Joypad {
  import opened Console

  /** `ControllerButton`. */
  datatype Button = Up | Down | Left | Right | S1 | S2

  /** The two input registers a button line can live in. */
  datatype Port = DC | DD

  /** A button's line: the register and the one-bit mask. */
  datatype Line = Line(port: Port, mask: bv8)

  /**
   * The line `setButtonState` updates: P1 UP..S2 are bits 0..5 of 0xDC, P2
   * UP/DOWN bits 6/7 of 0xDC, P2 LEFT..S2 bits 0..3 of 0xDD; other
   * controller indices have none.
   */
  function ButtonLine(index: int, button: Button): Option<Line>
  {
    if index == 0 then
      Some(match button
        case Up => Line(DC, 0x01)
        case Down => Line(DC, 0x02)
        case Left => Line(DC, 0x04)
        case Right => Line(DC, 0x08)
        case S1 => Line(DC, 0x10)
        case S2 => Line(DC, 0x20))
    else if index == 1 then
      Some(match button
        case Up => Line(DC, 0x40)
        case Down => Line(DC, 0x80)
        case Left => Line(DD, 0x01)
        case Right => Line(DD, 0x02)
        case S1 => Line(DD, 0x04)
        case S2 => Line(DD, 0x08))
    else None
  }

  predicate SingleBit(m: bv8)
  {
    m == 0x01 || m == 0x02 || m == 0x04 || m == 0x08 || m == 0x10 || m == 0x20 || m == 0x40 || m == 0x80
  }

  /** `(reg & ~mask) + (pressed ? 0 : mask)`: the line goes low when pressed, high when released. */
  function SetLine(reg: bv8, mask: bv8, pressed: bool): bv8
  {
    (reg & !mask) + (if pressed then 0 else mask)
  }

  /** Every line is one bit, and no two (controller, button) pairs share a line. */
  lemma ButtonLinesDistinct(i: int, b: Button, j: int, c: Button)
    requires ButtonLine(i, b).Some? && ButtonLine(j, c).Some?
    ensures SingleBit(ButtonLine(i, b).value.mask)
    ensures ButtonLine(i, b) == ButtonLine(j, c) ==> i == j && b == c
  {
  }

  /** Setting a line changes exactly that bit: low when pressed, high when released. */
  lemma SetLineOneBit(reg: bv8, mask: bv8, pressed: bool)
    requires SingleBit(mask)
    ensures SetLine(reg, mask, pressed) & mask == (if pressed then 0 else mask)
    ensures SetLine(reg, mask, pressed) & !mask == reg & !mask
  {
  }

  /** Releasing after pressing gives the released register; if the button was up, the original one. */
  lemma PressThenRelease(reg: bv8, mask: bv8)
    requires SingleBit(mask)
    ensures SetLine(SetLine(reg, mask, true), mask, false) == SetLine(reg, mask, false)
    ensures reg & mask == mask ==> SetLine(SetLine(reg, mask, true), mask, false) == reg
  {
  }

  /** Port 0xDD bits 7 and 6 after a 0x3F write: TH bits 7 and 5 of `data`, inverted on JP. */
  function ThBits(data: bv8, region: Region): bv8
  {
    var outBit := (data & 0x80) + ((data & 0x20) << 1);
    (if region == JP then !outBit else outBit) & 0xc0
  }

  lemma ThBitsFollowData(data: bv8, region: Region)
    ensures (ThBits(data, region) & 0x80 != 0) == ((data & 0x80 != 0) != (region == JP))
    ensures (ThBits(data, region) & 0x40 != 0) == ((data & 0x20 != 0) != (region == JP))
    ensures ThBits(data, region) & 0x3f == 0
  {
  }

  class Controller {
    var regDC: bv8
    var regDD: bv8
    var reg3F: bv8
    var region: Region

    /** All lines high (no button pressed); the region is the one `SetRegion` will set. */
    constructor (r: Region)
      ensures regDC == 0xff && regDD == 0xff && reg3F == 0xff && region == r
    {
      regDC := 0xff;
      regDD := 0xff;
      reg3F := 0xff;
      region := r;
    }

    method SetRegion(r: Region)
      modifies this`region
      ensures region == r
    {
      region := r;
    }

    /** `setButtonState`: the button's line follows `pressed`; an unknown controller changes nothing. */
    method SetButtonState(index: int, button: Button, pressed: bool)
      modifies this`regDC, this`regDD
      ensures ButtonLine(index, button).None? ==> regDC == old(regDC) && regDD == old(regDD)
      ensures ButtonLine(index, button).Some? ==>
        var line := ButtonLine(index, button).value;
        && regDC == (if line.port == DC then SetLine(old(regDC), line.mask, pressed) else old(regDC))
        && regDD == (if line.port == DD then SetLine(old(regDD), line.mask, pressed) else old(regDD))
    {
      match button
      case Up =>
        if index == 0 { regDC := SetLine(regDC, 0x01, pressed); }
        else if index == 1 { regDC := SetLine(regDC, 0x40, pressed); }
      case Down =>
        if index == 0 { regDC := SetLine(regDC, 0x02, pressed); }
        else if index == 1 { regDC := SetLine(regDC, 0x80, pressed); }
      case Left =>
        if index == 0 { regDC := SetLine(regDC, 0x04, pressed); }
        else if index == 1 { regDD := SetLine(regDD, 0x01, pressed); }
      case Right =>
        if index == 0 { regDC := SetLine(regDC, 0x08, pressed); }
        else if index == 1 { regDD := SetLine(regDD, 0x02, pressed); }
      case S1 =>
        if index == 0 { regDC := SetLine(regDC, 0x10, pressed); }
        else if index == 1 { regDD := SetLine(regDD, 0x04, pressed); }
      case S2 =>
        if index == 0 { regDC := SetLine(regDC, 0x20, pressed); }
        else if index == 1 { regDD := SetLine(regDD, 0x08, pressed); }
    }

    /** `read(addr, data)`: 0x01 gives 0x3F, 0xC0 gives 0xDC, 0xC1 gives 0xDD; else `data` is kept. */
    method Read(addr: bv8, data: bv8) returns (data': bv8)
      ensures data' == if addr == 0x01 then reg3F else if addr == 0xc0 then regDC
                       else if addr == 0xc1 then regDD else data
    {
      data' := data;
      if addr == 0x01 { data' := reg3F; }
      else if addr == 0xc0 { data' := regDC; }
      else if addr == 0xc1 { data' := regDD; }
    }

    /** `write`: the byte goes to 0x3F and its TH bits to bits 7 and 6 of 0xDD; bits 0..5 of 0xDD stay. */
    method Write(addr: bv8, data: bv8) returns (ok: bool)
      modifies this`reg3F, this`regDD
      ensures ok && reg3F == data
      ensures regDD == (old(regDD) & 0x3f) + ThBits(data, region)
    {
      reg3F := data;
      var outBit := (reg3F & 0x80) + ((reg3F & 0x20) << 1);
      if region == JP {
        outBit := !outBit;
      }
      outBit := outBit & 0xc0;
      regDD := (regDD & 0x3f) + outBit;
      ok := true;
    }
  }
}
