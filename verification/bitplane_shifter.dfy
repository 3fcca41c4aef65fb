/**
 * The bitplane shift register (src/utils/bitplaneshifter.cpp).
 *
 * It holds one byte per bitplane. Each `GetPixelColor` assembles a pixel's
 * colour from bit 7 of every plane, plane i giving bit i, then shifts every
 * plane left by one, so eight calls after loading a tile row give its eight
 * pixels from left to right.
 *
 * The code allocates `n` bytes but both `LoadBitplane` (`bitplane <= n`) and
 * `GetPixelColor` (`i <= n`) reach index n. The model gives the array n + 1
 * slots, the last standing for the byte just past the allocation.
 */
module Bitplanes {

  /** Plane i's share of the colour byte: bit 7 times `1 << i`, truncated to `uint8_t`. */
  function Contribution(plane: bv8, i: nat): bv8
  {
    if i < 8 then (plane >> 7) << i else 0
  }

  /** The colour `GetPixelColor` returns for plane contents `s`: the planes' bit 7 as bits 0, 1, 2, ... */
  function Color(s: seq<bv8>): bv8
  {
    if |s| == 0 then 0 else Color(s[..|s| - 1]) + Contribution(s[|s| - 1], |s| - 1)
  }

  /** The colour of one more plane adds that plane's contribution. */
  lemma ColorSnoc(s: seq<bv8>, i: nat)
    requires i < |s|
    ensures Color(s[..i + 1]) == Color(s[..i]) + Contribution(s[i], i)
  {
    assert s[..i + 1][..i] == s[..i];
  }

  /** One plane shifted left by k, bits falling off the top. */
  function Shl(b: bv8, k: nat): bv8
    requires k <= 8
  {
    b << k
  }

  /** Every plane shifted left by k. */
  function ShiftN(s: seq<bv8>, k: nat): (t: seq<bv8>)
    requires k <= 8
    ensures |t| == |s|
    ensures forall i :: 0 <= i < |s| ==> t[i] == Shl(s[i], k)
  {
    seq(|s|, i requires 0 <= i < |s| => Shl(s[i], k))
  }

  /** The colour made of bit j of each plane (plane i giving bit i): an independent reading of a pixel. */
  function BitColor(s: seq<bv8>, j: nat): bv8
    requires j < 8
  {
    if |s| == 0 then 0 else BitColor(s[..|s| - 1], j) + BitTerm(s[|s| - 1], j, |s| - 1)
  }

  lemma ShiftedBitSeven(b: bv8, k: nat)
    requires k < 8
    ensures (b << k) >> 7 == (b >> (7 - k)) & 1
  {
    if k == 0 {} else if k == 1 {} else if k == 2 {} else if k == 3 {}
    else if k == 4 {} else if k == 5 {} else if k == 6 {} else {}
  }

  /** Bit j of plane b, placed at bit n of the colour byte. */
  function BitTerm(b: bv8, j: nat, n: nat): bv8
    requires j < 8
  {
    if n < 8 then ((b >> j) & 1) << n else 0
  }

  lemma ShiftedContribution(b: bv8, k: nat, n: nat)
    requires k < 8
    ensures Contribution(Shl(b, k), n) == BitTerm(b, 7 - k, n)
  {
    ShiftedBitSeven(b, k);
    assert Shl(b, k) >> 7 == (b >> (7 - k)) & 1;
  }

  /**
   * The k-th of eight calls after loading (k from 0) shows bit 7 - k of
   * every plane: the colour of the planes shifted k times is built from
   * bit 7 - k of the loaded planes.
   */
  lemma {:induction false} KthPixel(s: seq<bv8>, k: nat)
    requires k < 8
    ensures Color(ShiftN(s, k)) == BitColor(s, 7 - k)
  {
    if |s| > 0 {
      var n := |s| - 1;
      assert ShiftN(s, k)[..n] == ShiftN(s[..n], k);
      KthPixel(s[..n], k);
      ShiftedContribution(s[n], k, n);
    }
  }

  /** Shifting once more is shifting k + 1 times. */
  lemma ShiftAgain(s: seq<bv8>, k: nat)
    requires k < 8
    ensures ShiftN(ShiftN(s, k), 1) == ShiftN(s, k + 1)
  {
    var t := ShiftN(s, k);
    forall i | 0 <= i < |s|
      ensures ShiftN(t, 1)[i] == ShiftN(s, k + 1)[i]
    {
      ShlShl(s[i], k);
    }
  }

  /** One plane: a shift by k and then by one is a shift by k + 1. */
  lemma ShlShl(b: bv8, k: nat)
    requires k < 8
    ensures Shl(Shl(b, k), 1) == Shl(b, k + 1)
  {
    if k == 0 {} else if k == 1 {} else if k == 2 {} else if k == 3 {}
    else if k == 4 {} else if k == 5 {} else if k == 6 {} else {}
  }

  /** After eight calls every plane is empty. */
  lemma EightShiftsEmpty(s: seq<bv8>)
    ensures forall i :: 0 <= i < |s| ==> ShiftN(s, 8)[i] == 0
  {
  }

  /** Planes whose bit 7 is clear add nothing: with the slot past four planes clear, colours stay below 16. */
  lemma {:induction false} FourPlaneColor(s: seq<bv8>)
    requires |s| == 5 && s[4] >> 7 == 0
    ensures Color(s) < 16
  {
    var c0 := Contribution(s[0], 0);
    var c1 := Contribution(s[1], 1);
    var c2 := Contribution(s[2], 2);
    var c3 := Contribution(s[3], 3);
    assert s[..5] == s;
    assert s[..1][..0] == [] && s[..1][0] == s[0];
    assert s[..2][..1] == s[..1] && s[..2][1] == s[1];
    assert s[..3][..2] == s[..2] && s[..3][2] == s[2];
    assert s[..4][..3] == s[..3] && s[..4][3] == s[3];
    assert s[..5][..4] == s[..4] && s[..5][4] == s[4];
    calc {
      Color(s);
      Color(s[..4]) + Contribution(s[4], 4);
      Color(s[..4]);
      Color(s[..3]) + c3;
      Color(s[..2]) + c2 + c3;
      Color(s[..1]) + c1 + c2 + c3;
      c0 + c1 + c2 + c3;
    }
    assert c0 <= 1 && c1 & 0xfd == 0 && c2 & 0xfb == 0 && c3 & 0xf7 == 0;
  }

  class BitplaneShifter {
    /** `m_pBplArray`, with one more slot than planes. */
    const planes: array<bv8>
    /** `m_nBplNumber`. */
    const count: bv8

    ghost predicate Valid()
      reads this
    {
      planes.Length == count as int + 1 && count < 31
    }

    /**
     * `BitplaneShifter(n)`: `n` planes of unspecified contents `init` (the
     * allocation is not initialised). Counts of 31 or more would shift
     * `1 << i` out of an `int`.
     */
    constructor (n: bv8, init: seq<bv8>)
      requires n < 31 && |init| == n as int + 1
      ensures Valid() && fresh(planes) && count == n && planes[..] == init
    {
      count := n;
      planes := new bv8[n as int + 1](i requires 0 <= i < n as int + 1 => init[i]);
      new;
      assert planes[..] == init;
    }

    /** `LoadBitplane(i, d)`: stores `d` in plane i when `i <= n` (one past the last plane included). */
    method LoadBitplane(i: bv8, data: bv8) returns (ok: bool)
      requires Valid()
      modifies planes
      ensures ok <==> i <= count
      ensures planes[..] == if ok then old(planes[..])[i as int := data] else old(planes[..])
    {
      if i <= count {
        planes[i] := data;
        ok := true;
      } else {
        ok := false;
      }
    }

    /** `GetPixelColor`: the colour of bit 7 of every plane, and every plane shifted left by one. */
    method GetPixelColor() returns (color: bv8)
      requires Valid()
      modifies planes
      ensures color == Color(old(planes[..]))
      ensures planes[..] == ShiftN(old(planes[..]), 1)
    {
      ghost var s0 := planes[..];
      color := 0;
      var i := 0;
      while i <= count as int
        invariant 0 <= i <= planes.Length
        invariant color == Color(s0[..i])
        invariant forall j :: 0 <= j < i ==> planes[j] == Shl(s0[j], 1)
        invariant forall j :: i <= j < planes.Length ==> planes[j] == s0[j]
      {
        ColorSnoc(s0, i);
        color := color + Contribution(planes[i], i);
        planes[i] := planes[i] << 1;
        i := i + 1;
      }
      assert s0[..i] == s0;
    }
  }
}
