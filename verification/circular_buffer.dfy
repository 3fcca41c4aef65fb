/**
 * The audio sample ring (src/utils/circularbuffer.cpp).
 *
 * Samples are written at `write % size` and read at `read % size`; both
 * pointers only ever increase. The write pointer starts 0x100 ahead of the
 * read pointer, so the ring is a delay line: a sample comes back out of the
 * read side once the read pointer reaches the position it was written at,
 * provided fewer than `size` samples were written after it. The element
 * type is a parameter, with `zero` standing for the 0 returned from an
 * empty ring.
 */
module RingBuffer {

  lemma MulSign(d: int, n: int)
    requires n > 0
    ensures d >= 1 ==> d * n >= n
    ensures d <= 0 ==> d * n <= 0
  {
  }

  lemma MulSub(a: int, b: int, n: int)
    ensures b * n - a * n == (b - a) * n
  {
  }

  /** Two positions less than `n` apart fall in different slots. */
  lemma SlotsDistinct(p: int, q: int, n: int)
    requires n > 0 && p < q < p + n
    ensures p % n != q % n
  {
    var a, b := p / n, q / n;
    assert p == a * n + p % n;
    assert q == b * n + q % n;
    if p % n == q % n {
      MulSub(a, b, n);
      MulSign(b - a, n);
    }
  }

  /** The slots after `PutSample` of each of `ys` in turn, starting at write position `w`. */
  function PutAll<T>(buf: seq<T>, w: int, ys: seq<T>): (r: seq<T>)
    requires |buf| > 0
    ensures |r| == |buf|
    decreases |ys|
  {
    if ys == [] then buf else PutAll(buf[w % |buf| := ys[0]], w + 1, ys[1..])
  }

  /** Writes at positions w .. w + |ys| - 1 leave the slot of an earlier position p alone while they do not wrap round to it. */
  lemma {:induction false} PutAllKeeps<T>(buf: seq<T>, w: int, ys: seq<T>, p: int)
    requires |buf| > 0 && p < w && w + |ys| <= p + |buf|
    ensures PutAll(buf, w, ys)[p % |buf|] == buf[p % |buf|]
    decreases |ys|
  {
    if ys != [] {
      SlotsDistinct(p, w, |buf|);
      PutAllKeeps(buf[w % |buf| := ys[0]], w + 1, ys[1..], p);
    }
  }

  /**
   * The delay line: a sample written at position `w`, followed by fewer
   * than `|buf|` further samples, is what a read at position `w` finds.
   */
  lemma ReadBack<T>(buf: seq<T>, w: int, x: T, ys: seq<T>)
    requires |buf| > 0 && |ys| < |buf|
    ensures PutAll(buf, w, [x] + ys)[w % |buf|] == x
  {
    assert ([x] + ys)[1..] == ys;
    PutAllKeeps(buf[w % |buf| := x], w + 1, ys, w);
  }

  class CircularBuffer<T> {
    var buf: array<T>
    /** `m_nSize`. */
    var size: int
    /** `m_nLenght`: samples written and not yet taken by `GetSample`. */
    var length: int
    var read: int
    var write: int
    const zero: T
    /** The write pointer's lead over the read pointer, less the length, fixed at construction. */
    ghost var lag: int

    ghost predicate Valid()
      reads this
    {
      buf.Length == size && 0 <= read && write - read - length == lag
    }

    /** The default constructor: no storage, size 0, length 0. */
    constructor Empty(zero: T)
      ensures Valid() && size == 0 && length == 0 && read == 0 && write == 0x100 && lag == 0x100
      ensures this.zero == zero
    {
      buf := new T[0];
      size := 0;
      length := 0;
      read := 0;
      write := 0x100;
      this.zero := zero;
      lag := 0x100;
    }

    /**
     * The sized constructor: every slot 0. It leaves `m_nLenght`
     * uninitialised, so the starting length is a parameter.
     */
    constructor (n: int, zero: T, length0: int)
      requires n >= 0
      ensures Valid() && fresh(buf) && size == n && buf[..] == seq(n, _ => zero)
      ensures length == length0 && read == 0 && write == 0x100 && lag == 0x100 - length0
      ensures this.zero == zero
    {
      buf := new T[n](_ => zero);
      size := n;
      length := length0;
      read := 0;
      write := 0x100;
      this.zero := zero;
      lag := 0x100 - length0;
    }

    /** `GetSample`: take the sample at the read pointer, or `zero` when the length is 0. */
    method GetSample() returns (sample: T)
      requires Valid() && (length != 0 ==> size > 0)
      modifies this`read, this`length
      ensures Valid()
      ensures old(length) == 0 ==> sample == zero && read == old(read) && length == 0
      ensures old(length) != 0 ==>
                sample == buf[old(read) % size] && read == old(read) + 1 && length == old(length) - 1
    {
      if length == 0 {
        sample := zero;
      } else {
        sample := buf[read % size];
        read := read + 1;
        length := length - 1;
      }
    }

    /** `ReadSample`: the sample at the read pointer, changing nothing. */
    method ReadSample() returns (sample: T)
      requires Valid() && size > 0
      ensures sample == buf[read % size]
    {
      sample := buf[read % size];
    }

    /** `PutSample`: write at the write pointer, with no check for a full ring. */
    method PutSample(data: T)
      requires Valid() && size > 0
      modifies this`write, this`length, buf
      ensures Valid()
      ensures buf[..] == PutAll(old(buf[..]), old(write), [data])
      ensures write == old(write) + 1 && length == old(length) + 1
    {
      buf[write % size] := data;
      write := write + 1;
      length := length + 1;
    }
  }
}
