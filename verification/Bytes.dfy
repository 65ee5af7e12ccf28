/** Bytes, and the little-endian integers inside signed messages and frames. */
module Bytes {
  type Byte = n: nat | n < 256

  /** The low bytes of a number, least significant first. */
  function LittleEndian(n: nat, count: nat): (bytes: seq<Byte>)
    ensures |bytes| == count
    decreases count
  {
    if count == 0 then [] else [n % 256] + LittleEndian(n / 256, count - 1)
  }

  /** The number little-endian bytes spell. */
  function FromLittleEndian(bytes: seq<Byte>): nat {
    if bytes == [] then 0 else bytes[0] + 256 * FromLittleEndian(bytes[1..])
  }

  /** One past the largest number of so many bytes. */
  function Capacity(count: nat): (c: nat)
    ensures c > 0
  {
    if count == 0 then 1 else 256 * Capacity(count - 1)
  }

  lemma {:induction false} ReadsBack(n: nat, count: nat)
    requires n < Capacity(count)
    ensures FromLittleEndian(LittleEndian(n, count)) == n
    decreases count
  {
    if count > 0 {
      ReadsBack(n / 256, count - 1);
      assert LittleEndian(n, count)[1..] == LittleEndian(n / 256, count - 1);
    }
  }

  lemma DivideTwice(n: nat, c: nat)
    requires c > 0
    ensures 256 * c > 0 && n / 256 / c == n / (256 * c)
  {
    var (a, b) := (n / 256, n % 256);
    var (q, r) := (a / c, a % c);
    assert n == 256 * c * q + (256 * r + b) && 0 <= 256 * r + b < 256 * c by {
      assert a == c * q + r && n == 256 * a + b;
    }
    Quotient(n, 256 * c, q, 256 * r + b);
  }

  lemma Quotient(n: int, d: nat, q: int, r: nat)
    requires d > 0 && n == d * q + r && r < d
    ensures n / d == q
  {
    SameQuotient(d, n / d, n % d, q, r);
  }

  lemma SameQuotient(d: nat, p: int, s: nat, q: int, r: nat)
    requires s < d && r < d && d * p + s == d * q + r
    ensures p == q
  {
    if p != q {
      var (low, high) := (if p < q then p else q, if p < q then q else p);
      AtLeastOnce(d, low, high);
    }
  }

  lemma AtLeastOnce(d: nat, low: int, high: int)
    requires low < high
    ensures d * high >= d * low + d
  {
    assert d * high == d * low + d * (high - low);
    Grows(d, high - low - 1);
  }

  lemma Grows(d: nat, more: nat)
    ensures d * (more + 1) == d * more + d && d * more >= 0
  {
  }

  /** Adding a multiple of a power of 256 beyond a place changes no byte up to it. */
  lemma SameByte(n: int, c: nat, more: int)
    requires c > 0
    ensures (n + c * (256 * more)) / c % 256 == n / c % 256
  {
    var j := 256 * more;
    Distribute(c, n / c, j);
    Quotient(n + c * j, c, n / c + j, n % c);
  }

  lemma Distribute(c: int, x: int, y: int)
    ensures c * (x + y) == c * x + c * y
  {
  }

  /** The byte at a place counts the multiples of that power of 256: the least significant byte comes first. */
  lemma {:induction false} PlaceValue(n: nat, count: nat, i: nat)
    requires i < count
    ensures LittleEndian(n, count)[i] == n / Capacity(i) % 256
    decreases i
  {
    if i > 0 {
      PlaceValue(n / 256, count - 1, i - 1);
      DivideTwice(n, Capacity(i - 1));
    }
  }

  /** ASCII text as its bytes. */
  function Ascii(text: string): (bytes: seq<Byte>)
    requires forall i :: 0 <= i < |text| ==> text[i] as int < 128
    ensures |bytes| == |text|
  {
    seq(|text|, i requires 0 <= i < |text| => text[i] as int)
  }
}
