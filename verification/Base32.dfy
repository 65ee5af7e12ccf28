/** RFC 4648 base32, upper case and unpadded (crates/sync/src/base32.rs). Both loops shift bits through a
    32-bit accumulator whose high bits are never cleared; each is proved to read the whole byte string as
    one number, and from that the two are inverse on exactly the canonical texts. */
module Base32 {
  import opened Bytes
  import opened Wrappers

  const WRAP: nat := 0x1_0000_0000

  // ----- numbers and their digits -----

  /** Products, quotients and remainders behind names, so that the proofs below meet only those they
      speak of. */
  function Times(a: nat, b: nat): nat {
    a * b
  }

  function Quotient(n: nat, b: nat): nat
    requires b > 0
  {
    n / b
  }

  function Remainder(n: nat, b: nat): (r: nat)
    requires b > 0
    ensures r < b
  {
    n % b
  }

  function Pow2(n: nat): (p: nat)
    ensures p > 0
  {
    if n == 0 then 1 else 2 * Pow2(n - 1)
  }

  lemma {:induction false} Pow2Add(a: nat, b: nat)
    ensures Pow2(a + b) == Times(Pow2(a), Pow2(b))
  {
    if a > 0 {
      Pow2Add(a - 1, b);
      assert Pow2(a + b) == 2 * (Pow2(a - 1) * Pow2(b));
    }
  }

  lemma Powers()
    ensures Pow2(0) == 1 && Pow2(1) == 2 && Pow2(2) == 4 && Pow2(3) == 8 && Pow2(4) == 16 && Pow2(5) == 32
    ensures Pow2(6) == 64 && Pow2(7) == 128 && Pow2(8) == 256 && Pow2(32) == WRAP
  {
    assert Pow2(5) == 32;
    assert Pow2(8) == 8 * Pow2(5);
    Pow2Add(8, 8);
    Pow2Add(16, 16);
  }

  /** Shift right. */
  function Shr(n: nat, k: nat): nat {
    Quotient(n, Pow2(k))
  }

  /** The lowest bits. */
  function Mask(n: nat, k: nat): (low: nat)
    ensures low < Pow2(k)
  {
    Remainder(n, Pow2(k))
  }

  /** Shift left within the accumulator. */
  function Shl(n: nat, k: nat): nat {
    Remainder(Times(n, Pow2(k)), WRAP)
  }

  /** The number a string of w-bit digits spells, most significant first. */
  function Number(digits: seq<nat>, w: nat): nat {
    if digits == [] then 0 else Times(Number(digits[..|digits| - 1], w), Pow2(w)) + digits[|digits| - 1]
  }

  /** The lowest digits of a number, so many of them. */
  function Digits(n: nat, w: nat, count: nat): (digits: seq<nat>)
    ensures |digits| == count
    decreases count
  {
    if count == 0 then [] else Digits(Shr(n, w), w, count - 1) + [Mask(n, w)]
  }

  predicate Fit(digits: seq<nat>, w: nat) {
    forall i :: 0 <= i < |digits| ==> digits[i] < Pow2(w)
  }

  lemma {:induction false} DigitsFit(n: nat, w: nat, count: nat)
    ensures Fit(Digits(n, w, count), w)
    decreases count
  {
    hide Pow2, Shr, Mask;
    if count > 0 {
      DigitsFit(Shr(n, w), w, count - 1);
    }
  }

  lemma TimesLe(a: nat, b: nat, c: nat)
    requires a <= b
    ensures Times(a, c) <= Times(b, c)
  {
    assert Times(b, c) - Times(a, c) == (b - a) * c;
  }

  lemma OneMore(a: nat, c: nat)
    ensures Times(a + 1, c) == Times(a, c) + c && Times(0, c) == 0 && Times(1, c) == c
  {
  }

  lemma SplitOff(n: nat, b: nat)
    requires b > 0
    ensures n == Times(Quotient(n, b), b) + Remainder(n, b)
  {
  }

  /** Division has only one answer. */
  lemma QuotientOf(n: nat, q: nat, b: nat, r: nat)
    requires n == Times(q, b) + r && r < b
    ensures Quotient(n, b) == q && Remainder(n, b) == r
  {
    hide Times, Quotient, Remainder;
    var d := Quotient(n, b);
    SplitOff(n, b);
    OneMore(d, b);
    OneMore(q, b);
    if d < q {
      TimesLe(d + 1, q, b);
    } else if d > q {
      TimesLe(q + 1, d, b);
    }
  }

  lemma QuotientBound(n: nat, p: nat, b: nat)
    requires b > 0 && n < Times(p, b)
    ensures Quotient(n, b) < p
  {
    hide Times, Quotient, Remainder;
    SplitOff(n, b);
    if Quotient(n, b) >= p {
      TimesLe(p, Quotient(n, b), b);
    }
  }

  lemma Below(high: nat, top: nat, base: nat, low: nat)
    requires high < top && low < base
    ensures Times(high, base) + low < Times(top, base)
  {
    hide Times;
    OneMore(high, base);
    TimesLe(high + 1, top, base);
  }

  /** How many numbers so many digits spell. */
  function Range(w: nat, count: nat): nat {
    if count == 0 then 1 else Times(Range(w, count - 1), Pow2(w))
  }

  lemma {:induction false} RangePow(w: nat, count: nat)
    ensures Range(w, count) == Pow2(w * count)
  {
    hide Times, Pow2;
    if count == 0 {
      assert w * count == 0;
      Powers();
    } else {
      RangePow(w, count - 1);
      assert w * count == w * (count - 1) + w;
      Pow2Add(w * (count - 1), w);
    }
  }

  lemma {:induction false} NumberBound(digits: seq<nat>, w: nat)
    requires Fit(digits, w)
    ensures Number(digits, w) < Range(w, |digits|)
  {
    hide Pow2, Times;
    if digits != [] {
      var n := |digits| - 1;
      NumberBound(digits[..n], w);
      Below(Number(digits[..n], w), Range(w, n), Pow2(w), digits[n]);
    }
  }

  lemma LowestDigit(high: nat, d: nat, w: nat, count: nat)
    requires d < Pow2(w)
    ensures Digits(Times(high, Pow2(w)) + d, w, count + 1) == Digits(high, w, count) + [d]
  {
    hide Pow2, Times, Quotient, Remainder;
    QuotientOf(Times(high, Pow2(w)) + d, high, Pow2(w), d);
  }

  lemma Appended(digits: seq<nat>, d: nat, w: nat)
    ensures Number(digits + [d], w) == Times(Number(digits, w), Pow2(w)) + d
  {
    hide Pow2, Times;
    assert (digits + [d])[..|digits|] == digits;
  }

  lemma {:induction false} DigitsOfNumber(digits: seq<nat>, w: nat)
    requires Fit(digits, w)
    ensures Digits(Number(digits, w), w, |digits|) == digits
  {
    hide Pow2, Times, Digits, Number;
    if digits != [] {
      var n := |digits| - 1;
      var (front, last) := (digits[..n], digits[n]);
      assert digits == front + [last];
      DigitsOfNumber(front, w);
      Appended(front, last, w);
      LowestDigit(Number(front, w), last, w, n);
    }
  }

  lemma {:induction false} NumberOfDigits(n: nat, w: nat, count: nat)
    requires n < Range(w, count)
    ensures Number(Digits(n, w, count), w) == n
    decreases count
  {
    hide Pow2, Times, Quotient, Remainder;
    if count > 0 {
      QuotientBound(n, Range(w, count - 1), Pow2(w));
      SplitOff(n, Pow2(w));
      NumberOfDigits(Shr(n, w), w, count - 1);
      Appended(Digits(Shr(n, w), w, count - 1), Mask(n, w), w);
    }
  }

  // ----- the format -----

  /** The character of a five-bit value. */
  function Letter(value: nat): Byte
    requires value < 32
  {
    if value < 26 then 'A' as int + value else '2' as int + value - 26
  }

  /** Where a character stands in the alphabet. */
  function Position(c: Byte): (p: Option<nat>)
    ensures p.Some? ==> p.value < 32 && Letter(p.value) == c
    ensures p.None? ==> forall v: nat :: v < 32 ==> Letter(v) != c
  {
    if 'A' as int <= c <= 'Z' as int then Some(c - 'A' as int)
    else if '2' as int <= c <= '7' as int then Some(c - '2' as int + 26)
    else None
  }

  /** Characters needed for so many bytes, and the zero bits the last one carries. */
  function TextLength(bytes: nat): (m: nat)
    ensures 0 <= 5 * m - 8 * bytes < 5
  {
    (8 * bytes + 4) / 5
  }

  function Padding(bytes: nat): nat {
    5 * TextLength(bytes) - 8 * bytes
  }

  /** The text of a byte string: its number, shifted left over the padding, in base 32. */
  function Encoded(bytes: seq<Byte>): (text: seq<Byte>)
    ensures |text| == TextLength(|bytes|)
  {
    Powers();
    var digits := Digits(Times(Number(bytes, 8), Pow2(Padding(|bytes|))), 5, TextLength(|bytes|));
    DigitsFit(Times(Number(bytes, 8), Pow2(Padding(|bytes|))), 5, TextLength(|bytes|));
    seq(|digits|, i requires 0 <= i < |digits| => Letter(digits[i]))
  }

  predicate Spelled(text: seq<Byte>) {
    forall i :: 0 <= i < |text| ==> Position(text[i]).Some?
  }

  function Values(text: seq<Byte>): (values: seq<nat>)
    requires Spelled(text)
    ensures |values| == |text| && Fit(values, 5)
  {
    Powers();
    seq(|text|, i requires 0 <= i < |text| => Position(text[i]).value)
  }

  /** The big-endian bytes of a number. */
  function BigEndian(n: nat, size: nat): (bytes: seq<Byte>)
    ensures bytes == Digits(n, 8, size)
  {
    Powers();
    DigitsFit(n, 8, size);
    var digits := Digits(n, 8, size);
    seq(size, i requires 0 <= i < size => digits[i])
  }

  /** What a text stands for: its base 32 number with zero padding shifted out. */
  function Decoded(size: nat, text: seq<Byte>): Option<seq<Byte>> {
    if |text| != TextLength(size) || !Spelled(text) then None
    else
      var n := Number(Values(text), 5);
      if Mask(n, Padding(size)) != 0 then None else Some(BigEndian(Shr(n, Padding(size)), size))
  }

  lemma LetterPosition(value: nat)
    requires value < 32
    ensures Position(Letter(value)) == Some(value)
  {
  }

  lemma ValuesOfEncoded(bytes: seq<Byte>, n: nat)
    requires n == Times(Number(bytes, 8), Pow2(Padding(|bytes|)))
    ensures Spelled(Encoded(bytes)) && Values(Encoded(bytes)) == Digits(n, 5, TextLength(|bytes|))
  {
    Powers();
    hide Digits, Number, Pow2, Times, TextLength, Letter, Position;
    var digits := Digits(n, 5, TextLength(|bytes|));
    DigitsFit(n, 5, TextLength(|bytes|));
    var text := Encoded(bytes);
    forall i | 0 <= i < |digits| ensures text[i] == Letter(digits[i]) && Position(text[i]) == Some(digits[i]) {
      LetterPosition(digits[i]);
    }
  }

  /** As many texts as byte strings, times the paddings. */
  lemma Ranges(size: nat)
    ensures 5 * TextLength(size) == 8 * size + Padding(size) && Padding(size) < 5
    ensures Range(5, TextLength(size)) == Times(Range(8, size), Pow2(Padding(size)))
  {
    hide Pow2, Times;
    RangePow(5, TextLength(size));
    RangePow(8, size);
    Pow2Add(8 * size, Padding(size));
  }

  lemma Shifted(n: nat, top: nat, p: nat)
    requires n < top && p > 0
    ensures Times(n, p) < Times(top, p) && Quotient(Times(n, p), p) == n && Remainder(Times(n, p), p) == 0
  {
    hide Times, Quotient, Remainder;
    Below(n, top, p, 0);
    QuotientOf(Times(n, p), n, p, 0);
  }

  /** Every byte string comes back from its text. */
  lemma EncodeThenDecode(bytes: seq<Byte>)
    ensures Decoded(|bytes|, Encoded(bytes)) == Some(bytes)
  {
    hide Digits, Number, Values, Encoded, TextLength, Padding, Pow2, Range, Spelled, Times, Quotient, Remainder, Fit;
    var n, pad, m := Number(bytes, 8), Padding(|bytes|), TextLength(|bytes|);
    var shifted := Times(n, Pow2(pad));
    ValuesOfEncoded(bytes, shifted);
    ByteFit(bytes);
    NumberBound(bytes, 8);
    Ranges(|bytes|);
    Shifted(n, Range(8, |bytes|), Pow2(pad));
    NumberOfDigits(shifted, 5, m);
    DigitsOfNumber(bytes, 8);
  }

  lemma ByteFit(bytes: seq<Byte>)
    ensures Fit(bytes, 8)
  {
    Powers();
  }

  lemma SpelledBack(text: seq<Byte>, digits: seq<nat>)
    requires Spelled(text) && Values(text) == digits
    ensures |digits| == |text| && forall i :: 0 <= i < |text| ==> digits[i] < 32 && Letter(digits[i]) == text[i]
  {
  }

  lemma EncodedFrom(bytes: seq<Byte>, text: seq<Byte>, digits: seq<nat>)
    requires digits == Digits(Times(Number(bytes, 8), Pow2(Padding(|bytes|))), 5, TextLength(|bytes|))
             && |digits| == |text|
    requires forall i :: 0 <= i < |text| ==> digits[i] < 32 && Letter(digits[i]) == text[i]
    ensures Encoded(bytes) == text
  {
    hide Number, Pow2, Times, TextLength, Letter, Padding;
  }

  /** A text that decodes at all is the text of what it decodes to: nothing but the canonical spelling
      is accepted. */
  lemma DecodeThenEncode(size: nat, text: seq<Byte>)
    requires Decoded(size, text).Some?
    ensures |Decoded(size, text).value| == size && Encoded(Decoded(size, text).value) == text
  {
    hide Digits, Number, TextLength, Padding, Pow2, Range, Spelled, Values, Letter, Encoded, Times, Quotient, Remainder;
    var pad := Padding(size);
    var n := Number(Values(text), 5);
    NumberBound(Values(text), 5);
    Ranges(size);
    QuotientBound(n, Range(8, size), Pow2(pad));
    SplitOff(n, Pow2(pad));
    NumberOfDigits(Shr(n, pad), 8, size);
    DigitsOfNumber(Values(text), 5);
    SpelledBack(text, Values(text));
    EncodedFrom(Decoded(size, text).value, text, Values(text));
  }

  /** The accepted texts of a size are exactly the texts of that many bytes. */
  lemma AcceptedTexts(size: nat, text: seq<Byte>)
    ensures Decoded(size, text).Some? <==> exists bytes: seq<Byte> :: |bytes| == size && Encoded(bytes) == text
  {
    if Decoded(size, text).Some? {
      DecodeThenEncode(size, text);
    }
    if bytes: seq<Byte> :| |bytes| == size && Encoded(bytes) == text {
      EncodeThenDecode(bytes);
    }
  }

  // ----- the bits of the text are the bits of the bytes -----

  lemma AlphabetInOrder(value: nat)
    requires value < 32
    ensures Letter(value) == "ABCDEFGHIJKLMNOPQRSTUVWXYZ234567"[value] as int
  {
  }

  /** A binary place of a number, counted from the lowest. */
  function Bit(n: nat, place: nat): nat {
    if place == 0 then n % 2 else Bit(n / 2, place - 1)
  }

  lemma ZeroBits(place: nat)
    ensures Bit(0, place) == 0
  {
  }

  lemma Halved(q: nat, p: nat, low: nat)
    ensures (Times(q, 2 * p) + low) / 2 == Times(q, p) + low / 2 && (Times(q, 2 * p) + low) % 2 == low % 2
  {
    assert q * (2 * p) == 2 * (q * p);
  }

  /** The low places of a number shifted left and filled up are the filling's, those above its own. */
  lemma {:induction false} BitOfSum(q: nat, w: nat, low: nat, place: nat)
    requires low < Pow2(w)
    ensures Bit(Times(q, Pow2(w)) + low, place) == if place < w then Bit(low, place) else Bit(q, place - w)
    decreases w
  {
    hide Times;
    if w == 0 {
      assert Times(q, 1) == q by { OneOf(q); }
    } else {
      Halved(q, Pow2(w - 1), low);
      if place > 0 {
        BitOfSum(q, w - 1, low / 2, place - 1);
      }
    }
  }

  lemma OneOf(q: nat)
    ensures Times(q, 1) == q
  {
  }

  /** Where a bit of a digit stands in the number. */
  lemma {:induction false} BitOfDigits(digits: seq<nat>, w: nat, j: nat, place: nat, above: nat)
    requires Fit(digits, w) && j < |digits| && place < w && above == Times(|digits| - 1 - j, w)
    ensures Bit(Number(digits, w), above + place) == Bit(digits[j], place)
  {
    hide Times, Pow2, Bit;
    var n := |digits| - 1;
    if j < n {
      OneMore(n - 1 - j, w);
      BitOfDigits(digits[..n], w, j, place, above - w);
      BitOfSum(Number(digits[..n], w), w, digits[n], above + place);
    } else {
      OneMore(0, w);
      BitOfSum(Number(digits[..n], w), w, digits[n], place);
    }
  }

  /** RFC 4648, section 6: read from the first to the last, the bits of the text's letters, five to a letter and
      the highest first, are the bits of the bytes, eight to a byte and the highest first, and then zeros. */
  lemma TextRegroupsBits(bytes: seq<Byte>, i: nat)
    requires i < 5 * |Encoded(bytes)|
    ensures Position(Encoded(bytes)[i / 5]).Some?
            && Bit(Position(Encoded(bytes)[i / 5]).value, 4 - i % 5)
            == if i < 8 * |bytes| then Bit(bytes[i / 8], 7 - i % 8) else 0
  {
    hide Digits, Number, Values, Encoded, TextLength, Padding, Pow2, Range, Spelled, Times, Fit, Bit;
    var (n, pad, m) := (Number(bytes, 8), Padding(|bytes|), TextLength(|bytes|));
    var whole := Times(n, Pow2(pad));
    Ranges(|bytes|);
    ValuesOfEncoded(bytes, whole);
    EncodedNumber(bytes, whole);
    var values := Values(Encoded(bytes));
    Multiple(m - 1 - i / 5, 5);
    BitOfDigits(values, 5, i / 5, 4 - i % 5, 5 * (m - 1 - i / 5));
    PowPositive(pad);
    BitOfSum(n, pad, 0, 5 * m - 1 - i);
    PositionOf(Encoded(bytes), i / 5);
    if i < 8 * |bytes| {
      ByteFit(bytes);
      Multiple(|bytes| - 1 - i / 8, 8);
      BitOfDigits(bytes, 8, i / 8, 7 - i % 8, 8 * (|bytes| - 1 - i / 8));
    } else {
      ZeroBits(5 * m - 1 - i);
    }
  }

  lemma PowPositive(n: nat)
    ensures 0 < Pow2(n)
  {
  }

  lemma Multiple(count: nat, w: nat)
    ensures Times(count, w) == w * count
  {
  }

  lemma PositionOf(text: seq<Byte>, j: nat)
    requires Spelled(text) && j < |text|
    ensures Position(text[j]).Some? && Values(text)[j] == Position(text[j]).value
  {
  }

  /** The text spells the number. */
  lemma EncodedNumber(bytes: seq<Byte>, whole: nat)
    requires whole == Times(Number(bytes, 8), Pow2(Padding(|bytes|)))
    ensures Spelled(Encoded(bytes)) && Number(Values(Encoded(bytes)), 5) == whole
  {
    hide Digits, Number, Values, Encoded, TextLength, Padding, Pow2, Range, Spelled, Times, Fit;
    var n := Number(bytes, 8);
    ValuesOfEncoded(bytes, whole);
    ByteFit(bytes);
    NumberBound(bytes, 8);
    Ranges(|bytes|);
    PowPositive(Padding(|bytes|));
    Shifted(n, Range(8, |bytes|), Pow2(Padding(|bytes|)));
    NumberOfDigits(whole, 5, TextLength(|bytes|));
  }

  // ----- the accumulator -----

  /** The accumulator: what has been read, modulo its width. */
  function Wrapped(n: nat): (low: nat)
    ensures low < WRAP
  {
    Remainder(n, WRAP)
  }

  lemma Associates(a: nat, b: nat, c: nat)
    ensures Times(Times(a, b), c) == Times(a, Times(b, c)) == Times(Times(a, c), b)
  {
  }

  lemma Distributes(a: nat, b: nat, c: nat)
    ensures Times(a + b, c) == Times(a, c) + Times(b, c) && Times(a, b) == Times(b, a)
  {
  }

  lemma WrapSplits(k: nat)
    requires k <= 32
    ensures WRAP == Times(Pow2(32 - k), Pow2(k))
  {
    Powers();
    Pow2Add(32 - k, k);
  }

  /** Adding multiples of a divisor leaves the remainder, and moves the quotient by that many. */
  lemma AddMultiple(q: nat, b: nat, low: nat)
    requires b > 0
    ensures Quotient(Times(q, b) + low, b) == q + Quotient(low, b)
            && Remainder(Times(q, b) + low, b) == Remainder(low, b)
  {
    hide Times, Quotient, Remainder;
    SplitOff(low, b);
    Distributes(q, Quotient(low, b), b);
    QuotientOf(Times(q, b) + low, q + Quotient(low, b), b, Remainder(low, b));
  }

  /** Dividing twice divides by the product. */
  lemma DivDiv(n: nat, p: nat, b: nat)
    requires p > 0 && b > 0
    ensures Times(p, b) > 0 && Quotient(n, Times(p, b)) == Quotient(Quotient(n, p), b)
  {
    hide Times, Quotient, Remainder;
    var q, r := Quotient(n, p), Remainder(n, p);
    var qq, rr := Quotient(q, b), Remainder(q, b);
    SplitOff(n, p);
    SplitOff(q, b);
    Distributes(Times(qq, b), rr, p);
    Associates(qq, b, p);
    Below(rr, b, p, r);
    Distributes(0, b, p);
    Distributes(b, 0, p);
    Commutes(b, p);
    QuotientOf(n, qq, Times(p, b), Times(rr, p) + r);
  }

  lemma Commutes(a: nat, b: nat)
    ensures Times(a, b) == Times(b, a)
  {
  }

  /** The lowest bits of a number are those of its accumulator. */
  lemma LowBits(n: nat, bits: nat)
    requires bits <= 32
    ensures Mask(Wrapped(n), bits) == Mask(n, bits)
  {
    hide Times, Quotient, Remainder, Pow2;
    var high, k, p := Quotient(n, WRAP), Pow2(32 - bits), Pow2(bits);
    SplitOff(n, WRAP);
    WrapSplits(bits);
    Associates(high, k, p);
    AddMultiple(Times(high, k), p, Wrapped(n));
  }

  /** Shifting left within the accumulator drops exactly the top bits. */
  lemma TopDropped(n: nat, k: nat, digit: nat)
    requires k <= 32 && digit < Pow2(k)
    ensures Wrapped(Times(n, Pow2(k)) + digit) == Times(Mask(n, 32 - k), Pow2(k)) + digit
  {
    hide Times, Quotient, Remainder, Pow2;
    var top, low, p := Shr(n, 32 - k), Mask(n, 32 - k), Pow2(k);
    SplitOff(n, Pow2(32 - k));
    WrapSplits(k);
    Distributes(Times(top, Pow2(32 - k)), low, p);
    Associates(top, Pow2(32 - k), p);
    Below(low, Pow2(32 - k), p, digit);
    QuotientOf(Times(n, p) + digit, top, WRAP, Times(low, p) + digit);
  }

  /** Shifting a digit in keeps the accumulator equal to the number read so far, modulo its width. */
  lemma ShiftIn(n: nat, w: nat, digit: nat)
    requires w <= 32 && digit < Pow2(w)
    ensures Shl(Wrapped(n), w) + digit == Wrapped(Times(n, Pow2(w)) + digit)
  {
    hide Times, Quotient, Remainder, Pow2;
    TopDropped(n, w, digit);
    TopDropped(Wrapped(n), w, 0);
    LowBits(n, 32 - w);
  }

  /** Shifting a digit out reads the number itself: the junk above does not reach it. */
  lemma ShiftOut(n: nat, bits: nat, w: nat)
    requires bits + w <= 32
    ensures Mask(Shr(Wrapped(n), bits), w) == Mask(Shr(n, bits), w)
    ensures Times(Shr(n, bits + w), Pow2(w)) + Mask(Shr(n, bits), w) == Shr(n, bits)
  {
    hide Times, Quotient, Remainder, Pow2;
    var p, b, k := Pow2(bits), Pow2(w), Pow2(32 - (bits + w));
    Pow2Add(bits, w);
    DivDiv(n, p, b);
    SplitOff(Shr(n, bits), b);
    var high := Quotient(n, WRAP);
    SplitOff(n, WRAP);
    WrapSplits(bits + w);
    Associates(high, k, Times(p, b));
    Commutes(p, b);
    Associates(Times(high, k), b, p);
    AddMultiple(Times(Times(high, k), b), p, Wrapped(n));
    AddMultiple(Times(high, k), b, Shr(Wrapped(n), bits));
  }

  method EncodeNoPad(bytes: seq<Byte>) returns (text: seq<Byte>)
    ensures text == Encoded(bytes)
  {
    hide Digits, Number, Pow2, Shr, Mask, Shl, Wrapped, Times, Encoded, Letter;
    Powers();
    Start();
    text := [];
    ghost var digits: seq<nat> := [];
    var buffer, bits := 0, 0;
    for i := 0 to |bytes|
      invariant 0 <= bits < 5 && 8 * i == 5 * |digits| + bits
      invariant buffer == Wrapped(Number(bytes[..i], 8))
      invariant Number(digits, 5) == Shr(Number(bytes[..i], 8), bits)
      invariant Spells(text, digits)
    {
      ghost var n := Number(bytes[..i], 8);
      assert bytes[..i + 1] == bytes[..i] + [bytes[i]];
      Appended(bytes[..i], bytes[i], 8);
      ghost var n' := Number(bytes[..i + 1], 8);
      ShiftIn(n, 8, bytes[i]);
      DigitAbove(n, bytes[i], 8, bits);
      buffer := Shl(buffer, 8) + bytes[i];
      bits := bits + 8;
      while bits >= 5
        invariant 0 <= bits <= 12 && 8 * (i + 1) == 5 * |digits| + bits
        invariant Number(digits, 5) == Shr(n', bits)
        invariant Spells(text, digits)
      {
        bits := bits - 5;
        ShiftOut(n', bits, 5);
        var digit := Mask(Shr(buffer, bits), 5);
        Appended(digits, digit, 5);
        digits := digits + [digit];
        text := text + [Letter(digit)];
      }
    }
    assert bytes[..|bytes|] == bytes;
    if bits > 0 {
      var digit := Mask(Shl(buffer, 5 - bits), 5);
      LastDigit(Number(bytes, 8), bits);
      Appended(digits, digit, 5);
      digits := digits + [digit];
      text := text + [Letter(digit)];
    } else {
      Unshifted(Number(bytes, 8));
    }
    SpellsEncoded(bytes, text, digits);
  }

  lemma Unshifted(n: nat)
    ensures Shr(n, 0) == n == Times(n, Pow2(0))
  {
  }

  /** The text holds the letters of these digits. */
  ghost predicate Spells(text: seq<Byte>, digits: seq<nat>) {
    |text| == |digits| && forall i :: 0 <= i < |digits| ==> digits[i] < 32 && text[i] == Letter(digits[i])
  }

  /** The digit shifted in is below what was still to be emitted. */
  lemma DigitAbove(n: nat, digit: nat, w: nat, bits: nat)
    requires digit < Pow2(w)
    ensures Shr(Times(n, Pow2(w)) + digit, bits + w) == Shr(n, bits)
  {
    hide Times, Quotient, Remainder, Pow2;
    var m := Times(n, Pow2(w)) + digit;
    Pow2Add(w, bits);
    DivDiv(m, Pow2(w), Pow2(bits));
    QuotientOf(m, n, Pow2(w), digit);
  }

  /** The final partial digit holds the remaining bits, left-aligned. */
  lemma LastDigit(n: nat, bits: nat)
    requires 0 < bits < 5
    ensures Times(Shr(n, bits), Pow2(5)) + Mask(Shl(Wrapped(n), 5 - bits), 5) == Times(n, Pow2(5 - bits))
  {
    hide Times, Quotient, Remainder, Pow2;
    var s, p, low := Pow2(5 - bits), Pow2(bits), Mask(n, bits);
    ShiftIn(n, 5 - bits, 0);
    LowBits(Times(n, s), 5);
    SplitOff(n, p);
    Distributes(Times(Shr(n, bits), p), low, s);
    Associates(Shr(n, bits), p, s);
    Pow2Add(bits, 5 - bits);
    Below(low, p, s, 0);
    QuotientOf(Times(n, s), Shr(n, bits), Pow2(5), Times(low, s));
  }

  lemma Lengths(size: nat, count: nat, padding: nat)
    requires 5 * count == 8 * size + padding && padding < 5
    ensures count == TextLength(size) && padding == Padding(size)
  {
  }

  lemma SpelledFit(text: seq<Byte>, digits: seq<nat>)
    requires Spells(text, digits)
    ensures Fit(digits, 5)
  {
    Powers();
  }

  lemma SpellsEncoded(bytes: seq<Byte>, text: seq<Byte>, digits: seq<nat>)
    requires Spells(text, digits) && 0 <= 5 * |digits| - 8 * |bytes| < 5
    requires Number(digits, 5) == Times(Number(bytes, 8), Pow2(5 * |digits| - 8 * |bytes|))
    ensures text == Encoded(bytes)
  {
    hide Number, Digits, Times, Pow2, Letter, TextLength, Padding, Fit, Encoded;
    Lengths(|bytes|, |digits|, 5 * |digits| - 8 * |bytes|);
    SpelledFit(text, digits);
    DigitsOfNumber(digits, 5);
    EncodedFrom(bytes, text, digits);
  }

  /** Exactly `size` bytes, or nothing. The array bound holds at every store, so the guard the loop
      repeats for it never fires. */
  method DecodeNoPad(size: nat, text: seq<Byte>) returns (r: Option<seq<Byte>>)
    ensures r == Decoded(size, text)
  {
    if |text| != TextLength(size) {
      return None;
    }
    hide Digits, Number, Pow2, Values, Shr, Mask, Shl, Wrapped, Times, BigEndian, Position, Fit, TextLength, Padding,
         Decoded, Spelled, Reading;
    StartReading(text);
    var out := new Byte[size];
    var filled: nat, buffer: nat, bits: nat := 0, 0, 0;
    for i := 0 to |text|
      invariant 0 <= bits < 8 && 5 * i == 8 * filled + bits && filled <= size
      invariant Reading(text, i, buffer, bits, out[..filled])
    {
      var position := Position(text[i]);
      if position.None? {
        Unspelled(size, text, i);
        return None;
      }
      Absorbed(text, i, position.value, buffer, bits, out[..filled]);
      buffer := Shl(buffer, 5) + position.value;
      bits := bits + 5;
      if bits >= 8 {
        bits := bits - 8;
        assert filled != size;
        LowByte(Shr(buffer, bits));
        var byte := Mask(Shr(buffer, bits), 8);
        Emitted(text, i + 1, buffer, bits, out[..filled], byte);
        ghost var before := out[..filled];
        out[filled] := byte;
        filled := filled + 1;
        assert out[..filled] == before + [byte];
      }
    }
    assert filled == size;
    assert out[..filled] == out[..];
    Lengths(size, |text|, bits);
    DecodedAs(size, text, buffer, bits, out[..]);
    r := if Mask(buffer, bits) != 0 then None else Some(out[..]);
  }

  /** Halfway: the characters read spell a number, of which the accumulator holds the low end and the bytes
      already written everything but the last bits. */
  ghost predicate Reading(text: seq<Byte>, i: nat, buffer: nat, bits: nat, bytes: seq<Byte>)
    requires i <= |text|
  {
    && Spelled(text[..i])
    && buffer == Wrapped(Number(Values(text[..i]), 5))
    && Number(bytes, 8) == Shr(Number(Values(text[..i]), 5), bits)
  }

  /** One character: the number read so far, its accumulator and what is left to emit. */
  lemma Absorbed(text: seq<Byte>, i: nat, value: nat, buffer: nat, bits: nat, bytes: seq<Byte>)
    requires i < |text| && Reading(text, i, buffer, bits, bytes) && Position(text[i]) == Some(value)
    ensures Reading(text, i + 1, Shl(buffer, 5) + value, bits + 5, bytes)
  {
    hide Number, Shr, Shl, Times, Wrapped, Pow2;
    Powers();
    var before := Values(text[..i]);
    assert text[..i + 1] == text[..i] + [text[i]];
    assert Values(text[..i + 1]) == before + [value];
    Appended(before, value, 5);
    ShiftIn(Number(before, 5), 5, value);
    DigitAbove(Number(before, 5), value, 5, bits);
  }

  lemma Emitted(text: seq<Byte>, i: nat, buffer: nat, bits: nat, bytes: seq<Byte>, byte: Byte)
    requires i <= |text| && Reading(text, i, buffer, bits + 8, bytes) && bits <= 7
    requires byte == Mask(Shr(buffer, bits), 8)
    ensures Reading(text, i, buffer, bits, bytes + [byte])
  {
    hide Number, Shr, Times, Wrapped, Mask, Pow2;
    ShiftOut(Number(Values(text[..i]), 5), bits, 8);
    Appended(bytes, byte, 8);
  }

  lemma Unspelled(size: nat, text: seq<Byte>, i: nat)
    requires i < |text| && Position(text[i]).None?
    ensures Decoded(size, text) == None
  {
  }

  lemma DecodedAs(size: nat, text: seq<Byte>, buffer: nat, bits: nat, bytes: seq<Byte>)
    requires |text| == TextLength(size) && |bytes| == size && Reading(text, |text|, buffer, bits, bytes)
    requires bits == Padding(size)
    ensures Decoded(size, text) == if Mask(buffer, bits) != 0 then None else Some(bytes)
  {
    hide Digits, Number, Values, Shr, Mask, Spelled, Fit, Wrapped;
    assert text[..|text|] == text;
    LowBits(Number(Values(text), 5), bits);
    ByteFit(bytes);
    DigitsOfNumber(bytes, 8);
  }

  lemma Start()
    ensures Number([], 5) == 0 && Number([], 8) == 0 && Spelled([]) && Values([]) == []
    ensures Shr(0, 0) == 0 && Wrapped(0) == 0
  {
  }

  lemma LowByte(n: nat)
    ensures Mask(n, 8) < 256
  {
    hide Mask;
    Powers();
  }

  lemma StartReading(text: seq<Byte>)
    ensures Reading(text, 0, 0, 0, [])
  {
    assert text[..0] == [];
    Start();
  }
}
