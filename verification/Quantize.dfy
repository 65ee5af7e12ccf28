/** Per-vector int8 quantization (crates/semantic/src/quant.rs) over the reals: how far the rescaled int8 dot
    product can be from the cosine it stands for. */
module Quantize {
  type Vector = seq<real>

  /** Smallest difference from one in single precision, used as the cut-off for zero. */
  const EPSILON: real := 1.0 / 8388608.0

  const LEVELS: int := 127

  datatype QuantizedVector = QuantizedVector(scale: real, values: seq<int>)

  /** Products and quotients behind names, so that the proofs below meet only those they speak of. */
  function Times(x: real, y: real): real {
    x * y
  }

  function Over(x: real, y: real): real
    requires y != 0.0
  {
    x / y
  }

  function MaxAbs(v: Vector): (m: real)
    ensures m >= 0.0
  {
    if v == [] then 0.0
    else
      var rest, last := MaxAbs(v[..|v| - 1]), v[|v| - 1];
      if rest >= last && rest >= -last then rest else if last < 0.0 then -last else last
  }

  function Dot(a: Vector, b: Vector): real
    requires |a| == |b|
  {
    if a == [] then 0.0 else Dot(a[..|a| - 1], b[..|b| - 1]) + Times(a[|a| - 1], b[|b| - 1])
  }

  function IntDot(a: seq<int>, b: seq<int>): int
    requires |a| == |b|
  {
    if a == [] then 0 else IntDot(a[..|a| - 1], b[..|b| - 1]) + a[|a| - 1] * b[|b| - 1]
  }

  /** To the nearest integer, halves away from zero. */
  function Round(x: real): int {
    if x >= 0.0 then (x + 0.5).Floor else -((-x + 0.5).Floor)
  }

  function Clamp(n: int): int {
    if n < -LEVELS then -LEVELS else if n > LEVELS then LEVELS else n
  }

  function Quantized(v: Vector): (q: QuantizedVector)
    ensures |q.values| == |v|
  {
    if MaxAbs(v) <= EPSILON then QuantizedVector(0.0, seq(|v|, _ => 0))
    else
      var scale := MaxAbs(v) / 127.0;
      QuantizedVector(scale, seq(|v|, i requires 0 <= i < |v| => Clamp(Round(Over(v[i], scale)))))
  }

  /** The score of two stored vectors. */
  function Score(a: QuantizedVector, b: QuantizedVector): real
    requires |a.values| == |b.values|
  {
    Times(Times(IntDot(a.values, b.values) as real, a.scale), b.scale)
  }

  // ----- facts about products -----

  /** Two values at most so far apart. */
  predicate Near(x: real, y: real, bound: real) {
    -bound <= x - y <= bound
  }

  lemma NonNegative(a: real, b: real)
    requires a >= 0.0 && b >= 0.0
    ensures Times(a, b) >= 0.0
  {
  }

  lemma Positive(x: real, y: real)
    requires x > 0.0 && y > 0.0
    ensures Times(x, y) > 0.0
  {
  }

  lemma BoundedProduct(x: real, y: real, m: real, n: real)
    requires Near(x, 0.0, m) && Near(y, 0.0, n)
    ensures Near(Times(x, y), 0.0, Times(m, n))
  {
    NonNegative(m - x, n + y);
    NonNegative(m + x, n - y);
    NonNegative(m - x, n - y);
    NonNegative(m + x, n + y);
  }

  lemma TimesLe(a: real, b: real, c: real)
    requires a <= b && c >= 0.0
    ensures Times(a, c) <= Times(b, c)
  {
    NonNegative(b - a, c);
  }

  lemma OneMore(l: nat, q: real)
    ensures Times((l + 1) as real, q) == Times(l as real, q) + q && Times(0.0, q) == 0.0
  {
  }

  lemma Halves(m: real, n: real)
    ensures Times(m, n / 254.0) == Times(m, n) / 254.0 == Times(m / 254.0, n)
  {
  }

  lemma Difference(x: real, x': real, y: real, y': real)
    ensures Times(x, y) - Times(x', y') == Times(x, y - y') + Times(x - x', y')
  {
  }

  // ----- one component -----

  lemma {:induction false} BelowMax(v: Vector, i: nat)
    requires i < |v|
    ensures Near(v[i], 0.0, MaxAbs(v))
  {
    if i < |v| - 1 {
      BelowMax(v[..|v| - 1], i);
    }
  }

  lemma RoundNear(x: real)
    ensures Near(x, Round(x) as real, 0.5)
    ensures Near(x, 0.0, 127.0) ==> -LEVELS <= Round(x) <= LEVELS
  {
  }

  lemma QuotientWithin(x: real, scale: real)
    requires scale > 0.0 && Near(x, 0.0, 127.0 * scale)
    ensures Near(Over(x, scale), 0.0, 127.0) && Times(Over(x, scale), scale) == x
  {
    var y := Over(x, scale);
    if y > 127.0 {
      Positive(y - 127.0, scale);
    } else if y < -127.0 {
      Positive(-127.0 - y, scale);
    }
  }

  lemma StepsOff(y: real, k: real, scale: real)
    requires scale > 0.0 && Near(y, k, 0.5)
    ensures Near(Times(y, scale), Times(scale, k), 0.5 * scale)
  {
    NonNegative(0.5 - (y - k), scale);
    NonNegative(0.5 + (y - k), scale);
  }

  /** Above the cut-off the clamp never changes a value and each component is at most half a scale step
      off; below it the vector counts as zero, which it is up to the cut-off. */
  lemma ComponentError(v: Vector, i: nat)
    requires i < |v|
    ensures MaxAbs(v) > EPSILON ==> Quantized(v).scale > 0.0 && Quantized(v).scale * 127.0 == MaxAbs(v)
                                    && Quantized(v).values[i] == Round(Over(v[i], Quantized(v).scale))
                                    && Near(v[i], Times(Quantized(v).scale, Quantized(v).values[i] as real),
                                            0.5 * Quantized(v).scale)
    ensures MaxAbs(v) <= EPSILON
            ==> Quantized(v).scale == 0.0 && Quantized(v).values[i] == 0 && Near(v[i], 0.0, EPSILON)
    ensures -LEVELS <= Quantized(v).values[i] <= LEVELS
  {
    BelowMax(v, i);
    hide MaxAbs, Round, Times, Over;
    if MaxAbs(v) > EPSILON {
      var scale := MaxAbs(v) / 127.0;
      var y := Over(v[i], scale);
      QuotientWithin(v[i], scale);
      RoundNear(y);
      StepsOff(y, Round(y) as real, scale);
    }
  }

  // ----- the dot product -----

  /** What the stored bytes stand for. */
  function Restored(scale: real, values: seq<int>): (v: Vector)
    ensures |v| == |values|
  {
    seq(|values|, i requires 0 <= i < |values| => Times(scale, values[i] as real))
  }

  lemma {:induction false} Rescaled(a: seq<int>, b: seq<int>, s: real, t: real)
    requires |a| == |b|
    ensures Times(Times(IntDot(a, b) as real, s), t) == Dot(Restored(s, a), Restored(t, b))
  {
    hide Times;
    if a != [] {
      var n := |a| - 1;
      Rescaled(a[..n], b[..n], s, t);
      assert Restored(s, a)[..n] == Restored(s, a[..n]);
      assert Restored(t, b)[..n] == Restored(t, b[..n]);
      RescaledTerm(IntDot(a[..n], b[..n]), a[n], b[n], s, t);
    } else {
      OneMore(0, s);
      OneMore(0, t);
    }
  }

  lemma RescaledTerm(d: int, x: int, y: int, s: real, t: real)
    ensures Times(Times((d + x * y) as real, s), t)
            == Times(Times(d as real, s), t) + Times(Times(s, x as real), Times(t, y as real))
  {
    var (x', y', p) := (x as real, y as real, (x * y) as real);
    assert p == x' * y' by { RealProduct(x, y); }
    assert (d + x * y) as real == d as real + p;
    Regroup(d as real, x', y', s, t);
  }

  lemma RealProduct(x: int, y: int)
    ensures (x * y) as real == x as real * y as real
  {
  }

  lemma Regroup(d: real, x: real, y: real, s: real, t: real)
    ensures Times(Times(d + x * y, s), t) == Times(Times(d, s), t) + Times(Times(s, x), Times(t, y))
  {
    assert (d + x * y) * s * t == d * s * t + (s * x) * (t * y);
  }

  /** One product is off by at most the product of the magnitudes over 127. */
  lemma ProductError(x: real, x': real, y: real, y': real, m: real, n: real)
    requires Near(x, 0.0, m) && Near(y', 0.0, n) && Near(x, x', m / 254.0) && Near(y, y', n / 254.0)
    ensures Near(Times(x, y), Times(x', y'), Times(m, n) / 127.0)
  {
    hide Times;
    BoundedProduct(x, y - y', m, n / 254.0);
    BoundedProduct(x - x', y', m / 254.0, n);
    Difference(x, x', y, y');
    Halves(m, n);
  }

  /** Vectors that are everywhere close have close dot products. */
  lemma {:induction false} DotClose(a: Vector, a': Vector, b: Vector, b': Vector, m: real, n: real)
    requires |a| == |a'| == |b| == |b'|
    requires forall i :: 0 <= i < |a| ==> Near(a[i], 0.0, m) && Near(b'[i], 0.0, n)
    requires forall i :: 0 <= i < |a| ==> Near(a[i], a'[i], m / 254.0) && Near(b[i], b'[i], n / 254.0)
    ensures Near(Dot(a, b), Dot(a', b'), Times(|a| as real, Times(m, n) / 127.0))
  {
    hide Times;
    if a != [] {
      var l := |a| - 1;
      DotClose(a[..l], a'[..l], b[..l], b'[..l], m, n);
      ProductError(a[l], a'[l], b[l], b'[l], m, n);
      OneMore(l, Times(m, n) / 127.0);
    } else {
      OneMore(0, Times(m, n) / 127.0);
    }
  }

  lemma StoredWithin(scale: real, level: int)
    requires scale > 0.0 && -LEVELS <= level <= LEVELS
    ensures Near(Times(scale, level as real), 0.0, scale * 127.0)
  {
    BoundedProduct(scale, level as real, scale, 127.0);
  }

  lemma RestoredClose(v: Vector, i: nat)
    requires i < |v| && MaxAbs(v) > EPSILON
    ensures Near(v[i], Restored(Quantized(v).scale, Quantized(v).values)[i], MaxAbs(v) / 254.0)
    ensures Near(Restored(Quantized(v).scale, Quantized(v).values)[i], 0.0, MaxAbs(v))
  {
    ComponentError(v, i);
    hide MaxAbs, Quantized, Round, Times, Over;
    StoredWithin(Quantized(v).scale, Quantized(v).values[i]);
  }

  /** Above the cut-off the score is within n * Ma * Mb / 127 of the true dot product. */
  lemma ScoreError(a: Vector, b: Vector)
    requires |a| == |b| && MaxAbs(a) > EPSILON && MaxAbs(b) > EPSILON
    ensures Near(Dot(a, b), Score(Quantized(a), Quantized(b)), Times(|a| as real, Times(MaxAbs(a), MaxAbs(b)) / 127.0))
  {
    hide MaxAbs, Quantized, Restored, IntDot, Dot, Times, Near;
    var (p, q) := (Quantized(a), Quantized(b));
    Rescaled(p.values, q.values, p.scale, q.scale);
    var (a', b') := (Restored(p.scale, p.values), Restored(q.scale, q.values));
    forall i | 0 <= i < |a|
      ensures Near(a[i], 0.0, MaxAbs(a)) && Near(b'[i], 0.0, MaxAbs(b))
      ensures Near(a[i], a'[i], MaxAbs(a) / 254.0) && Near(b[i], b'[i], MaxAbs(b) / 254.0)
    {
      BelowMax(a, i);
      RestoredClose(a, i);
      RestoredClose(b, i);
    }
    DotClose(a, a', b, b', MaxAbs(a), MaxAbs(b));
  }

  // ----- normalization -----

  predicate IsRoot(sqrt: real -> real, x: real) {
    x >= 0.0 ==> sqrt(x) >= 0.0 && Times(sqrt(x), sqrt(x)) == x
  }

  function Norm(sqrt: real -> real, v: Vector): real {
    sqrt(Dot(v, v))
  }

  function Normalized(sqrt: real -> real, v: Vector): (u: Vector)
    ensures |u| == |v|
  {
    var norm := Norm(sqrt, v);
    if norm > EPSILON then seq(|v|, i requires 0 <= i < |v| => Over(v[i], norm)) else v
  }

  /** Divides by the length in place; a vector too short to divide stays as it is. */
  method Normalize(vector: array<real>, sqrt: real -> real)
    modifies vector
    ensures vector[..] == Normalized(sqrt, old(vector[..]))
  {
    hide Times, Over;
    var sum := 0.0;
    for i := 0 to vector.Length
      invariant sum == Dot(vector[..i], vector[..i])
    {
      assert vector[..i + 1][..i] == vector[..i];
      sum := sum + Times(vector[i], vector[i]);
    }
    assert vector[..vector.Length] == vector[..];
    var norm := sqrt(sum);
    if norm > EPSILON {
      for i := 0 to vector.Length
        invariant forall j :: 0 <= j < i ==> vector[j] == Over(old(vector[j]), norm)
        invariant forall j :: i <= j < vector.Length ==> vector[j] == old(vector[j])
      {
        vector[i] := Over(vector[i], norm);
      }
    }
  }

  /** Dividing the vectors divides their product. */
  lemma {:induction false} DotScaled(a: Vector, b: Vector, s: real, t: real, a': Vector, b': Vector)
    requires |a| == |b| == |a'| == |b'|
    requires forall i :: 0 <= i < |a| ==> Times(a'[i], s) == a[i] && Times(b'[i], t) == b[i]
    ensures Times(Dot(a', b'), Times(s, t)) == Dot(a, b)
  {
    hide Times;
    if a != [] {
      var l := |a| - 1;
      DotScaled(a[..l], b[..l], s, t, a'[..l], b'[..l]);
      ScaledTerm(Dot(a'[..l], b'[..l]), a'[l], b'[l], s, t);
    } else {
      OneMore(0, Times(s, t));
    }
  }

  lemma ScaledTerm(d: real, x: real, y: real, s: real, t: real)
    ensures Times(d + Times(x, y), Times(s, t)) == Times(d, Times(s, t)) + Times(Times(x, s), Times(y, t))
  {
    assert (x * y) * (s * t) == (x * s) * (y * t);
  }

  lemma Multiplied(x: real, s: real)
    requires s != 0.0
    ensures Times(Over(x, s), s) == x
  {
  }

  lemma Divided(sqrt: real -> real, v: Vector)
    requires Norm(sqrt, v) > EPSILON
    ensures forall i :: 0 <= i < |v| ==> Times(Normalized(sqrt, v)[i], Norm(sqrt, v)) == v[i]
  {
    hide Times, Over, Norm;
    forall i | 0 <= i < |v| ensures Times(Normalized(sqrt, v)[i], Norm(sqrt, v)) == v[i] {
      Multiplied(v[i], Norm(sqrt, v));
    }
  }

  lemma Cancel(x: real, c: real)
    requires Times(x, c) == c && c > 0.0
    ensures x == 1.0
  {
    assert (x - 1.0) * c == 0.0;
  }

  lemma SquareLe(x: real, m: real)
    requires Near(x, 0.0, m)
    ensures 0.0 <= Times(x, x) <= Times(m, m)
  {
    BoundedProduct(x, x, m, m);
    if x >= 0.0 {
      NonNegative(x, x);
    } else {
      NonNegative(-x, -x);
    }
  }

  lemma {:induction false} SquaresBelow(v: Vector, m: real)
    requires forall i :: 0 <= i < |v| ==> Near(v[i], 0.0, m)
    ensures 0.0 <= Dot(v, v) <= Times(|v| as real, Times(m, m))
  {
    hide Times;
    if v != [] {
      var l := |v| - 1;
      SquaresBelow(v[..l], m);
      SquareLe(v[l], m);
      OneMore(l, Times(m, m));
    } else {
      OneMore(0, Times(m, m));
    }
  }

  lemma AllBelowMax(v: Vector)
    ensures forall i :: 0 <= i < |v| ==> Near(v[i], 0.0, MaxAbs(v))
  {
    forall i | 0 <= i < |v| ensures Near(v[i], 0.0, MaxAbs(v)) {
      BelowMax(v, i);
    }
  }

  /** A vector long enough to divide becomes a unit vector, of any practical dimension far above the
      quantization cut-off. */
  lemma UnitLength(sqrt: real -> real, v: Vector)
    requires IsRoot(sqrt, Dot(v, v)) && Norm(sqrt, v) > EPSILON && |v| <= 0x4000_0000
    ensures var u := Normalized(sqrt, v);
            Dot(u, u) == 1.0 && MaxAbs(u) > EPSILON
  {
    hide Dot, MaxAbs, Normalized, Times, Near;
    var u, norm := Normalized(sqrt, v), Norm(sqrt, v);
    AllBelowMax(v);
    SquaresBelow(v, MaxAbs(v));
    Divided(sqrt, v);
    DotScaled(v, v, norm, norm, u, u);
    Positive(norm, norm);
    Cancel(Dot(u, u), Times(norm, norm));
    AllBelowMax(u);
    SquaresBelow(u, MaxAbs(u));
    AboveCutOff(MaxAbs(u), |u|);
  }

  lemma AboveCutOff(m: real, n: nat)
    requires m >= 0.0 && n <= 0x4000_0000 && 1.0 <= Times(n as real, Times(m, m))
    ensures m > EPSILON
  {
    NonNegative(m, m);
    TimesLe(n as real, 1073741824.0, Times(m, m));
    var square := Times(m, m);
    assert square >= 1.0 / 1073741824.0;
    if m <= EPSILON {
      SquareLe(m, EPSILON);
    }
  }

  /** The score of two normalized, quantized vectors approximates the cosine of the originals. */
  lemma ScoreIsCosine(sqrt: real -> real, a: Vector, b: Vector)
    requires |a| == |b| <= 0x4000_0000 && IsRoot(sqrt, Dot(a, a)) && IsRoot(sqrt, Dot(b, b))
    requires Norm(sqrt, a) > EPSILON && Norm(sqrt, b) > EPSILON
    ensures Times(Norm(sqrt, a), Norm(sqrt, b)) > 0.0
    ensures var (u, w) := (Normalized(sqrt, a), Normalized(sqrt, b));
            Near(Over(Dot(a, b), Times(Norm(sqrt, a), Norm(sqrt, b))), Score(Quantized(u), Quantized(w)),
                 Times(|a| as real, Times(MaxAbs(u), MaxAbs(w)) / 127.0))
  {
    hide MaxAbs, Quantized, Score, Dot, Normalized, Norm, Near, Times, Over;
    var (u, w) := (Normalized(sqrt, a), Normalized(sqrt, b));
    Divided(sqrt, a);
    Divided(sqrt, b);
    UnitLength(sqrt, a);
    UnitLength(sqrt, b);
    DotScaled(a, b, Norm(sqrt, a), Norm(sqrt, b), u, w);
    Positive(Norm(sqrt, a), Norm(sqrt, b));
    QuotientIs(Dot(a, b), Times(Norm(sqrt, a), Norm(sqrt, b)), Dot(u, w));
    ScoreError(u, w);
  }

  lemma QuotientIs(n: real, p: real, q: real)
    requires p != 0.0 && Times(q, p) == n
    ensures Over(n, p) == q
  {
  }

  // ----- the cosine on raw vectors -----

  /** Division by a length keeps order and sign. */
  lemma OverOrder(x: real, y: real, n: real)
    requires n > 0.0
    ensures x <= y <==> Over(x, n) <= Over(y, n)
  {
    var (p, q) := (Over(x, n), Over(y, n));
    if p > q {
      Positive(p - q, n);
    } else {
      NonNegative(q - p, n);
    }
  }

  lemma OverMinus(x: real, n: real)
    requires n > 0.0
    ensures Over(-x, n) == -Over(x, n) && Over(0.0, n) == 0.0
  {
    QuotientIs(-x, n, -Over(x, n));
    QuotientIs(0.0, n, 0.0);
  }

  /** Dividing a vector divides its largest component. */
  lemma {:induction false} MaxAbsScaled(v: Vector, u: Vector, n: real)
    requires n > 0.0 && |u| == |v| && forall i :: 0 <= i < |v| ==> u[i] == Over(v[i], n)
    ensures MaxAbs(u) == Over(MaxAbs(v), n)
  {
    hide Over;
    OverMinus(0.0, n);
    if v != [] {
      var l := |v| - 1;
      MaxAbsScaled(v[..l], u[..l], n);
      var (rest, last) := (MaxAbs(v[..l]), v[l]);
      OverOrder(last, rest, n);
      OverOrder(-last, rest, n);
      OverOrder(0.0, last, n);
      OverMinus(last, n);
    }
  }

  /** No component is longer than the vector. */
  lemma {:induction false} MaxAbsSquared(v: Vector)
    ensures Times(MaxAbs(v), MaxAbs(v)) <= Dot(v, v)
  {
    hide Times;
    if v == [] {
      OneMore(0, 0.0);
    } else {
      var l := |v| - 1;
      MaxAbsSquared(v[..l]);
      AllBelowMax(v);
      SquaresBelow(v[..l], MaxAbs(v[..l])) by { AllBelowMax(v[..l]); }
      SquareLe(v[l], MaxAbs(v));
      MinusSquared(v[l]);
      NonNegative(MaxAbs(v[..l]), MaxAbs(v[..l]));
    }
  }

  lemma MinusSquared(x: real)
    ensures Times(-x, -x) == Times(x, x)
  {
  }

  lemma ShortComponents(sqrt: real -> real, v: Vector)
    requires IsRoot(sqrt, Dot(v, v))
    ensures 0.0 <= Norm(sqrt, v) && MaxAbs(v) <= Norm(sqrt, v)
  {
    hide Times, Dot, MaxAbs;
    MaxAbsSquared(v);
    NonNegative(MaxAbs(v), MaxAbs(v));
    var (m, n) := (MaxAbs(v), Norm(sqrt, v));
    if m > n {
      Positive(m - n, m);
      NonNegative(m - n, n);
      SquareApart(m, n);
    }
  }

  lemma SquareApart(m: real, n: real)
    ensures Times(m, m) - Times(n, n) == Times(m - n, m) + Times(m - n, n)
  {
  }

  /** The cosine of two vectors that have one. */
  ghost function Cosine(sqrt: real -> real, a: Vector, b: Vector): real
    requires |a| == |b| && Times(Norm(sqrt, a), Norm(sqrt, b)) != 0.0
  {
    Over(Dot(a, b), Times(Norm(sqrt, a), Norm(sqrt, b)))
  }

  /** How far a score may be from the cosine: the dimension over 127, scaled by the largest components of the
      two vectors relative to their lengths. */
  ghost function Tolerance(sqrt: real -> real, a: Vector, b: Vector): real
    requires |a| == |b| && Norm(sqrt, a) != 0.0 && Norm(sqrt, b) != 0.0
  {
    Times(|a| as real, Times(Over(MaxAbs(a), Norm(sqrt, a)), Over(MaxAbs(b), Norm(sqrt, b))) / 127.0)
  }

  /** What a score tells of two vectors as they were given: their cosine, up to the tolerance, or nothing when
      one of them is too short to have a direction. */
  ghost predicate Tells(sqrt: real -> real, a: Vector, b: Vector, score: real)
    requires |a| == |b|
  {
    if Norm(sqrt, a) > EPSILON && Norm(sqrt, b) > EPSILON
    then Times(Norm(sqrt, a), Norm(sqrt, b)) != 0.0 && Near(Cosine(sqrt, a, b), score, Tolerance(sqrt, a, b))
    else score == 0.0
  }

  lemma ZeroScale(a: QuantizedVector, b: QuantizedVector)
    requires |a.values| == |b.values| && (a.scale == 0.0 || b.scale == 0.0)
    ensures Score(a, b) == 0.0
  {
  }

  /** The score of two vectors that were normalized and quantized tells what it should. */
  lemma ScoreTells(sqrt: real -> real, a: Vector, b: Vector)
    requires |a| == |b| <= 0x4000_0000 && IsRoot(sqrt, Dot(a, a)) && IsRoot(sqrt, Dot(b, b))
    ensures Tells(sqrt, a, b, Score(Quantized(Normalized(sqrt, a)), Quantized(Normalized(sqrt, b))))
  {
    hide Score, Dot, Norm, Near, Times, Over, IsRoot, MaxAbs;
    var (u, w) := (Normalized(sqrt, a), Normalized(sqrt, b));
    if Norm(sqrt, a) > EPSILON && Norm(sqrt, b) > EPSILON {
      ScoreIsCosine(sqrt, a, b);
      MaxAbsScaled(a, u, Norm(sqrt, a));
      MaxAbsScaled(b, w, Norm(sqrt, b));
    } else {
      ShortComponents(sqrt, a);
      ShortComponents(sqrt, b);
      ZeroScale(Quantized(u), Quantized(w));
    }
  }

  // ----- the 32-bit accumulator -----

  const MAX_INT32: int := 0x7fff_ffff
  const SAFE_DIMENSIONS: nat := 133144

  predicate Int8Levels(values: seq<int>) {
    forall i :: 0 <= i < |values| ==> -LEVELS <= values[i] <= LEVELS
  }

  predicate InInt32(n: int) {
    -MAX_INT32 - 1 <= n <= MAX_INT32
  }

  lemma {:induction false} DotBound(a: seq<int>, b: seq<int>)
    requires |a| == |b| && Int8Levels(a) && Int8Levels(b)
    ensures -16129 * |a| <= IntDot(a, b) <= 16129 * |a|
  {
    if a != [] {
      var l := |a| - 1;
      DotBound(a[..l], b[..l]);
      LevelProduct(a[l], b[l]);
    }
  }

  lemma IntMulLe(a: int, b: int, c: int)
    requires a <= b && c >= 0
    ensures a * c <= b * c
  {
  }

  lemma LevelProduct(x: int, y: int)
    requires -LEVELS <= x <= LEVELS && -LEVELS <= y <= LEVELS
    ensures -16129 <= x * y <= 16129
  {
    if x >= 0 {
      IntMulLe(y, 127, x);
      IntMulLe(-127, y, x);
    } else {
      IntMulLe(y, 127, -x);
      IntMulLe(-127, y, -x);
    }
  }

  lemma {:induction false} FullScale(n: nat)
    ensures IntDot(seq(n, _ => 127), seq(n, _ => 127)) == 16129 * n
  {
    if n > 0 {
      var full := seq(n, _ => 127);
      FullScale(n - 1);
      assert full[..n - 1] == seq(n - 1, _ => 127);
    }
  }

  /** Every dot product of a dimension fits the 32-bit accumulator exactly up to 133144. */
  lemma AccumulatorFits(n: nat)
    ensures n <= SAFE_DIMENSIONS
       <==> forall a, b :: |a| == |b| == n && Int8Levels(a) && Int8Levels(b) ==> InInt32(IntDot(a, b))
  {
    if n <= SAFE_DIMENSIONS {
      forall a: seq<int>, b: seq<int> | |a| == |b| == n && Int8Levels(a) && Int8Levels(b)
        ensures InInt32(IntDot(a, b)) {
        DotBound(a, b);
      }
    } else {
      FullScale(n);
      assert Int8Levels(seq(n, _ => 127));
    }
  }
}
