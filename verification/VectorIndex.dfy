/** The resident vector index (crates/semantic/src/index.rs): one flat int8 matrix, scanned row by row. */
module VectorIndex {
  import opened Bytes
  import opened Wrappers
  import opened Quantize

  type Id = seq<Byte>

  datatype ScanHit = ScanHit(id: Id, score: real)

  datatype Entry = Entry(id: Id, vector: Vector)

  /** One indexed row as a value. */
  datatype Row = Row(id: Id, stored: QuantizedVector)

  // ----- the order of hits -----

  /** Byte order of ids. */
  predicate IdBelow(a: Id, b: Id) {
    if b == [] then false
    else if a == [] then true
    else a[0] < b[0] || (a[0] == b[0] && IdBelow(a[1..], b[1..]))
  }

  lemma {:induction false} IdIrreflexive(a: Id)
    ensures !IdBelow(a, a)
  {
    if a != [] {
      IdIrreflexive(a[1..]);
    }
  }

  lemma {:induction false} IdTotal(a: Id, b: Id)
    ensures IdBelow(a, b) || IdBelow(b, a) || a == b
    ensures !(IdBelow(a, b) && IdBelow(b, a)) && !IdBelow(a, a)
  {
    IdIrreflexive(a);
    if a != [] && b != [] {
      IdTotal(a[1..], b[1..]);
      assert a == [a[0]] + a[1..] && b == [b[0]] + b[1..];
    }
  }

  lemma {:induction false} IdTransitive(a: Id, b: Id, c: Id)
    requires IdBelow(a, b) && IdBelow(b, c)
    ensures IdBelow(a, c)
  {
    if a != [] && a[0] == b[0] && b[0] == c[0] {
      IdTransitive(a[1..], b[1..], c[1..]);
    }
  }

  /** Higher scores first, then lower ids. */
  predicate Before(a: ScanHit, b: ScanHit) {
    a.score > b.score || (a.score == b.score && (a.id == b.id || IdBelow(a.id, b.id)))
  }

  lemma BeforeTotal(a: ScanHit, b: ScanHit)
    ensures Before(a, b) || Before(b, a)
    ensures Before(a, b) && Before(b, a) ==> a == b
  {
    IdTotal(a.id, b.id);
  }

  lemma BeforeTransitive(a: ScanHit, b: ScanHit, c: ScanHit)
    requires Before(a, b) && Before(b, c)
    ensures Before(a, c)
  {
    if IdBelow(a.id, b.id) && IdBelow(b.id, c.id) {
      IdTransitive(a.id, b.id, c.id);
    }
  }

  predicate Sorted(hits: seq<ScanHit>) {
    forall i, j :: 0 <= i < j < |hits| ==> Before(hits[i], hits[j])
  }

  lemma CancelOne<T>(s: multiset<T>, t: multiset<T>, x: T)
    requires s + multiset{x} == t + multiset{x}
    ensures s == t
  {
    assert s == (s + multiset{x}) - multiset{x} && t == (t + multiset{x}) - multiset{x};
  }

  lemma SplitLast(a: seq<ScanHit>)
    requires a != []
    ensures a == a[..|a| - 1] + [a[|a| - 1]]
    ensures multiset(a) == multiset(a[..|a| - 1]) + multiset{a[|a| - 1]}
  {
    assert a == a[..|a| - 1] + [a[|a| - 1]];
  }

  lemma SameLast(a: seq<ScanHit>, b: seq<ScanHit>)
    requires Sorted(a) && Sorted(b) && multiset(a) == multiset(b) && |a| == |b| > 0
    ensures a[|a| - 1] == b[|b| - 1]
  {
    hide Before;
    var n := |a| - 1;
    assert a[n] in multiset(b) && b[n] in multiset(a);
    var i :| 0 <= i < |b| && b[i] == a[n];
    var j :| 0 <= j < |a| && a[j] == b[n];
    BeforeTotal(a[n], b[n]);
  }

  /** A sorted list is determined by what it holds. */
  lemma {:induction false} SortedUnique(a: seq<ScanHit>, b: seq<ScanHit>)
    requires Sorted(a) && Sorted(b) && multiset(a) == multiset(b)
    ensures a == b
  {
    hide Before;
    assert |a| == |multiset(a)| == |multiset(b)| == |b|;
    if a != [] {
      var n := |a| - 1;
      SplitLast(a);
      SplitLast(b);
      SameLast(a, b);
      CancelOne(multiset(a[..n]), multiset(b[..n]), a[n]);
      SortedUnique(a[..n], b[..n]);
    }
  }

  // ----- what a scan promises -----

  /** The best k of some hits: sorted, as many as there can be, and nothing left out sorts before
      anything returned. */
  ghost predicate Best(result: seq<ScanHit>, hits: seq<ScanHit>, k: nat) {
    && |result| == (if |hits| <= k then |hits| else k)
    && Sorted(result)
    && multiset(result) <= multiset(hits)
    && forall omitted :: omitted in multiset(hits) - multiset(result)
                         ==> forall i :: 0 <= i < |result| ==> Before(result[i], omitted)
  }

  lemma {:induction false} PrefixIsBest(hits: seq<ScanHit>, k: nat)
    requires Sorted(hits) && k <= |hits|
    ensures Best(hits[..k], hits, k)
  {
    assert hits == hits[..k] + hits[k..];
    forall omitted | omitted in multiset(hits) - multiset(hits[..k])
      ensures forall i :: 0 <= i < k ==> Before(hits[..k][i], omitted) {
      assert omitted in multiset(hits[k..]);
    }
  }

  /** The promise leaves no choice: whichever order the hits came in, the result is the same. */
  lemma BestUnique(a: seq<ScanHit>, b: seq<ScanHit>, hits: seq<ScanHit>, hits': seq<ScanHit>, k: nat)
    requires multiset(hits) == multiset(hits') && Best(a, hits, k) && Best(b, hits', k)
    ensures a == b
  {
    assert |hits| == |multiset(hits)| == |multiset(hits')| == |hits'|;
    var (s, t) := (multiset(a), multiset(b));
    if s != t {
      assert |s| == |a| == |b| == |t|;
      var x := OneMoreOf(s, t);
      var y := OneMoreOf(t, s);
      var m := multiset(hits);
      assert s[x] <= m[x] && t[y] <= m[y];
      assert x in m - t && y in m - s;
      var i :| 0 <= i < |a| && a[i] == x;
      var j :| 0 <= j < |b| && b[j] == y;
      assert Before(x, y) && Before(y, x);
      BeforeTotal(x, y);
    }
    SortedUnique(a, b);
  }

  lemma SubsetOfSameSize(s: multiset<ScanHit>, t: multiset<ScanHit>)
    requires s <= t && |s| == |t|
    ensures s == t
  {
    assert t == s + (t - s);
  }

  lemma OneMoreOf(s: multiset<ScanHit>, t: multiset<ScanHit>) returns (x: ScanHit)
    requires s != t && |s| == |t|
    ensures s[x] > t[x]
  {
    if s <= t {
      SubsetOfSameSize(s, t);
    }
    x :| s[x] > t[x];
  }

  // ----- sorting -----

  lemma InsertedSorted(hits: seq<ScanHit>, at: nat, hit: ScanHit)
    requires Sorted(hits) && at <= |hits|
    requires forall i :: 0 <= i < at ==> Before(hits[i], hit)
    requires forall i :: at <= i < |hits| ==> Before(hit, hits[i])
    ensures Sorted(hits[..at] + [hit] + hits[at..])
    ensures multiset(hits[..at] + [hit] + hits[at..]) == multiset(hits) + multiset{hit}
  {
    hide Before;
    assert hits == hits[..at] + hits[at..];
  }

  method SortHits(hits: seq<ScanHit>) returns (sorted: seq<ScanHit>)
    ensures Sorted(sorted) && multiset(sorted) == multiset(hits)
  {
    hide Before;
    sorted := [];
    for n := 0 to |hits|
      invariant Sorted(sorted) && multiset(sorted) == multiset(hits[..n])
    {
      var hit := hits[n];
      var at := |sorted|;
      while at > 0 && !Before(sorted[at - 1], hit)
        invariant 0 <= at <= |sorted|
        invariant forall i :: at <= i < |sorted| ==> Before(hit, sorted[i])
      {
        BeforeTotal(sorted[at - 1], hit);
        at := at - 1;
      }
      forall i | 0 <= i < at ensures Before(sorted[i], hit) {
        if i < at - 1 {
          BeforeTransitive(sorted[i], sorted[at - 1], hit);
        }
      }
      InsertedSorted(sorted, at, hit);
      sorted := sorted[..at] + [hit] + sorted[at..];
      assert hits[..n + 1] == hits[..n] + [hits[n]];
    }
    assert hits[..|hits|] == hits;
  }

  // ----- what is indexed -----

  /** The rows entries of the right dimension give, in order. */
  function Indexed(sqrt: real -> real, dims: nat, entries: seq<Entry>): (rows: seq<Row>)
    ensures forall r :: r in rows ==> |r.stored.values| == dims
  {
    if entries == [] then []
    else
      var e := entries[|entries| - 1];
      Indexed(sqrt, dims, entries[..|entries| - 1])
      + if |e.vector| == dims then [Row(e.id, Quantized(Normalized(sqrt, e.vector)))] else []
  }

  function HitOf(row: Row, query: QuantizedVector): ScanHit
    requires |row.stored.values| == |query.values|
  {
    ScanHit(row.id, Score(row.stored, query))
  }

  /** The rows scoring at least the minimum. */
  function Qualifying(rows: seq<Row>, query: QuantizedVector, minScore: real): seq<ScanHit>
    requires forall r :: r in rows ==> |r.stored.values| == |query.values|
  {
    if rows == [] then []
    else
      var last := rows[|rows| - 1];
      var hit := HitOf(last, query);
      Qualifying(rows[..|rows| - 1], query, minScore) + if hit.score >= minScore then [hit] else []
  }

  /** The hits a query competes over: it is normalized and quantized like the rows. */
  function Candidates(sqrt: real -> real, rows: seq<Row>, query: Vector, minScore: real): seq<ScanHit>
    requires forall r :: r in rows ==> |r.stored.values| == |query|
  {
    Qualifying(rows, Quantized(Normalized(sqrt, query)), minScore)
  }

  // ----- the index -----

  class Index {
    const dims: nat
    var ids: seq<Id>
    var scales: seq<real>
    var values: seq<int>

    /** The flat matrix has one row of the right length per id. */
    ghost predicate Valid()
      reads this
    {
      |scales| == |ids| && |values| == |ids| * dims
    }

    /** Where a row's values are. */
    lemma RowInRange(row: nat)
      requires Valid() && row < |ids|
      ensures 0 <= row * dims <= row * dims + dims <= |values|
    {
      RowEnd(row, |ids|, dims);
    }

    function RowAt(row: nat): (r: Row)
      requires Valid() && row < |ids|
      reads this
      ensures |r.stored.values| == dims
    {
      RowInRange(row);
      Row(ids[row], QuantizedVector(scales[row], values[row * dims..row * dims + dims]))
    }

    function Rows(): (rows: seq<Row>)
      requires Valid()
      reads this
      ensures |rows| == |ids| && forall r :: r in rows ==> |r.stored.values| == dims
    {
      seq(|ids|, row requires 0 <= row < |ids| && Valid() reads this => RowAt(row))
    }

    /** Entries of another dimension are skipped; the rest are normalized, quantized and appended. */
    constructor (sqrt: real -> real, dims: nat, entries: seq<Entry>)
      ensures Valid() && this.dims == dims && Rows() == Indexed(sqrt, dims, entries)
    {
      this.dims := dims;
      ids, scales, values := [], [], [];
      new;
      for i := 0 to |entries|
        invariant Valid() && Rows() == Indexed(sqrt, dims, entries[..i])
      {
        hide Quantized, Normalized;
        assert entries[..i + 1][..i] == entries[..i];
        var e := entries[i];
        if |e.vector| == dims {
          var vector := new real[dims](n requires 0 <= n < dims => e.vector[n]);
          assert vector[..] == e.vector;
          Normalize(vector, sqrt);
          var q := Quantized(vector[..]);
          Append(e.id, q);
        }
      }
      assert entries[..|entries|] == entries;
    }

    method Append(id: Id, q: QuantizedVector)
      requires Valid() && |q.values| == dims
      modifies this
      ensures Valid() && Rows() == old(Rows()) + [Row(id, q)]
    {
      ghost var n := |ids|;
      ids := ids + [id];
      scales := scales + [q.scale];
      values := values + q.values;
      NextRow(n, dims);
      forall row | 0 <= row < n ensures RowAt(row) == old(Rows())[row] {
        RowEnd(row, n, dims);
        assert values[row * dims..row * dims + dims] == old(values)[row * dims..row * dims + dims];
      }
      assert values[n * dims..n * dims + dims] == q.values;
      assert RowAt(n) == Row(id, q);
    }

    /** The int8 dot product of one row, accumulated left to right. */
    method RowDot(row: nat, query: seq<int>) returns (dot: int)
      requires Valid() && row < |ids| && |query| == dims
      ensures dot == IntDot(RowAt(row).stored.values, query)
    {
      RowInRange(row);
      var slice := values[row * dims..row * dims + dims];
      dot := 0;
      for i := 0 to dims
        invariant dot == IntDot(slice[..i], query[..i])
      {
        assert slice[..i + 1][..i] == slice[..i] && query[..i + 1][..i] == query[..i];
        dot := dot + slice[i] * query[i];
      }
      assert slice[..dims] == slice && query[..dims] == query;
    }

    /** The k best rows against a query of the index's dimension, nothing for any other or for k zero. */
    method TopK(sqrt: real -> real, query: Vector, k: nat, minScore: real) returns (result: seq<ScanHit>)
      requires Valid()
      ensures |query| != dims ==> result == []
      ensures |query| == dims ==> Best(result, Candidates(sqrt, Rows(), query, minScore), k)
    {
      hide Quantized, Normalized, Times, Before, IntDot;
      if |query| != dims || k == 0 {
        return [];
      }
      var vector := new real[|query|](n requires 0 <= n < |query| => query[n]);
      assert vector[..] == query;
      Normalize(vector, sqrt);
      var q := Quantized(vector[..]);
      var hits: seq<ScanHit> := [];
      ghost var rows := Rows();
      for row := 0 to |ids|
        invariant hits == Qualifying(rows[..row], q, minScore)
      {
        assert rows[..row + 1][..row] == rows[..row];
        var dot := RowDot(row, q.values);
        var score := Times(Times(dot as real, scales[row]), q.scale);
        assert score == HitOf(rows[row], q).score;
        if score >= minScore {
          hits := hits + [ScanHit(ids[row], score)];
        }
      }
      assert rows[..|ids|] == rows;
      var sorted := SortHits(hits);
      var kept := if |sorted| <= k then |sorted| else k;
      assert |sorted| == |multiset(sorted)| == |hits|;
      PrefixIsBest(sorted, kept);
      result := sorted[..kept];
    }
  }

  lemma RowEnd(row: nat, rows: nat, dims: nat)
    requires row < rows
    ensures 0 <= row * dims <= row * dims + dims <= rows * dims
  {
    var after := rows - (row + 1);
    NextRow(row, dims);
    Rest(row + 1, after, dims);
  }

  lemma Rest(a: nat, b: nat, dims: nat)
    ensures (a + b) * dims == a * dims + b * dims && b * dims >= 0 && a * dims >= 0
  {
  }

  lemma NextRow(n: nat, dims: nat)
    ensures (n + 1) * dims == n * dims + dims
  {
  }

  // ----- whole searches -----

  /** Qualifying hits are exactly those of the rows that reach the minimum. */
  lemma {:induction false} QualifyingIn(rows: seq<Row>, query: QuantizedVector, minScore: real, hit: ScanHit)
    requires forall r :: r in rows ==> |r.stored.values| == |query.values|
    ensures hit in Qualifying(rows, query, minScore) <==>
              exists r :: r in rows && HitOf(r, query) == hit && hit.score >= minScore
  {
    if rows != [] {
      assert rows == rows[..|rows| - 1] + [rows[|rows| - 1]];
      QualifyingIn(rows[..|rows| - 1], query, minScore, hit);
    }
  }

  lemma {:induction false} QualifyingAppend(a: seq<Row>, b: seq<Row>, query: QuantizedVector, minScore: real)
    requires forall r :: r in a + b ==> |r.stored.values| == |query.values|
    ensures (forall r :: r in a ==> |r.stored.values| == |query.values|)
            && (forall r :: r in b ==> |r.stored.values| == |query.values|)
    ensures Qualifying(a + b, query, minScore) == Qualifying(a, query, minScore) + Qualifying(b, query, minScore)
  {
    assert forall r :: r in a ==> r in a + b;
    assert forall r :: r in b ==> r in a + b;
    if b == [] {
      assert a + b == a;
    } else {
      var n := |b| - 1;
      assert (a + b)[..|a + b| - 1] == a + b[..n];
      QualifyingAppend(a, b[..n], query, minScore);
    }
  }

  /** Which rows qualify does not depend on their order. */
  lemma {:induction false} QualifyingPermutes(a: seq<Row>, b: seq<Row>, query: QuantizedVector, minScore: real)
    requires multiset(a) == multiset(b)
    requires forall r :: r in a ==> |r.stored.values| == |query.values|
    requires forall r :: r in b ==> |r.stored.values| == |query.values|
    ensures multiset(Qualifying(a, query, minScore)) == multiset(Qualifying(b, query, minScore))
  {
    hide HitOf;
    if a == [] {
      assert |multiset(b)| == 0;
      assert b == [];
    } else {
      var n := |a| - 1;
      assert a == a[..n] + [a[n]];
      assert a[n] in multiset(b);
      var i :| 0 <= i < |b| && b[i] == a[n];
      var (front, back) := (b[..i], b[i + 1..]);
      SplitAt(b, i);
      CancelOne(multiset(a[..n]), multiset(front + back), a[n]);
      assert forall r :: r in front + back ==> r in b;
      QualifyingPermutes(a[..n], front + back, query, minScore);
      QualifyingAppend(front, [b[i]] + back, query, minScore);
      QualifyingAppend([b[i]], back, query, minScore);
      QualifyingAppend(front, back, query, minScore);
      QualifyingAppend(a[..n], [a[n]], query, minScore);
    }
  }

  lemma SplitAt(b: seq<Row>, i: nat)
    requires i < |b|
    ensures b == b[..i] + ([b[i]] + b[i + 1..])
    ensures multiset(b) == multiset(b[..i] + b[i + 1..]) + multiset{b[i]}
  {
    assert b == b[..i] + ([b[i]] + b[i + 1..]);
  }

  /** The same rows in any order give the same answer to every query. */
  lemma SameRowsSameAnswer(rows: seq<Row>, rows': seq<Row>, query: QuantizedVector, minScore: real, k: nat,
                           a: seq<ScanHit>, b: seq<ScanHit>)
    requires multiset(rows) == multiset(rows')
    requires forall r :: r in rows ==> |r.stored.values| == |query.values|
    requires forall r :: r in rows' ==> |r.stored.values| == |query.values|
    requires Best(a, Qualifying(rows, query, minScore), k) && Best(b, Qualifying(rows', query, minScore), k)
    ensures a == b
  {
    hide Best, Qualifying;
    QualifyingPermutes(rows, rows', query, minScore);
    BestUnique(a, b, Qualifying(rows, query, minScore), Qualifying(rows', query, minScore), k);
  }

  // ----- what an answer means for the vectors as they were given -----

  /** Indexed are the entries of the right dimension, each under its id, normalized and quantized. */
  lemma {:induction false} IndexedIn(sqrt: real -> real, dims: nat, entries: seq<Entry>, row: Row)
    ensures row in Indexed(sqrt, dims, entries)
       <==> exists e :: e in entries && |e.vector| == dims && row == Row(e.id, Quantized(Normalized(sqrt, e.vector)))
  {
    hide Quantized, Normalized;
    if entries != [] {
      assert entries == entries[..|entries| - 1] + [entries[|entries| - 1]];
      IndexedIn(sqrt, dims, entries[..|entries| - 1], row);
    }
  }

  /** A search whose vectors have lengths: `sqrt` is the square root where it is asked for one. */
  ghost predicate Measured(sqrt: real -> real, dims: nat, entries: seq<Entry>, query: Vector) {
    && |query| == dims <= 0x4000_0000 && IsRoot(sqrt, Dot(query, query))
    && forall e :: e in entries && |e.vector| == dims ==> IsRoot(sqrt, Dot(e.vector, e.vector))
  }

  /** What a search over an index built from these entries answers. */
  ghost predicate Answers(sqrt: real -> real, dims: nat, entries: seq<Entry>, query: Vector, k: nat, minScore: real,
                          result: seq<ScanHit>)
    requires |query| == dims
  {
    Best(result, Candidates(sqrt, Indexed(sqrt, dims, entries), query, minScore), k)
  }

  /** Every hit names an entry of the right dimension, and its score is the cosine of that entry and the query
      up to the tolerance. */
  lemma HitsTell(sqrt: real -> real, dims: nat, entries: seq<Entry>, query: Vector, k: nat, minScore: real,
                 result: seq<ScanHit>, hit: ScanHit)
    requires Measured(sqrt, dims, entries, query) && Answers(sqrt, dims, entries, query, k, minScore, result)
    requires hit in result
    ensures hit.score >= minScore
    ensures exists e :: e in entries && |e.vector| == dims && e.id == hit.id && Tells(sqrt, e.vector, query, hit.score)
  {
    hide Quantized, Normalized, IsRoot, Tells, Score, Before;
    var (rows, q) := (Indexed(sqrt, dims, entries), Quantized(Normalized(sqrt, query)));
    assert hit in multiset(result) && hit in Qualifying(rows, q, minScore);
    QualifyingIn(rows, q, minScore, hit);
    var r :| r in rows && HitOf(r, q) == hit && hit.score >= minScore;
    IndexedIn(sqrt, dims, entries, r);
    var e :| e in entries && |e.vector| == dims && r == Row(e.id, Quantized(Normalized(sqrt, e.vector)));
    ScoreTells(sqrt, e.vector, query);
  }

  /** Every entry of the right dimension is a candidate: it has a score that tells its cosine, and once that
      reaches the minimum the entry is returned, unless k hits are that all come before it. */
  lemma EntriesCompete(sqrt: real -> real, dims: nat, entries: seq<Entry>, query: Vector, k: nat, minScore: real,
                       result: seq<ScanHit>, e: Entry) returns (score: real)
    requires Measured(sqrt, dims, entries, query) && Answers(sqrt, dims, entries, query, k, minScore, result)
    requires e in entries && |e.vector| == dims
    ensures Tells(sqrt, e.vector, query, score)
    ensures score >= minScore
            ==> ScanHit(e.id, score) in result
                || (|result| == k && forall hit :: hit in result ==> Before(hit, ScanHit(e.id, score)))
  {
    hide Quantized, Normalized, IsRoot, Tells, Score, Before;
    var (rows, q) := (Indexed(sqrt, dims, entries), Quantized(Normalized(sqrt, query)));
    var row := Row(e.id, Quantized(Normalized(sqrt, e.vector)));
    IndexedIn(sqrt, dims, entries, row);
    score := Score(row.stored, q);
    ScoreTells(sqrt, e.vector, query);
    var (hits, own) := (Qualifying(rows, q, minScore), ScanHit(e.id, score));
    if score >= minScore && own !in result {
      QualifyingIn(rows, q, minScore, own);
      LeftOut(result, hits, k, own);
    }
  }

  lemma LeftOut(result: seq<ScanHit>, hits: seq<ScanHit>, k: nat, own: ScanHit)
    requires Best(result, hits, k) && own in hits && own !in result
    ensures |result| == k && forall hit :: hit in result ==> Before(hit, own)
  {
    hide Before;
    assert own in multiset(hits) - multiset(result);
    if |result| == |hits| {
      assert |multiset(result)| == |multiset(hits)|;
      SubsetOfSameSize(multiset(result), multiset(hits));
    }
  }

  /** An entry whose cosine lies above the minimum by more than the tolerance is found, unless the answer is
      full of scores that are at least as high, up to that tolerance. */
  lemma CloseEntriesFound(sqrt: real -> real, dims: nat, entries: seq<Entry>, query: Vector, k: nat, minScore: real,
                          result: seq<ScanHit>, e: Entry, cosine: real, tolerance: real)
    requires Measured(sqrt, dims, entries, query) && Answers(sqrt, dims, entries, query, k, minScore, result)
    requires e in entries && |e.vector| == dims && Norm(sqrt, e.vector) > EPSILON && Norm(sqrt, query) > EPSILON
    requires Times(Norm(sqrt, e.vector), Norm(sqrt, query)) != 0.0 && cosine == Cosine(sqrt, e.vector, query)
    requires tolerance == Tolerance(sqrt, e.vector, query) && cosine - tolerance >= minScore
    ensures (exists hit :: hit in result && hit.id == e.id && Near(cosine, hit.score, tolerance))
            || (|result| == k && forall hit :: hit in result ==> hit.score >= cosine - tolerance)
  {
    hide IsRoot, Norm, Cosine, Tolerance, Answers, Measured;
    var score := EntriesCompete(sqrt, dims, entries, query, k, minScore, result, e);
    assert Near(cosine, score, tolerance);
    if ScanHit(e.id, score) in result {
      assert ScanHit(e.id, score).id == e.id;
    }
  }

  /** The byte order of ids in one piece: one id ends where the other goes on, or has the smaller byte where
      they first differ. */
  ghost predicate Precedes(a: Id, b: Id) {
    exists n: nat :: n <= |a| && n < |b| && a[..n] == b[..n] && (n == |a| || a[n] < b[n])
  }

  lemma {:induction false} BelowPrecedes(a: Id, b: Id)
    requires IdBelow(a, b)
    ensures Precedes(a, b)
  {
    if a == [] || a[0] < b[0] {
      assert a[..0] == b[..0];
    } else {
      BelowPrecedes(a[1..], b[1..]);
      var n: nat :| n <= |a[1..]| && n < |b[1..]| && a[1..][..n] == b[1..][..n]
                    && (n == |a[1..]| || a[1..][n] < b[1..][n]);
      assert a[..n + 1] == [a[0]] + a[1..][..n] && b[..n + 1] == [b[0]] + b[1..][..n];
    }
  }

  /** Answers are ordered by score, the highest first, and equal scores by id. */
  lemma AnswerOrder(sqrt: real -> real, dims: nat, entries: seq<Entry>, query: Vector, k: nat, minScore: real,
                    result: seq<ScanHit>, i: nat, j: nat)
    requires |query| == dims && Answers(sqrt, dims, entries, query, k, minScore, result) && i < j < |result|
    ensures result[i].score >= result[j].score
    ensures result[i].score == result[j].score && result[i].id != result[j].id
            ==> Precedes(result[i].id, result[j].id)
  {
    hide Candidates, Indexed;
    assert Before(result[i], result[j]);
    if IdBelow(result[i].id, result[j].id) {
      BelowPrecedes(result[i].id, result[j].id);
    }
  }

  /** Every stored value is an int8 level, so up to 133144 dimensions no prefix of a row's dot product
      leaves 32 bits. */
  lemma {:induction false} IndexedLevels(sqrt: real -> real, dims: nat, entries: seq<Entry>)
    ensures forall r :: r in Indexed(sqrt, dims, entries) ==> Int8Levels(r.stored.values)
  {
    hide Normalized, MaxAbs, Quantized;
    if entries != [] {
      IndexedLevels(sqrt, dims, entries[..|entries| - 1]);
      var u := Normalized(sqrt, entries[|entries| - 1].vector);
      forall i | 0 <= i < |u| ensures -LEVELS <= Quantized(u).values[i] <= LEVELS {
        ComponentError(u, i);
      }
    }
  }

  lemma ScanFits(a: seq<int>, b: seq<int>, n: nat)
    requires |a| == |b| <= SAFE_DIMENSIONS && Int8Levels(a) && Int8Levels(b) && n <= |a|
    ensures InInt32(IntDot(a[..n], b[..n]))
  {
    AccumulatorFits(n);
    assert Int8Levels(a[..n]) && Int8Levels(b[..n]);
  }
}
