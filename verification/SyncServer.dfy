/** The record log of the sync server (apps/sync-server/internal/store/record_push.go): a batch is
    stored whole when every new record is its entity's head plus one, and refused whole otherwise. */
module SyncServer {
  import opened Wrappers
  import opened Merge
  import opened SyncModel

  /** The highest stored version of an entity, 0 when there is none. */
  function HeadVersion(log: seq<Wire>, key: Key): (v: nat)
    ensures forall w :: w in log && w.key == key ==> w.version <= v
    ensures v == 0 || exists w :: w in log && w.key == key && w.version == v
  {
    if log == [] then 0
    else
      var last := log[|log| - 1];
      var rest := HeadVersion(log[..|log| - 1], key);
      if last.key == key && rest <= last.version then last.version else rest
  }

  predicate Stored(log: seq<Wire>, id: string) {
    exists w :: w in log && w.id == id
  }

  /** First pass over one record: the simulated head of every entity met so far and the entities in conflict. */
  function Meet(log: seq<Wire>, before: (map<Key, nat>, seq<Key>), w: Wire): (map<Key, nat>, seq<Key>) {
    if Stored(log, w.id) then before
    else
      var heads := if w.key in before.0 then before.0 else before.0[w.key := HeadVersion(log, w.key)];
      if w.version != heads[w.key] + 1 then (heads, if w.key in before.1 then before.1 else before.1 + [w.key])
      else (heads[w.key := heads[w.key] + 1], before.1)
  }

  /** First pass over the batch. */
  function Simulate(log: seq<Wire>, batch: seq<Wire>): (map<Key, nat>, seq<Key>) {
    if batch == [] then (map[], [])
    else Meet(log, Simulate(log, batch[..|batch| - 1]), batch[|batch| - 1])
  }

  /** The new records of a batch, in order. */
  function NewRecords(log: seq<Wire>, batch: seq<Wire>): (added: seq<Wire>)
    ensures forall w :: w in added <==> w in batch && !Stored(log, w.id)
  {
    if batch == [] then []
    else
      var w := batch[|batch| - 1];
      var rest := NewRecords(log, batch[..|batch| - 1]);
      assert batch == batch[..|batch| - 1] + [w];
      if Stored(log, w.id) then rest else rest + [w]
  }

  /** The sequence number a stored record was given: its position, counted from one. */
  function SeqOf(log: seq<Wire>, id: string): (n: nat)
    ensures Stored(log, id) ==> 0 < n <= |log| && log[n - 1].id == id
  {
    if log == [] then 0
    else if log[|log| - 1].id == id then |log|
    else SeqOf(log[..|log| - 1], id)
  }

  function Results(log: seq<Wire>, batch: seq<Wire>): (results: seq<PushResult>)
    ensures |results| == |batch|
    ensures forall i :: 0 <= i < |batch| ==> results[i] == PushResult(batch[i].id, SeqOf(log, batch[i].id))
  {
    seq(|batch|, i requires 0 <= i < |batch| => PushResult(batch[i].id, SeqOf(log, batch[i].id)))
  }

  datatype Answer = Accepted(results: seq<PushResult>) | VersionConflict(heads: seq<Key>)

  /** The whole push: nothing is stored on a conflict, all new records on success. */
  function Push(log: seq<Wire>, batch: seq<Wire>): (seq<Wire>, Answer) {
    var conflicts := Simulate(log, batch).1;
    if conflicts != [] then (log, VersionConflict(conflicts))
    else
      var stored := log + NewRecords(log, batch);
      (stored, Accepted(Results(stored, batch)))
  }

  // ----- the log -----

  ghost predicate DistinctIds(batch: seq<Wire>) {
    forall i, j :: 0 <= i < j < |batch| ==> batch[i].id != batch[j].id
  }

  /** This record is its entity's head plus one at the time it is stored. */
  ghost predicate Continues(log: seq<Wire>, i: nat)
    requires i < |log|
  {
    log[i].version == HeadVersion(log[..i], log[i].key) + 1
  }

  /** Every stored record continues its entity's versions without a gap, under a fresh id. */
  ghost predicate Contiguous(log: seq<Wire>) {
    (forall i :: 0 <= i < |log| ==> Continues(log, i)) && DistinctIds(log)
  }

  lemma {:induction false} HeadOfConcat(log: seq<Wire>, more: seq<Wire>, key: Key)
    requires forall w :: w in more ==> w.key != key
    ensures HeadVersion(log + more, key) == HeadVersion(log, key)
  {
    if more == [] {
      assert log + more == log;
    } else {
      var n := |more| - 1;
      HeadOfConcat(log, more[..n], key);
      assert (log + more)[..|log| + n] == log + more[..n];
    }
  }

  lemma HeadOfAppend(log: seq<Wire>, w: Wire, key: Key)
    ensures HeadVersion(log + [w], key)
         == if w.key == key && HeadVersion(log, key) <= w.version then w.version else HeadVersion(log, key)
  {
    assert (log + [w])[..|log|] == log;
  }

  /** The simulated heads are the heads of this log, and there is one for every new record. */
  ghost predicate HeadsOf(heads: map<Key, nat>, stored: seq<Wire>, added: seq<Wire>) {
    && (forall k :: k in heads ==> heads[k] == HeadVersion(stored, k))
    && (forall w :: w in added ==> w.key in heads)
  }

  lemma HeadAfter(heads: map<Key, nat>, log: seq<Wire>, w: Wire, added: seq<Wire>)
    requires HeadsOf(heads, log, added) && w.version == HeadVersion(log, w.key) + 1
    ensures HeadsOf(heads[w.key := w.version], log + [w], added + [w])
  {
    hide HeadVersion;
    forall k | k in heads || k == w.key ensures heads[w.key := w.version][k] == HeadVersion(log + [w], k) {
      HeadOfAppend(log, w, k);
    }
  }

  lemma MeetNew(log: seq<Wire>, before: (map<Key, nat>, seq<Key>), w: Wire)
    requires !Stored(log, w.id) && Meet(log, before, w).1 == []
    ensures w.version == (if w.key in before.0 then before.0[w.key] else HeadVersion(log, w.key)) + 1
    ensures Meet(log, before, w).0 == before.0[w.key := w.version]
  {
    hide HeadVersion, Stored;
  }

  /** One more new record without a conflict. */
  lemma MeetIsExact(log: seq<Wire>, front: seq<Wire>, before: (map<Key, nat>, seq<Key>), w: Wire)
    requires !Stored(log, w.id) && DistinctIds(front + [w]) && Meet(log, before, w).1 == []
    requires var added := NewRecords(log, front);
             Contiguous(log + added) && HeadsOf(before.0, log + added, added)
    ensures var added := NewRecords(log, front) + [w];
            Contiguous(log + added) && HeadsOf(Meet(log, before, w).0, log + added, added)
  {
    hide HeadVersion, Stored, Contiguous, NewRecords, DistinctIds, Meet;
    var added := NewRecords(log, front);
    MeetNew(log, before, w);
    if w.key !in before.0 {
      HeadOfConcat(log, added, w.key);
    }
    NewId(log, front, w);
    ExtendContiguous(log + added, w);
    HeadAfter(before.0, log + added, w, added);
    assert log + (added + [w]) == log + added + [w];
  }

  lemma MeetStored(log: seq<Wire>, before: (map<Key, nat>, seq<Key>), w: Wire)
    ensures Stored(log, w.id) ==> Meet(log, before, w) == before
    ensures Meet(log, before, w).1 == [] ==> before.1 == []
  {
    hide HeadVersion, Stored;
  }

  lemma FrontDistinct(front: seq<Wire>, w: Wire)
    requires DistinctIds(front + [w])
    ensures DistinctIds(front)
  {
    assert forall i :: 0 <= i < |front| ==> (front + [w])[i] == front[i];
  }

  /** Without conflicts the simulated heads are the heads of the extended log, and extending keeps
      every entity's versions contiguous. */
  lemma {:induction false} SimulationIsExact(log: seq<Wire>, batch: seq<Wire>)
    requires Contiguous(log) && Simulate(log, batch).1 == [] && DistinctIds(batch)
    ensures var added := NewRecords(log, batch);
            Contiguous(log + added) && HeadsOf(Simulate(log, batch).0, log + added, added)
  {
    if batch == [] {
      assert log + NewRecords(log, batch) == log;
    } else {
      hide HeadVersion, Stored, Contiguous, HeadsOf, Meet, DistinctIds, Simulate, NewRecords;
      var (front, w) := (batch[..|batch| - 1], batch[|batch| - 1]);
      BothPasses(log, front, w);
      assert batch == front + [w];
      MeetStored(log, Simulate(log, front), w);
      FrontDistinct(front, w);
      SimulationIsExact(log, front);
      if !Stored(log, w.id) {
        MeetIsExact(log, front, Simulate(log, front), w);
      }
    }
  }

  /** One more record, in either pass. */
  lemma BothPasses(log: seq<Wire>, front: seq<Wire>, w: Wire)
    ensures Simulate(log, front + [w]) == Meet(log, Simulate(log, front), w)
    ensures NewRecords(log, front + [w]) == if Stored(log, w.id) then NewRecords(log, front)
            else NewRecords(log, front) + [w]
  {
    hide HeadVersion, Stored, Meet;
    assert (front + [w])[..|front|] == front;
  }

  lemma NewId(log: seq<Wire>, front: seq<Wire>, w: Wire)
    requires DistinctIds(front + [w]) && !Stored(log, w.id)
    ensures !Stored(log + NewRecords(log, front), w.id)
  {
    var before := log + NewRecords(log, front);
    forall x | x in before ensures x.id != w.id {
      if x !in log {
        assert x in NewRecords(log, front);
        var i :| 0 <= i < |front| && front[i] == x;
        assert (front + [w])[i].id != (front + [w])[|front|].id;
      }
    }
  }

  lemma SameContinues(before: seq<Wire>, w: Wire, i: nat)
    requires i < |before|
    ensures Continues(before + [w], i) <==> Continues(before, i)
  {
    hide HeadVersion;
    assert (before + [w])[..i] == before[..i];
  }

  lemma LastContinues(before: seq<Wire>, w: Wire)
    ensures Continues(before + [w], |before|) <==> w.version == HeadVersion(before, w.key) + 1
  {
    hide HeadVersion;
    assert (before + [w])[..|before|] == before;
  }

  lemma ExtendContiguous(before: seq<Wire>, w: Wire)
    requires Contiguous(before) && w.version == HeadVersion(before, w.key) + 1 && !Stored(before, w.id)
    ensures Contiguous(before + [w])
  {
    hide HeadVersion, Continues;
    var stored := before + [w];
    LastContinues(before, w);
    forall i | 0 <= i < |stored| ensures Continues(stored, i) {
      if i < |before| {
        SameContinues(before, w, i);
      }
    }
    forall i, j | 0 <= i < j < |stored| ensures stored[i].id != stored[j].id {
      assert stored[i] == before[i] && before[i] in before;
    }
  }

  /** A stored batch keeps the log contiguous; a refused one leaves it alone and names at least one
      entity, each of them from the batch. */
  lemma PushKeepsLog(log: seq<Wire>, batch: seq<Wire>)
    requires Contiguous(log)
    requires DistinctIds(batch)
    ensures var (stored, answer) := Push(log, batch);
            && Contiguous(stored) && log <= stored
            && (answer.VersionConflict? ==> stored == log && answer.heads != []
                                            && forall k :: k in answer.heads ==> exists w :: w in batch && w.key == k)
            && (answer.Accepted? ==> forall w :: w in batch ==> Stored(stored, w.id))
  {
    var (stored, answer) := Push(log, batch);
    if answer.VersionConflict? {
      ConflictsFromBatch(log, batch);
    } else {
      SimulationIsExact(log, batch);
      forall w | w in batch ensures Stored(stored, w.id) {
        if !Stored(log, w.id) {
          assert w in stored;
        } else {
          var x :| x in log && x.id == w.id;
          assert x in stored;
        }
      }
    }
  }

  lemma {:induction false} ConflictsFromBatch(log: seq<Wire>, batch: seq<Wire>)
    ensures forall k :: k in Simulate(log, batch).1 ==> exists w :: w in batch && w.key == k && !Stored(log, w.id)
  {
    hide HeadVersion, Stored;
    if batch != [] {
      ConflictsFromBatch(log, batch[..|batch| - 1]);
      assert forall w :: w in batch[..|batch| - 1] ==> w in batch;
      assert batch[|batch| - 1] in batch;
    }
  }

  lemma PrefixContiguous(log: seq<Wire>, w: Wire)
    requires Contiguous(log + [w])
    ensures Contiguous(log) && w.version == HeadVersion(log, w.key) + 1
  {
    hide HeadVersion;
    LastContinues(log, w);
    assert forall i :: 0 <= i < |log| ==> (log + [w])[i] == log[i];
    forall i | 0 <= i < |log| ensures Continues(log, i) {
      SameContinues(log, w, i);
    }
  }

  lemma FitsBehind(log: seq<Wire>, added: seq<Wire>, w: Wire)
    requires Contiguous(log + (added + [w]))
    ensures Contiguous(log + added) && w.version == HeadVersion(log + added, w.key) + 1
  {
    hide HeadVersion, Contiguous;
    assert log + (added + [w]) == log + added + [w];
    PrefixContiguous(log + added, w);
  }

  /** A batch that continues every entity's versions meets no conflict. */
  lemma {:induction false} FittingIsMet(log: seq<Wire>, batch: seq<Wire>)
    requires DistinctIds(batch) && Contiguous(log) && Contiguous(log + NewRecords(log, batch))
    ensures Simulate(log, batch).1 == []
  {
    if batch != [] {
      hide HeadVersion, Stored, Contiguous, HeadsOf, DistinctIds, Simulate, NewRecords, Meet;
      var (front, w) := (batch[..|batch| - 1], batch[|batch| - 1]);
      BothPasses(log, front, w);
      assert batch == front + [w];
      FrontDistinct(front, w);
      var added := NewRecords(log, front);
      if Stored(log, w.id) {
        FittingIsMet(log, front);
        MeetStored(log, Simulate(log, front), w);
      } else {
        FitsBehind(log, added, w);
        FittingIsMet(log, front);
        SimulationIsExact(log, front);
        MeetFitting(log, Simulate(log, front), w, added);
      }
    }
  }

  lemma MeetFitting(log: seq<Wire>, before: (map<Key, nat>, seq<Key>), w: Wire, added: seq<Wire>)
    requires HeadsOf(before.0, log + added, added) && before.1 == []
    requires !Stored(log, w.id) && w.version == HeadVersion(log + added, w.key) + 1
    ensures Meet(log, before, w).1 == []
  {
    hide HeadVersion, Stored;
    if w.key !in before.0 {
      HeadOfConcat(log, added, w.key);
    }
  }

  /** A batch is stored exactly when the log stays contiguous with its new records at the end: neither a batch
      that fits is refused nor one stored that leaves a gap, goes back, or overtakes another device's record. */
  lemma AcceptedExactly(log: seq<Wire>, batch: seq<Wire>)
    requires Contiguous(log) && DistinctIds(batch)
    ensures Push(log, batch).1.Accepted? <==> Contiguous(log + NewRecords(log, batch))
    ensures Push(log, batch).1.Accepted? ==> Push(log, batch).0 == log + NewRecords(log, batch)
  {
    hide HeadVersion, Contiguous, Simulate, NewRecords, DistinctIds, Results;
    if Push(log, batch).1.Accepted? {
      SimulationIsExact(log, batch);
    }
    if Contiguous(log + NewRecords(log, batch)) {
      FittingIsMet(log, batch);
    }
  }

  // ----- which entities a refusal names -----

  /** The records of one entity. */
  function Of(batch: seq<Wire>, key: Key): seq<Wire> {
    if batch == [] then []
    else Of(batch[..|batch| - 1], key) + if batch[|batch| - 1].key == key then [batch[|batch| - 1]] else []
  }

  lemma {:induction false} OfMembers(batch: seq<Wire>, key: Key)
    ensures forall w :: w in Of(batch, key) ==> w in batch
  {
    if batch != [] {
      OfMembers(batch[..|batch| - 1], key);
      assert batch == batch[..|batch| - 1] + [batch[|batch| - 1]];
    }
  }

  lemma {:induction false} OfDistinct(batch: seq<Wire>, key: Key)
    requires DistinctIds(batch)
    ensures DistinctIds(Of(batch, key))
  {
    if batch != [] {
      var (front, w) := (batch[..|batch| - 1], batch[|batch| - 1]);
      assert batch == front + [w];
      FrontDistinct(front, w);
      OfDistinct(front, key);
      OfMembers(front, key);
      var rest := Of(front, key);
      forall i | 0 <= i < |rest| ensures rest[i].id != w.id {
        assert rest[i] in front;
        var j :| 0 <= j < |front| && front[j] == rest[i];
        assert batch[j] == front[j];
      }
    }
  }

  /** What the first pass finds out about one entity depends on that entity's records alone. */
  lemma {:induction false} EntitiesApart(log: seq<Wire>, batch: seq<Wire>, key: Key)
    ensures var (all, own) := (Simulate(log, batch), Simulate(log, Of(batch, key)));
            && (key in all.0 <==> key in own.0) && (key in all.0 ==> all.0[key] == own.0[key])
            && (key in all.1 <==> key in own.1)
            && forall k :: k in own.1 ==> k == key
  {
    if batch != [] {
      hide HeadVersion, Stored, Simulate, Of, Meet;
      var (front, w) := (batch[..|batch| - 1], batch[|batch| - 1]);
      assert batch == front + [w];
      EntitiesApart(log, front, key);
      BothPasses(log, front, w);
      OfSnoc(front, w, key);
      BothPasses(log, Of(front, key), w);
      MeetApart(log, Simulate(log, front), Simulate(log, Of(front, key)), w, key);
    } else {
      hide HeadVersion, Stored, Meet;
    }
  }

  lemma OfSnoc(front: seq<Wire>, w: Wire, key: Key)
    ensures Of(front + [w], key) == if w.key == key then Of(front, key) + [w] else Of(front, key)
  {
    assert (front + [w])[..|front|] == front && Of(front, key) + [] == Of(front, key);
  }

  lemma MeetApart(log: seq<Wire>, all: (map<Key, nat>, seq<Key>), own: (map<Key, nat>, seq<Key>), w: Wire, key: Key)
    requires (key in all.0 <==> key in own.0) && (key in all.0 ==> all.0[key] == own.0[key])
    requires key in all.1 <==> key in own.1
    ensures var (all', own') := (Meet(log, all, w), if w.key == key then Meet(log, own, w) else own);
            && (key in all'.0 <==> key in own'.0) && (key in all'.0 ==> all'.0[key] == own'.0[key])
            && (key in all'.1 <==> key in own'.1)
            && ((forall k :: k in own.1 ==> k == key) ==> forall k :: k in own'.1 ==> k == key)
  {
    hide HeadVersion, Stored;
  }

  /** A refusal names exactly the entities whose own new records do not continue the log. */
  lemma RefusalNames(log: seq<Wire>, batch: seq<Wire>, heads: seq<Key>, key: Key)
    requires Contiguous(log) && DistinctIds(batch) && Push(log, batch).1 == VersionConflict(heads)
    ensures key in heads <==> !Contiguous(log + NewRecords(log, Of(batch, key)))
  {
    hide HeadVersion, Contiguous, Simulate, NewRecords, DistinctIds, Results;
    EntitiesApart(log, batch, key);
    OfDistinct(batch, key);
    AcceptedExactly(log, Of(batch, key));
    var named := Simulate(log, Of(batch, key)).1;
    assert named != [] ==> named[0] in named;
  }

  /** Sending an accepted batch again, whatever was stored after it, stores nothing and reports the same
      sequence numbers. */
  lemma RepushIsIdempotent(log: seq<Wire>, batch: seq<Wire>, more: seq<Wire>)
    requires Push(log, batch).1.Accepted? && Contiguous(Push(log, batch).0 + more)
    ensures Push(Push(log, batch).0 + more, batch) == (Push(log, batch).0 + more, Push(log, batch).1)
  {
    hide HeadVersion, SeqOf, Contiguous, NewRecords, Simulate;
    var first := Push(log, batch).0;
    var stored := first + more;
    forall w | w in batch ensures Stored(first, w.id) {
      if Stored(log, w.id) {
        var x :| x in log && x.id == w.id;
        assert x in first;
      } else {
        assert w in first;
      }
    }
    forall w | w in batch ensures Stored(stored, w.id) && SeqOf(stored, w.id) == SeqOf(first, w.id) {
      var x :| x in first && x.id == w.id;
      assert x in stored;
      SameSeq(first, more, w.id);
    }
    AllStored(stored, batch);
    assert stored + [] == stored;
    assert Results(stored, batch) == Results(first, batch);
  }

  /** Ids are unique, so a record keeps its number as the log grows. */
  lemma SameSeq(log: seq<Wire>, more: seq<Wire>, id: string)
    requires Contiguous(log + more) && Stored(log, id)
    ensures SeqOf(log + more, id) == SeqOf(log, id)
  {
    hide HeadVersion;
    var x :| x in log && x.id == id;
    assert x in log + more;
    var (i, j) := (SeqOf(log, id) - 1, SeqOf(log + more, id) - 1);
    assert (log + more)[i] == log[i];
  }

  lemma {:induction false} AllStored(log: seq<Wire>, batch: seq<Wire>)
    requires forall w :: w in batch ==> Stored(log, w.id)
    ensures NewRecords(log, batch) == [] && Simulate(log, batch).1 == []
  {
    hide HeadVersion, Stored;
    if batch != [] {
      assert forall w :: w in batch[..|batch| - 1] ==> w in batch;
      AllStored(log, batch[..|batch| - 1]);
    }
  }

  /** Within an entity's history later records carry higher versions. */
  lemma VersionsAscend(log: seq<Wire>, i: nat, j: nat)
    requires Contiguous(log) && i < j < |log| && log[i].key == log[j].key
    ensures log[i].version < log[j].version
  {
    assert Continues(log, j) && log[i] in log[..j];
  }

  /** So a version names one record of that history. */
  lemma SameVersion(log: seq<Wire>, i: nat, j: nat)
    requires Contiguous(log) && i < |log| && j < |log|
    requires log[i].key == log[j].key && log[i].version == log[j].version
    ensures i == j
  {
    if i < j {
      VersionsAscend(log, i, j);
    } else if j < i {
      VersionsAscend(log, j, i);
    }
  }
}
