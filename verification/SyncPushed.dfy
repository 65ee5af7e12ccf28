/** Acknowledging a batch exactly as the server stored it. */
module SyncPushed {
  import opened Wrappers
  import opened Merge
  import opened SyncModel
  import opened SyncOutbox
  import opened SyncRuns
  import opened SyncPull
  import opened SyncGrowth
  import opened SyncSystem
  import Server = SyncServer

  /** The pending records in queue order. */
  function PendingWires(outbox: seq<Queued>): (wires: seq<Wire>)
    ensures forall w :: w in wires <==> exists q :: q in outbox && q.wire == w && q.stage == Pending
  {
    if outbox == [] then []
    else
      var last := outbox[|outbox| - 1];
      assert outbox == outbox[..|outbox| - 1] + [last];
      PendingWires(outbox[..|outbox| - 1]) + (if last.stage == Pending then [last.wire] else [])
  }

  lemma {:induction false} PendingDistinct(outbox: seq<Queued>)
    requires Ordered(outbox)
    ensures Server.DistinctIds(PendingWires(outbox))
  {
    if outbox != [] {
      var n := |outbox| - 1;
      PendingDistinct(outbox[..n]);
      var rest := PendingWires(outbox[..n]);
      forall i | 0 <= i < |rest| ensures rest[i].id != outbox[n].wire.id {
        assert rest[i] in rest;
        var q :| q in outbox[..n] && q.wire == rest[i] && q.stage == Pending;
        var j :| 0 <= j < n && outbox[j] == q;
      }
    }
  }

  /** Pending records come in queue order. */
  lemma {:induction false} PendingAscend(outbox: seq<Queued>, i: nat, j: nat)
    requires Ordered(outbox) && i < j < |PendingWires(outbox)|
    ensures var wires := PendingWires(outbox);
            wires[i].id != wires[j].id && (wires[i].key == wires[j].key ==> wires[i].version < wires[j].version)
  {
    var n := |outbox| - 1;
    var rest := PendingWires(outbox[..n]);
    if j < |rest| {
      PendingAscend(outbox[..n], i, j);
    } else {
      assert rest[i] in rest;
      var q :| q in outbox[..n] && q.wire == rest[i] && q.stage == Pending;
      var k :| 0 <= k < n && outbox[k] == q;
    }
  }

  /** The pending records of a batch, found by looking at the queue from the front. */
  lemma PendingAppend(outbox: seq<Queued>, i: nat)
    requires i < |outbox|
    ensures PendingWires(outbox[..i + 1])
            == PendingWires(outbox[..i]) + (if outbox[i].stage == Pending then [outbox[i].wire] else [])
  {
    assert outbox[..i + 1][..i] == outbox[..i];
  }

  lemma {:induction false} PendingPrefix(outbox: seq<Queued>, i: nat)
    requires i <= |outbox|
    ensures PendingWires(outbox[..i]) <= PendingWires(outbox)
    decreases |outbox| - i
  {
    if i == |outbox| {
      assert outbox[..i] == outbox;
    } else {
      PendingAppend(outbox, i);
      PendingPrefix(outbox, i + 1);
    }
  }

  lemma {:induction false} FindInBatch(batch: seq<Wire>, i: nat)
    requires Server.DistinctIds(batch) && i < |batch|
    ensures FindWire(batch, batch[i].id) == Some(batch[i])
  {
    if i < |batch| - 1 {
      var rest := batch[..|batch| - 1];
      assert forall a :: 0 <= a < |rest| ==> rest[a] == batch[a];
      FindInBatch(rest, i);
    }
  }

  /** The last record of an entity among the first j of a batch. */
  function LastOf(batch: seq<Wire>, j: nat, key: Key): (last: Option<nat>)
    requires j <= |batch|
    ensures last.Some? ==> last.value < j && batch[last.value].key == key
    ensures forall i :: 0 <= i < j && batch[i].key == key ==> last.Some? && i <= last.value
  {
    if j == 0 then None
    else if batch[j - 1].key == key then Some(j - 1)
    else LastOf(batch, j - 1, key)
  }

  function ShadowOf(w: Wire): Shadow {
    Shadow(w.version, BodyDoc(w.body))
  }

  /** The shadows after the first j acknowledgements. */
  function ShadowsAfter(shadows: map<Key, Shadow>, batch: seq<Wire>, j: nat): map<Key, Shadow>
    requires j <= |batch|
  {
    if j == 0 then shadows else ShadowsAfter(shadows, batch, j - 1)[batch[j - 1].key := ShadowOf(batch[j - 1])]
  }

  /** Each entity of the batch ends at its last record there; no other shadow moves. */
  lemma {:induction false} ShadowAfter(shadows: map<Key, Shadow>, batch: seq<Wire>, j: nat, k: Key)
    requires j <= |batch|
    ensures match LastOf(batch, j, k)
            case None => (k in ShadowsAfter(shadows, batch, j) <==> k in shadows)
                         && (k in shadows ==> ShadowsAfter(shadows, batch, j)[k] == shadows[k])
            case Some(l) => k in ShadowsAfter(shadows, batch, j)
                            && ShadowsAfter(shadows, batch, j)[k] == ShadowOf(batch[l])
  {
    if j > 0 {
      ShadowAfter(shadows, batch, j - 1, k);
    }
  }

  /** The outbox after the first j acknowledgements. */
  ghost predicate SettledTo(outbox: seq<Queued>, batch: seq<Wire>, j: nat, at: seq<Queued>)
    requires j <= |batch|
  {
    && Ordered(at)
    && (forall q :: q in at ==> Known(outbox, q))
    && (forall i :: j <= i < |batch| ==> IsPending(at, batch[i]))
    && (forall i, q :: 0 <= i < j && q in at && q.wire.id == batch[i].id ==> q.stage == Applied)
  }

  ghost predicate AckedTo(c: Client, batch: seq<Wire>, j: nat, at: Client)
    requires j <= |batch|
  {
    && at == c.(outbox := at.outbox, shadows := ShadowsAfter(c.shadows, batch, j))
    && SettledTo(c.outbox, batch, j, at.outbox)
  }

  ghost predicate IsPending(outbox: seq<Queued>, w: Wire) {
    exists q :: q in outbox && q.wire == w && q.stage == Pending
  }

  /** Settling one record of the batch. */
  lemma SettleOne(outbox: seq<Queued>, w: Wire, serverSeq: int)
    requires Ordered(outbox) && IsPending(outbox, w)
    ensures var r := MarkApplied(outbox, w.id, serverSeq);
            && r.Ok? && Ordered(r.value)
            && (forall q :: q in r.value ==> Known(outbox, q))
            && (forall x: Wire :: x.id != w.id && IsPending(outbox, x) ==> IsPending(r.value, x))
            && (forall q :: q in r.value && q.wire.id == w.id ==> q.stage == Applied)
            && (forall q :: q in r.value && q.wire.id != w.id ==> q in outbox)
  {
    hide Ordered, MaxVersion, Newest;
    var p :| p in outbox && p.wire == w && p.stage == Pending;
    OrderedApplied(outbox, w.id, serverSeq);
    var q := SettledRecord(outbox, w.id, serverSeq);
    SameSlot(outbox, p, q);
    var settled := MarkApplied(outbox, w.id, serverSeq).value;
    forall r | r in settled && r.wire.id == w.id ensures r.stage == Applied {
      if r in outbox && r != q {
        SameSlot(outbox, r, q);
      }
    }
    forall x: Wire | x.id != w.id && IsPending(outbox, x) ensures IsPending(settled, x) {
      var r :| r in outbox && r.wire == x && r.stage == Pending;
      assert r in settled;
    }
  }

  lemma SettleNext(outbox: seq<Queued>, batch: seq<Wire>, j: nat, at: seq<Queued>, serverSeq: int, next: seq<Queued>)
    requires Server.DistinctIds(batch) && j < |batch| && SettledTo(outbox, batch, j, at)
    requires MarkApplied(at, batch[j].id, serverSeq) == Ok(next)
    ensures SettledTo(outbox, batch, j + 1, next)
  {
    hide Ordered, MarkApplied;
    SettleOne(at, batch[j], serverSeq);
    forall q | q in next ensures Known(outbox, q) {
      var r :| r in at && Became(r, q);
      assert Known(outbox, r);
    }
    forall i, q | 0 <= i < j + 1 && q in next && q.wire.id == batch[i].id ensures q.stage == Applied {
      if i < j {
        assert batch[i].id != batch[j].id;
      }
    }
    forall i | j + 1 <= i < |batch| ensures IsPending(next, batch[i]) {
      assert batch[j].id != batch[i].id;
    }
  }

  lemma AckNext(c: Client, batch: seq<Wire>, j: nat, at: Client, serverSeq: int)
    requires Server.DistinctIds(batch) && j < |batch| && AckedTo(c, batch, j, at)
    requires batch[j].version <= I64_MAX
    ensures var r := AckOne(at, batch, PushResult(batch[j].id, serverSeq));
            r.Ok? && AckedTo(c, batch, j + 1, r.value)
  {
    hide Ordered, MarkApplied, FindWire, SettledTo, Server.DistinctIds;
    FindInBatch(batch, j);
    StillPending(c.outbox, batch, j, at.outbox);
    SettleOne(at.outbox, batch[j], serverSeq);
    SettleNext(c.outbox, batch, j, at.outbox, serverSeq, MarkApplied(at.outbox, batch[j].id, serverSeq).value);
  }

  lemma StillPending(outbox: seq<Queued>, batch: seq<Wire>, j: nat, at: seq<Queued>)
    requires j < |batch| && SettledTo(outbox, batch, j, at)
    ensures IsPending(at, batch[j]) && Ordered(at)
  {
  }

  lemma {:induction false} AckAll(c: Client, batch: seq<Wire>, results: seq<PushResult>, j: nat)
    requires Server.DistinctIds(batch) && |results| == |batch| && j <= |batch|
    requires forall i :: 0 <= i < |batch| ==> results[i].id == batch[i].id && batch[i].version <= I64_MAX
    requires AckedTo(c, batch, 0, c)
    ensures var r := Ack(c, batch, results[..j]);
            r.Ok? && AckedTo(c, batch, j, r.value)
  {
    hide AckedTo, AckOne;
    if j > 0 {
      assert results[..j][..j - 1] == results[..j - 1];
      AckAll(c, batch, results, j - 1);
      var before := Ack(c, batch, results[..j - 1]).value;
      assert results[j - 1] == PushResult(batch[j - 1].id, results[j - 1].serverSeq);
      AckNext(c, batch, j - 1, before, results[j - 1].serverSeq);
    }
  }

  lemma {:induction false} MarkHeadsKnown(outbox: seq<Queued>, heads: seq<Key>)
    ensures forall q :: q in MarkHeads(outbox, heads) ==> Known(outbox, q)
  {
    if heads == [] {
      assert forall q :: q in outbox ==> Known(outbox, q);
    } else {
      var before := MarkHeads(outbox, heads[..|heads| - 1]);
      MarkHeadsKnown(outbox, heads[..|heads| - 1]);
      forall q | q in MarkHeads(outbox, heads) ensures Known(outbox, q) {
        var i :| 0 <= i < |before| && MarkHeads(outbox, heads)[i] == q;
        assert before[i] in before && before[i].wire == q.wire;
        var r :| r in outbox && Became(r, before[i]);
      }
    }
  }

  lemma AckStart(c: Client, batch: seq<Wire>)
    requires Ordered(c.outbox) && batch <= PendingWires(c.outbox)
    ensures AckedTo(c, batch, 0, c) && Server.DistinctIds(batch)
  {
    hide PendingWires;
    PendingDistinct(c.outbox);
    assert forall i :: 0 <= i < |batch| ==> batch[i] == PendingWires(c.outbox)[i];
    forall i | 0 <= i < |batch| ensures IsPending(c.outbox, batch[i]) {
      assert batch[i] in PendingWires(c.outbox);
    }
    assert forall q :: q in c.outbox ==> Known(c.outbox, q);
  }

  /** Acknowledgements only turn pending records into accepted ones. */
  lemma {:induction false} AckOnlySettles(c: Client, batch: seq<Wire>, results: seq<PushResult>, next: Client)
    requires Ordered(c.outbox) && Ack(c, batch, results) == Ok(next)
    ensures Ordered(next.outbox)
    ensures forall q :: q in next.outbox
                        ==> q in c.outbox || (q.stage == Applied && exists r :: r in c.outbox && r.wire == q.wire)
  {
    hide Ordered, MarkApplied, FindWire;
    if results != [] {
      var result := results[|results| - 1];
      var before := Ack(c, batch, results[..|results| - 1]).value;
      AckOnlySettles(c, batch, results[..|results| - 1], before);
      OrderedApplied(before.outbox, result.id, result.serverSeq);
      var q := SettledRecord(before.outbox, result.id, result.serverSeq);
    }
  }

  /** What no result names stays in the queue as it is. */
  lemma {:induction false} AckLeaves(c: Client, batch: seq<Wire>, results: seq<PushResult>, next: Client, q: Queued)
    requires Ordered(c.outbox) && Ack(c, batch, results) == Ok(next)
    requires q in c.outbox && forall r :: r in results ==> r.id != q.wire.id
    ensures q in next.outbox
  {
    hide Ordered, MarkApplied, FindWire;
    if results != [] {
      var result := results[|results| - 1];
      var front := results[..|results| - 1];
      var before := Ack(c, batch, front).value;
      assert forall r :: r in front ==> r in results;
      AckLeaves(c, batch, front, before, q);
      AckOnlySettles(c, batch, front, before);
      assert result in results;
      var settled := SettledRecord(before.outbox, result.id, result.serverSeq);
    }
  }

  /** Parking entities changes stages only, and none to or from accepted. */
  lemma {:induction false} MarkHeadsAlike(outbox: seq<Queued>, heads: seq<Key>)
    ensures |MarkHeads(outbox, heads)| == |outbox|
    ensures forall i :: 0 <= i < |outbox|
                        ==> var q := MarkHeads(outbox, heads)[i];
                            q.wire == outbox[i].wire && (q.stage == Applied <==> outbox[i].stage == Applied)
  {
    if heads != [] {
      MarkHeadsAlike(outbox, heads[..|heads| - 1]);
    }
  }
}
