/** How each outbox operation moves the newest queued record of an entity. */
module SyncOutbox {
  import opened Wrappers
  import opened Merge
  import opened SyncModel

  /** The wire form of the newest record, which stage changes leave alone. */
  function NewestWire(outbox: seq<Queued>, key: Key, stages: set<Stage>): Option<Wire> {
    match Newest(outbox, key, stages)
    case Some(q) => Some(q.wire)
    case None => None
  }

  /** In an ordered outbox a maximal record is the newest one. */
  lemma NewestIs(outbox: seq<Queued>, key: Key, stages: set<Stage>, q: Queued)
    requires Ordered(outbox) && q in outbox && q.wire.key == key && q.stage in stages
    requires forall r :: r in outbox && r.wire.key == key && r.stage in stages ==> r.wire.version <= q.wire.version
    ensures Newest(outbox, key, stages) == Some(q)
  {
    var n := Newest(outbox, key, stages).value;
    var i :| 0 <= i < |outbox| && outbox[i] == q;
    var j :| 0 <= j < |outbox| && outbox[j] == n;
  }

  /** Within one entity the version names the record. */
  lemma SameSlot(outbox: seq<Queued>, q: Queued, r: Queued)
    requires Ordered(outbox) && q in outbox && r in outbox
    requires (q.wire.key == r.wire.key && q.wire.version == r.wire.version) || q.wire.id == r.wire.id
    ensures q == r
  {
    var i :| 0 <= i < |outbox| && outbox[i] == q;
    var j :| 0 <= j < |outbox| && outbox[j] == r;
  }

  // ----- enqueue -----

  lemma OrderedAppend(outbox: seq<Queued>, q: Queued)
    requires Ordered(outbox)
    requires MaxVersion(outbox, q.wire.key) < q.wire.version
    requires forall r :: r in outbox ==> r.wire.id != q.wire.id
    ensures Ordered(outbox + [q])
  {
  }

  lemma NewestAppend(outbox: seq<Queued>, q: Queued, key: Key, stages: set<Stage>)
    requires q.wire.key == key && q.stage in stages ==> MaxVersion(outbox, key) <= q.wire.version
    ensures Newest(outbox + [q], key, stages)
         == if q.wire.key == key && q.stage in stages then Some(q) else Newest(outbox, key, stages)
  {
    assert (outbox + [q])[..|outbox|] == outbox;
    var rest := Newest(outbox, key, stages);
    if rest.Some? {
      assert rest.value in outbox && rest.value.wire.key == key;
    }
  }

  // ----- conflict marking -----

  lemma OrderedMark(outbox: seq<Queued>, key: Key)
    requires Ordered(outbox)
    ensures Ordered(MarkConflicted(outbox, key))
  {
    var marked := MarkConflicted(outbox, key);
    forall i, j | 0 <= i < j < |marked|
      ensures marked[i].wire.id != marked[j].wire.id
           && (marked[i].wire.key == marked[j].wire.key ==> marked[i].wire.version < marked[j].wire.version)
    {
      assert marked[i].wire == outbox[i].wire && marked[j].wire == outbox[j].wire;
    }
  }

  /** Parking an entity as conflicted changes no entity's newest unsent document. */
  lemma {:induction false} NewestMark(outbox: seq<Queued>, marked: Key, key: Key)
    ensures NewestWire(MarkConflicted(outbox, marked), key, QUEUED) == NewestWire(outbox, key, QUEUED)
  {
    if outbox != [] {
      var n := |outbox| - 1;
      NewestMark(outbox[..n], marked, key);
      assert MarkConflicted(outbox, marked)[..n] == MarkConflicted(outbox[..n], marked);
    }
  }

  // ----- clearing a resolved conflict -----

  lemma {:induction false} OrderedClear(outbox: seq<Queued>, key: Key)
    requires Ordered(outbox)
    ensures Ordered(ClearConflicts(outbox, key))
  {
    if outbox != [] {
      var n := |outbox| - 1;
      OrderedClear(outbox[..n], key);
      var rest := ClearConflicts(outbox[..n], key);
      forall i | 0 <= i < |rest|
        ensures rest[i].wire.id != outbox[n].wire.id
             && (rest[i].wire.key == outbox[n].wire.key ==> rest[i].wire.version < outbox[n].wire.version)
      {
        assert rest[i] in outbox[..n];
        var j :| 0 <= j < n && outbox[j] == rest[i];
      }
    }
  }

  /** After clearing, only pending records of the entity can still be unsent. */
  lemma {:induction false} NewestClear(outbox: seq<Queued>, cleared: Key, key: Key, stages: set<Stage>)
    ensures Newest(ClearConflicts(outbox, cleared), key, stages)
         == Newest(outbox, key, if key == cleared then stages - {Conflicted} else stages)
  {
    if outbox != [] {
      var n := |outbox| - 1;
      var rest := ClearConflicts(outbox[..n], cleared);
      NewestClear(outbox[..n], cleared, key, stages);
      assert (rest + [outbox[n]])[..|rest|] == rest;
    }
  }

  /** Nothing is left of the cleared entity's conflicts, so its version bound is its settled one. */
  lemma ClearDropsConflicts(outbox: seq<Queued>, key: Key)
    ensures !Holds(ClearConflicts(outbox, key), key, Conflicted)
    ensures !Holds(outbox, key, Pending) ==> Newest(ClearConflicts(outbox, key), key, QUEUED).None?
  {
  }

  // ----- settling an accepted record -----

  lemma OrderedApplied(outbox: seq<Queued>, id: string, serverSeq: int)
    requires Ordered(outbox) && MarkApplied(outbox, id, serverSeq).Ok?
    ensures Ordered(MarkApplied(outbox, id, serverSeq).value)
  {
    var settled := MarkApplied(outbox, id, serverSeq).value;
    forall i, j | 0 <= i < j < |settled|
      ensures settled[i].wire.id != settled[j].wire.id
           && (settled[i].wire.key == settled[j].wire.key ==> settled[i].wire.version < settled[j].wire.version)
    {
      assert settled[i].wire == outbox[i].wire && settled[j].wire == outbox[j].wire;
    }
  }

  /** The pending record an acknowledgement settles. */
  lemma SettledRecord(outbox: seq<Queued>, id: string, serverSeq: int) returns (q: Queued)
    requires Ordered(outbox) && MarkApplied(outbox, id, serverSeq).Ok?
    ensures q in outbox && q.wire.id == id && q.stage == Pending
    ensures forall r :: r in MarkApplied(outbox, id, serverSeq).value
                        <==> r == q.(stage := Applied, serverSeq := Some(serverSeq)) || (r in outbox && r != q)
  {
    q :| q in outbox && q.wire.id == id && q.stage == Pending;
    var settled := MarkApplied(outbox, id, serverSeq).value;
    forall r | r in outbox && r != q ensures r.wire.id != id && r in settled {
      if r.wire.id == id {
        SameSlot(outbox, q, r);
      }
      var i :| 0 <= i < |outbox| && outbox[i] == r;
      assert settled[i] == r;
    }
    var i :| 0 <= i < |outbox| && outbox[i] == q;
    assert settled[i] == q.(stage := Applied, serverSeq := Some(serverSeq));
    forall r | r in settled ensures r == q.(stage := Applied, serverSeq := Some(serverSeq)) || (r in outbox && r != q) {
      var j :| 0 <= j < |settled| && settled[j] == r;
      if outbox[j].wire.id == id {
        SameSlot(outbox, q, outbox[j]);
      }
    }
  }
}
