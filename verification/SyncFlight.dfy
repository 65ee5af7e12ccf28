/** What a device can rely on about the records it has sent, with answers late or lost. */
module SyncFlight {
  import opened Wrappers
  import opened Merge
  import opened SyncModel
  import opened SyncOutbox
  import opened SyncRuns
  import opened SyncPull
  import opened SyncGrowth
  import opened SyncSystem
  import opened SyncPushed
  import Server = SyncServer

  /** A batch the server has answered, and the answer that is on its way back. */
  datatype Flight = Flight(batch: seq<Wire>, answer: Server.Answer)

  ghost predicate Unsent(outbox: seq<Queued>, w: Wire) {
    exists q :: q in outbox && q.wire == w && q.stage != Applied
  }

  /** What this device stored has reached its shadows, still waits in its queue, or was given up. */
  ghost predicate OwnCovered(device: string, c: Client, log: seq<Wire>, missed: set<nat>) {
    forall i :: 0 <= i < |log| && log[i].device == device
                ==> Replay(c, log[i]) || Unsent(c.outbox, log[i]) || i in missed
  }

  /** The outbox holds this device's records only, and the server has them as they are. */
  ghost predicate Sends(env: Env, c: Client, log: seq<Wire>) {
    && (forall q :: q in c.outbox ==> SealedHere(env, 0, c.drawn, q.wire))
    && (forall q, w :: q in c.outbox && w in log && w.id == q.wire.id ==> w == q.wire)
  }

  /** What the server has without the device knowing is newer than the entity's shadow. */
  ghost predicate Outstanding(c: Client, log: seq<Wire>) {
    forall q :: q in c.outbox && q.stage == Pending && Server.Stored(log, q.wire.id)
                ==> ShadowVersion(c, q.wire.key) < q.wire.version
  }

  /** The answer on its way is about the records pending first, and an acceptance about stored ones. */
  ghost predicate OnWire(c: Client, log: seq<Wire>, flight: Option<Flight>) {
    flight.Some? ==>
      && flight.value.batch <= PendingWires(c.outbox)
      && (flight.value.answer.Accepted? ==> Confirms(flight.value.batch, flight.value.answer.results, log))
  }

  ghost predicate Confirms(batch: seq<Wire>, results: seq<PushResult>, log: seq<Wire>) {
    |results| == |batch| && forall i :: 0 <= i < |batch| ==> results[i].id == batch[i].id && batch[i] in log
  }

  ghost predicate Wired(env: Env, c: Client, log: seq<Wire>, missed: set<nat>, flight: Option<Flight>) {
    OwnCovered(env.device, c, log, missed) && Sends(env, c, log) && Outstanding(c, log) && OnWire(c, log, flight)
  }

  /** No answer is on its way and the server has nothing that is still pending: how a push that ran to its
      end leaves things, whatever the host queues after it. */
  ghost predicate Answered(c: Client, log: seq<Wire>, flight: Option<Flight>) {
    flight.None? && forall q :: q in c.outbox && q.stage == Pending ==> !Server.Stored(log, q.wire.id)
  }

  lemma DrainedAnswered(c: Client, log: seq<Wire>)
    requires PendingWires(c.outbox) == []
    ensures Answered(c, log, None)
  {
    forall q | q in c.outbox ensures q.stage != Pending {
      assert q.wire !in PendingWires(c.outbox);
    }
  }

  // ----- local changes -----

  lemma AdvancedReplays(c: Client, next: Client)
    requires ShadowsAdvance(c, next)
    ensures forall w :: Replay(c, w) ==> Replay(next, w)
  {
  }

  /** Records sealed meanwhile change nothing about what was sent. */
  lemma AppendKeepsWire(env: Env, c: Client, next: Client, log: seq<Wire>, missed: set<nat>, flight: Option<Flight>)
    requires Wired(env, c, log, missed, flight) && Appends(c, next) && Grows(env, c, next)
    requires forall w :: SealedHere(env, c.drawn, next.drawn, w) ==> !Server.Stored(log, w.id)
    ensures Wired(env, next, log, missed, flight)
    ensures Answered(c, log, flight) ==> Answered(next, log, flight)
  {
    hide PendingWires, Sends, Server.Stored, Unsent, Replay, Known, SealedHere;
    GrownSends(env, c, next, log);
    assert forall w :: Unsent(c.outbox, w) ==> Unsent(next.outbox, w) by { AppendedUnsent(c.outbox, next.outbox); }
    assert forall w :: Replay(c, w) ==> Replay(next, w) by { AdvancedReplays(c, next); }
    forall q | q in next.outbox && q.stage == Pending && Server.Stored(log, q.wire.id)
      ensures exists r :: r in c.outbox && r.wire == q.wire && r.stage == Pending
    {
      KnownPending(env, c, next, log, q);
    }
    assert next.outbox[..|c.outbox|] == c.outbox;
    PendingPrefix(next.outbox, |c.outbox|);
  }

  lemma AppendedUnsent(outbox: seq<Queued>, next: seq<Queued>)
    requires outbox <= next
    ensures forall w :: Unsent(outbox, w) ==> Unsent(next, w)
  {
    assert forall q :: q in outbox ==> q in next;
  }

  /** What is pending and stored was pending before. */
  lemma KnownPending(env: Env, c: Client, next: Client, log: seq<Wire>, q: Queued)
    requires Grows(env, c, next) && q in next.outbox && q.stage == Pending && Server.Stored(log, q.wire.id)
    requires forall w :: SealedHere(env, c.drawn, next.drawn, w) ==> !Server.Stored(log, w.id)
    ensures exists r :: r in c.outbox && r.wire == q.wire && r.stage == Pending
  {
    hide SealedHere, Server.Stored;
    var r :| r in c.outbox && Became(r, q);
  }

  lemma GrownSends(env: Env, c: Client, next: Client, log: seq<Wire>)
    requires Sends(env, c, log) && Grows(env, c, next)
    requires forall w :: SealedHere(env, c.drawn, next.drawn, w) ==> !Server.Stored(log, w.id)
    ensures Sends(env, next, log)
  {
    forall q | q in next.outbox
      ensures SealedHere(env, 0, next.drawn, q.wire) && forall w :: w in log && w.id == q.wire.id ==> w == q.wire
    {
      if Known(c.outbox, q) {
        var r :| r in c.outbox && Became(r, q);
      }
    }
  }

  // ----- received records -----

  /** Own records the server has but never confirmed, whose parked copies went while the shadow stayed below. */
  ghost function Dropped(c: Client, next: Client, log: seq<Wire>): set<nat> {
    set i | 0 <= i < |log| && Unsent(c.outbox, log[i]) && !Unsent(next.outbox, log[i]) && !Replay(next, log[i])
  }

  /** Nothing is given up that way while the server has nothing unsent. */
  lemma NothingDropped(c: Client, next: Client, log: seq<Wire>)
    requires forall q :: q in c.outbox && q.stage != Applied ==> q.wire !in log
    ensures Dropped(c, next, log) == {}
  {
  }

  /** Landing records, by a pull or a retry, once every answer is in. */
  lemma LandingKeepsWire(env: Env, c: Client, next: Client, log: seq<Wire>, missed: set<nat>, given: set<nat>,
                         flight: Option<Flight>)
    requires Wired(env, c, log, missed, flight) && Answered(c, log, flight) && Grows(env, c, next)
             && ShadowsAdvance(c, next)
    requires forall w :: SealedHere(env, c.drawn, next.drawn, w) ==> !Server.Stored(log, w.id)
    ensures Wired(env, next, log, missed + given + Dropped(c, next, log), flight) && Answered(next, log, flight)
  {
    GrownSends(env, c, next, log);
    forall q | q in next.outbox && q.stage == Pending ensures !Server.Stored(log, q.wire.id) {
      if Known(c.outbox, q) {
        var r :| r in c.outbox && Became(r, q);
      }
    }
    AdvancedOwn(env, c, next, log, missed, given);
  }

  lemma AdvancedOwn(env: Env, c: Client, next: Client, log: seq<Wire>, missed: set<nat>, given: set<nat>)
    requires OwnCovered(env.device, c, log, missed) && ShadowsAdvance(c, next)
    ensures OwnCovered(env.device, next, log, missed + given + Dropped(c, next, log))
  {
    hide Unsent;
    assert forall w :: Replay(c, w) ==> Replay(next, w);
  }

  // ----- sending -----

  /** The server answers a batch; the device does not know yet. */
  lemma SendKeepsWire(env: Env, c: Client, log: seq<Wire>, missed: set<nat>, flight: Option<Flight>, batch: seq<Wire>)
    requires Wired(env, c, log, missed, flight) && Ordered(c.outbox) && Coherent(c, log) && Server.Contiguous(log)
    requires batch <= PendingWires(c.outbox)
    ensures var (stored, answer) := Server.Push(log, batch);
            Wired(env, c, stored, missed, Some(Flight(batch, answer))) && Server.Contiguous(stored)
  {
    hide PendingWires, Server.Simulate, Server.Contiguous, Ordered, Server.Results, Server.NewRecords, OwnCovered,
         Sends, Outstanding, Coherent, Confirms;
    AckStart(c, batch);
    Server.PushKeepsLog(log, batch);
    var (stored, answer) := Server.Push(log, batch);
    if answer.Accepted? {
      var added := Server.NewRecords(log, batch);
      AllPending(c, batch);
      StoredSends(env, c, log, batch, added);
      StoredOwn(env, c, log, missed, batch, added);
      StoredOutstanding(env, c, log, added);
      ConfirmsStored(env, c, stored, batch, answer.results);
    }
  }

  lemma AllPending(c: Client, batch: seq<Wire>)
    requires AckedTo(c, batch, 0, c)
    ensures forall i :: 0 <= i < |batch| ==> IsPending(c.outbox, batch[i])
  {
  }

  /** What the server has under the ids of the batch is the batch. */
  lemma ConfirmsStored(env: Env, c: Client, log: seq<Wire>, batch: seq<Wire>, results: seq<PushResult>)
    requires Sends(env, c, log) && forall w :: w in batch ==> Server.Stored(log, w.id)
    requires forall i :: 0 <= i < |batch| ==> IsPending(c.outbox, batch[i])
    requires results == Server.Results(log, batch)
    ensures Confirms(batch, results, log)
  {
    hide SealedHere;
    forall i | 0 <= i < |batch| ensures batch[i] in log {
      assert batch[i] in batch;
      var w :| w in log && w.id == batch[i].id;
      var q :| q in c.outbox && q.wire == batch[i] && q.stage == Pending;
    }
  }

  lemma StoredSends(env: Env, c: Client, log: seq<Wire>, batch: seq<Wire>, added: seq<Wire>)
    requires Sends(env, c, log) && Ordered(c.outbox) && forall w :: w in added ==> w in batch
    requires forall i :: 0 <= i < |batch| ==> IsPending(c.outbox, batch[i])
    ensures Sends(env, c, log + added)
  {
    hide Ordered;
    forall q, w | q in c.outbox && w in log + added && w.id == q.wire.id ensures w == q.wire {
      if w !in log {
        var i :| 0 <= i < |batch| && batch[i] == w;
        var r :| r in c.outbox && r.wire == w && r.stage == Pending;
        SameSlot(c.outbox, q, r);
      }
    }
  }

  lemma StoredOwn(env: Env, c: Client, log: seq<Wire>, missed: set<nat>, batch: seq<Wire>, added: seq<Wire>)
    requires OwnCovered(env.device, c, log, missed) && forall w :: w in added ==> w in batch
    requires forall i :: 0 <= i < |batch| ==> IsPending(c.outbox, batch[i])
    ensures OwnCovered(env.device, c, log + added, missed)
  {
    hide Replay;
    var stored := log + added;
    forall i | 0 <= i < |stored| && stored[i].device == env.device
      ensures Replay(c, stored[i]) || Unsent(c.outbox, stored[i]) || i in missed
    {
      if i < |log| {
        assert stored[i] == log[i];
      } else {
        assert stored[i] == added[i - |log|] && added[i - |log|] in added;
        var j :| 0 <= j < |batch| && batch[j] == stored[i];
      }
    }
  }

  /** A newly stored record is newer than any stored before, and so than its entity's shadow. */
  lemma StoredOutstanding(env: Env, c: Client, log: seq<Wire>, added: seq<Wire>)
    requires Outstanding(c, log) && Coherent(c, log) && Server.Contiguous(log + added) && Sends(env, c, log + added)
    ensures Outstanding(c, log + added)
  {
    hide Server.Contiguous;
    var stored := log + added;
    forall q | q in c.outbox && q.stage == Pending && Server.Stored(stored, q.wire.id)
      ensures ShadowVersion(c, q.wire.key) < q.wire.version
    {
      var w :| w in stored && w.id == q.wire.id;
      if w !in log {
        var j :| 0 <= j < |stored| && stored[j] == w;
        if q.wire.key in c.shadows {
          var i :| 0 <= i < |log| && log[i].key == q.wire.key
            && c.shadows[q.wire.key] == Shadow(log[i].version, BodyDoc(log[i].body));
          assert stored[i] == log[i];
          Server.VersionsAscend(stored, i, j);
        } else {
          PositiveVersion(stored, j);
        }
      }
    }
  }

  lemma PositiveVersion(log: seq<Wire>, j: nat)
    requires Server.Contiguous(log) && j < |log|
    ensures 0 < log[j].version
  {
    hide Server.HeadVersion;
    assert Server.Continues(log, j);
  }

  /** What another device stores is none of this one's. */
  lemma OthersKeepWire(env: Env, c: Client, log: seq<Wire>, added: seq<Wire>, missed: set<nat>, flight: Option<Flight>)
    requires Wired(env, c, log, missed, flight)
    requires forall w :: w in added ==> w.device != env.device && forall q :: q in c.outbox ==> q.wire.id != w.id
    ensures Wired(env, c, log + added, missed, flight)
    ensures Answered(c, log, flight) ==> Answered(c, log + added, flight)
  {
    hide Replay, Unsent, PendingWires;
    var stored := log + added;
    assert forall i :: |log| <= i < |stored| ==> stored[i] in added;
    assert forall i :: 0 <= i < |log| ==> stored[i] == log[i];
    forall q | q in c.outbox && Server.Stored(stored, q.wire.id) ensures Server.Stored(log, q.wire.id) {
      var w :| w in stored && w.id == q.wire.id;
    }
  }

  // ----- answers -----

  /** The records of an accepted batch raise their entities' shadows, and nothing falls back. */
  lemma ConfirmedAdvances(c: Client, log: seq<Wire>, batch: seq<Wire>, next: Client)
    requires Outstanding(c, log) && next.shadows == ShadowsAfter(c.shadows, batch, |batch|)
    requires forall i :: 0 <= i < |batch| ==> IsPending(c.outbox, batch[i]) && batch[i] in log
    ensures ShadowsAdvance(c, next)
  {
    hide ShadowsAfter;
    forall k | k in c.shadows ensures k in next.shadows && c.shadows[k].version <= next.shadows[k].version {
      ShadowAfter(c.shadows, batch, |batch|, k);
      if LastOf(batch, |batch|, k).Some? {
        var l := LastOf(batch, |batch|, k).value;
        var q :| q in c.outbox && q.wire == batch[l] && q.stage == Pending;
        assert Server.Stored(log, q.wire.id);
      }
    }
  }

  lemma ConfirmedReplay(c: Client, batch: seq<Wire>, next: Client, i: nat)
    requires Ordered(c.outbox) && batch <= PendingWires(c.outbox) && i < |batch|
    requires next.shadows == ShadowsAfter(c.shadows, batch, |batch|)
    ensures Replay(next, batch[i])
  {
    hide ShadowsAfter, Ordered, PendingWires;
    ShadowAfter(c.shadows, batch, |batch|, batch[i].key);
    var l := LastOf(batch, |batch|, batch[i].key).value;
    assert forall j :: 0 <= j < |batch| ==> batch[j] == PendingWires(c.outbox)[j];
    if i < l {
      PendingAscend(c.outbox, i, l);
    }
  }

  lemma ConfirmedCoherent(c: Client, log: seq<Wire>, batch: seq<Wire>, next: Client)
    requires Coherent(c, log) && next.shadows == ShadowsAfter(c.shadows, batch, |batch|)
    requires forall i :: 0 <= i < |batch| ==> batch[i] in log
    ensures Coherent(next, log)
  {
    hide ShadowsAfter;
    forall k | k in next.shadows
      ensures exists i :: 0 <= i < |log| && log[i].key == k
                          && next.shadows[k] == Shadow(log[i].version, BodyDoc(log[i].body))
    {
      ShadowAfter(c.shadows, batch, |batch|, k);
      if LastOf(batch, |batch|, k).Some? {
        var w := batch[LastOf(batch, |batch|, k).value];
        var i :| 0 <= i < |log| && log[i] == w;
      }
    }
  }

  /** An acceptance, however late: what it confirms has reached the shadows, and the rest waits as before. */
  lemma AcceptedKeepsWire(env: Env, c: Client, log: seq<Wire>, n: nat, missed: set<nat>, batch: seq<Wire>,
                          results: seq<PushResult>, next: Client)
    requires Wired(env, c, log, missed, Some(Flight(batch, Server.Accepted(results)))) && Knows(env, c, log, n, missed)
    requires Ordered(c.outbox) && Ack(c, batch, results) == Ok(next) && AckedTo(c, batch, |batch|, next)
    ensures Wired(env, next, log, missed, None) && Knows(env, next, log, n, missed)
  {
    hide Ordered, PendingWires, Ack, ShadowsAfter, Server.Stored, Replay;
    AckStart(c, batch);
    ConfirmedAdvances(c, log, batch, next);
    ConfirmedCoherent(c, log, batch, next);
    assert forall w :: Replay(c, w) ==> Replay(next, w) by { AdvancedReplays(c, next); }
    ConfirmedOwn(env, c, log, missed, batch, results, next);
    ConfirmedOutstanding(c, log, batch, results, next);
    forall q | q in next.outbox ensures exists r :: r in c.outbox && r.wire == q.wire {
      var r :| r in c.outbox && Became(r, q);
    }
  }

  lemma ConfirmedOwn(env: Env, c: Client, log: seq<Wire>, missed: set<nat>, batch: seq<Wire>, results: seq<PushResult>,
                     next: Client)
    requires OwnCovered(env.device, c, log, missed) && Sends(env, c, log) && batch <= PendingWires(c.outbox)
    requires Confirms(batch, results, log) && ShadowsAdvance(c, next)
    requires Ordered(c.outbox) && Ack(c, batch, results) == Ok(next) && AckedTo(c, batch, |batch|, next)
    ensures OwnCovered(env.device, next, log, missed)
  {
    hide Ordered, PendingWires, Ack, ShadowsAfter, Replay;
    AdvancedReplays(c, next);
    forall i | 0 <= i < |log| && log[i].device == env.device && Unsent(c.outbox, log[i])
      ensures Replay(next, log[i]) || Unsent(next.outbox, log[i])
    {
      var q :| q in c.outbox && q.wire == log[i] && q.stage != Applied;
      if j :| 0 <= j < |batch| && batch[j].id == q.wire.id {
        assert batch[j] == q.wire;
        ConfirmedReplay(c, batch, next, j);
      } else {
        assert forall r :: r in results ==> r.id != q.wire.id;
        AckLeaves(c, batch, results, next, q);
      }
    }
  }

  lemma ConfirmedOutstanding(c: Client, log: seq<Wire>, batch: seq<Wire>, results: seq<PushResult>, next: Client)
    requires Outstanding(c, log) && batch <= PendingWires(c.outbox)
    requires Ordered(c.outbox) && Ack(c, batch, results) == Ok(next) && AckedTo(c, batch, |batch|, next)
    ensures Outstanding(next, log)
  {
    hide Ordered, PendingWires, Ack, ShadowsAfter, Server.Stored;
    AckOnlySettles(c, batch, results, next);
    var wires := PendingWires(c.outbox);
    assert forall j :: 0 <= j < |batch| ==> batch[j] == wires[j];
    forall q | q in next.outbox && q.stage == Pending && Server.Stored(log, q.wire.id)
      ensures ShadowVersion(next, q.wire.key) < q.wire.version
    {
      assert q in c.outbox && q.wire in wires;
      var i :| 0 <= i < |wires| && wires[i] == q.wire;
      ShadowAfter(c.shadows, batch, |batch|, q.wire.key);
      assert forall j :: 0 <= j < |batch| ==> batch[j].id != q.wire.id;
      if LastOf(batch, |batch|, q.wire.key).Some? {
        PendingAscend(c.outbox, LastOf(batch, |batch|, q.wire.key).value, i);
      }
    }
  }

  /** A refusal, however late, and whatever it names. */
  lemma RefusedKeepsWire(env: Env, c: Client, log: seq<Wire>, missed: set<nat>, flight: Option<Flight>, heads: seq<Key>)
    requires Wired(env, c, log, missed, flight)
    ensures Wired(env, c.(outbox := MarkHeads(c.outbox, heads)), log, missed, None)
  {
    hide MarkHeads, PendingWires;
    var next := c.(outbox := MarkHeads(c.outbox, heads));
    MarkHeadsKnown(c.outbox, heads);
    MarkHeadsAlike(c.outbox, heads);
    forall q | q in next.outbox ensures exists r :: r in c.outbox && Became(r, q) {
      assert Known(c.outbox, q);
    }
    forall w | Unsent(c.outbox, w) ensures Unsent(next.outbox, w) {
      var q :| q in c.outbox && q.wire == w && q.stage != Applied;
      var i :| 0 <= i < |c.outbox| && c.outbox[i] == q;
      assert next.outbox[i] in next.outbox;
    }
    assert forall w :: Replay(next, w) <==> Replay(c, w);
    assert forall k :: ShadowVersion(next, k) == ShadowVersion(c, k);
  }
}
