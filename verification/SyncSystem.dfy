/** Several devices and one server: whatever the interleaving, devices that have nothing left to
    send, park or pull show the server's latest state, and therefore the same state. */
module SyncSystem {
  import opened Wrappers
  import opened Merge
  import opened SyncModel
  import opened SyncOutbox
  import opened SyncBasis
  import opened SyncRuns
  import opened SyncPull
  import opened SyncReconcile
  import opened SyncTrace
  import opened SyncGrowth
  import Server = SyncServer

  // ----- what one device knows about the log -----

  /** Every shadow base is a stored record. */
  ghost predicate Coherent(c: Client, log: seq<Wire>) {
    forall k :: k in c.shadows ==>
                  exists i :: 0 <= i < |log| && log[i].key == k
                              && c.shadows[k] == Shadow(log[i].version, BodyDoc(log[i].body))
  }

  /** Of the first n records, the others' have reached the shadows, are parked, or were given up. */
  ghost predicate Covered(device: string, c: Client, log: seq<Wire>, n: nat, missed: set<nat>) {
    forall i :: 0 <= i < n <= |log| && log[i].device != device ==>
                  Replay(c, log[i]) || Pulled(log[i], i + 1) in c.parked || i in missed
  }

  ghost predicate ParkedInLog(c: Client, log: seq<Wire>) {
    forall p :: p in c.parked ==> 0 < p.serverSeq <= |log| && log[p.serverSeq - 1] == p.wire
  }

  /** Every shadow comes from the log, and of its first n records everything foreign is accounted for. */
  ghost predicate Knows(env: Env, c: Client, log: seq<Wire>, n: nat, missed: set<nat>) {
    && n <= |log|
    && Coherent(c, log) && Covered(env.device, c, log, n, missed)
    && ParkedInLog(c, log)
  }

  // ----- receiving -----

  /** Raising a shadow to a stored record keeps everything known. */
  lemma ShadowToLog(env: Env, c: Client, next: Client, log: seq<Wire>, n: nat, missed: set<nat>, at: nat)
    requires Knows(env, c, log, n, missed) && at < |log| && !Replay(c, log[at])
    requires next.shadows == c.shadows[log[at].key := Shadow(log[at].version, BodyDoc(log[at].body))]
    requires forall i, j :: 0 <= i < j < |log| ==> log[i].id != log[j].id
    requires next.parked == Unpark(c.parked, log[at].id)
    ensures Knows(env, next, log, n, missed) && Replay(next, log[at])
  {
    hide Unpark;
    forall w | Replay(c, w) ensures Replay(next, w) {
    }
    forall i | 0 <= i < n && log[i].device != env.device
      ensures Replay(next, log[i]) || Pulled(log[i], i + 1) in next.parked || i in missed
    {
      if Pulled(log[i], i + 1) in c.parked && log[i].id == log[at].id {
        assert i == at;
      }
    }
  }

  lemma ParkedOnce(c: Client, log: seq<Wire>, n: nat, next: Client)
    requires ParkedInLog(c, log) && n < |log| && forall i, j :: 0 <= i < j < |log| ==> log[i].id != log[j].id
    requires Park(c, Pulled(log[n], n + 1)) == Ok(next)
    ensures Pulled(log[n], n + 1) in next.parked && c.parked <= next.parked
    ensures forall p :: p in next.parked ==> p in c.parked || p == Pulled(log[n], n + 1)
    ensures next == c.(parked := next.parked)
  {
    if q :| q in c.parked && (q.wire.id == log[n].id || q.serverSeq == n + 1) {
      assert log[q.serverSeq - 1] == q.wire;
      assert q.serverSeq - 1 == n;
    }
  }

  predicate GivenUp(fate: Fate) {
    fate.Failed? || fate.Rejected'?
  }

  /** The fates that leave rows, queue and shadows alone, and why each arises. */
  lemma UnlandedShape(env: Env, c: Client, p: Pulled, now: int, next: Client, fate: Fate)
    requires Ordered(c.outbox) && ApplyOne(env, c, p, now, true) == Ok((next, fate)) && !Landed(fate)
    ensures if fate.Parked? then Park(c, p) == Ok(next) else next == c
    ensures fate.Own? ==> p.wire.device == env.device
    ensures fate.Replayed? ==> Replay(c, p.wire)
    ensures fate in {Own, Replayed, Parked} || GivenUp(fate)
  {
    hide MaxVersion, Newest, Ordered, Land, Park;
    match Land(env, c, p.wire, now, true) {
      case Ok(landed) => LandKeepsBasis(env, c, p.wire, now, true, landed.0, landed.1);
      case Err(_) =>
    }
  }

  /** A parked or given-up record is accounted for; the state around it is what it was. */
  lemma UnlandedKnown(env: Env, c: Client, log: seq<Wire>, n: nat, missed: set<nat>, now: int, next: Client, fate: Fate)
    requires Knows(env, c, log, n, missed) && n < |log| && forall i, j :: 0 <= i < j < |log| ==> log[i].id != log[j].id
    requires Ordered(c.outbox) && ApplyOne(env, c, Pulled(log[n], n + 1), now, true) == Ok((next, fate))
             && !Landed(fate)
    ensures Knows(env, next, log, n + 1, if GivenUp(fate) then missed + {n} else missed)
  {
    hide MaxVersion, Newest, Ordered, ApplyOne, Park;
    UnlandedShape(env, c, Pulled(log[n], n + 1), now, next, fate);
    if fate.Parked? {
      ParkedOnce(c, log, n, next);
      assert forall q :: q in c.parked ==> q in next.parked;
    }
  }

  /** Receiving the next stored record, whatever becomes of it. */
  lemma ReceiveOne(env: Env, c: Client, log: seq<Wire>, n: nat, missed: set<nat>, now: int, next: Client, fate: Fate)
    requires Knows(env, c, log, n, missed) && n < |log| && forall i, j :: 0 <= i < j < |log| ==> log[i].id != log[j].id
    requires Ordered(c.outbox) && ApplyOne(env, c, Pulled(log[n], n + 1), now, true) == Ok((next, fate))
    ensures Knows(env, next, log, n + 1, if GivenUp(fate) then missed + {n} else missed)
    ensures Grows(env, c, next) && Ordered(next.outbox) && next.watermark == c.watermark
  {
    hide MaxVersion, Newest, Ordered, ApplyOne, Grows, Knows, BasisAt, Hazard;
    ApplyOneGrows(env, c, Pulled(log[n], n + 1), now, next, fate);
    ApplyOneKeepsBasis(env, c, Pulled(log[n], n + 1), now, true, next, fate);
    if Landed(fate) {
      LandedParked(env, c, Pulled(log[n], n + 1), now, next, fate);
      KnowsIds(env, c, log, n, missed);
      ShadowToLog(env, c, next, log, n, missed, n);
      OneFurther(env, next, log, n, missed);
    } else {
      UnlandedKnown(env, c, log, n, missed, now, next, fate);
    }
  }

  lemma KnowsIds(env: Env, c: Client, log: seq<Wire>, n: nat, missed: set<nat>)
    requires Knows(env, c, log, n, missed)
    ensures n <= |log|
  {
  }

  lemma OneFurther(env: Env, c: Client, log: seq<Wire>, n: nat, missed: set<nat>)
    requires Knows(env, c, log, n, missed) && n < |log| && Replay(c, log[n])
    ensures Knows(env, c, log, n + 1, missed)
  {
  }

  /** The records after the watermark, as the server pages them. */
  function Slice(log: seq<Wire>, from: nat, count: nat): (page: seq<Pulled>)
    requires from + count <= |log|
    ensures |page| == count && forall i :: 0 <= i < count ==> page[i] == Pulled(log[from + i], from + i + 1)
  {
    seq(count, i requires 0 <= i < count => Pulled(log[from + i], from + i + 1))
  }

  ghost function MissedIn(from: nat, fates: seq<Fate>): set<nat> {
    set i | 0 <= i < |fates| && GivenUp(fates[i]) :: from + i
  }

  lemma MissedSnoc(from: nat, fates: seq<Fate>, fate: Fate, missed: set<nat>)
    ensures missed + MissedIn(from, fates + [fate])
         == (if GivenUp(fate) then missed + MissedIn(from, fates) + {from + |fates|}
             else missed + MissedIn(from, fates))
  {
    var all := fates + [fate];
    assert forall i :: 0 <= i < |fates| ==> all[i] == fates[i];
    forall x | x in MissedIn(from, fates) ensures x in MissedIn(from, all) {
      var i :| 0 <= i < |fates| && GivenUp(fates[i]) && x == from + i;
      assert GivenUp(all[i]);
    }
    if GivenUp(fate) {
      assert GivenUp(all[|fates|]);
    }
  }

  lemma {:induction false} ReceivePage(env: Env, c: Client, log: seq<Wire>, from: nat, count: nat, missed: set<nat>,
                                       now: int, r: (Client, nat, seq<Fate>))
    requires Knows(env, c, log, from, missed) && from + count <= |log|
    requires forall i, j :: 0 <= i < j < |log| ==> log[i].id != log[j].id
    requires Ordered(c.outbox) && ApplyPage(env, c, from, Slice(log, from, count), now) == Ok(r)
    ensures Knows(env, r.0, log, from + count, missed + MissedIn(from, r.2))
    ensures Grows(env, c, r.0) && Ordered(r.0.outbox) && r.0.watermark == c.watermark && r.1 == from + count
  {
    hide MaxVersion, Newest, Ordered, ApplyOne, Grows, Knows;
    if count == 0 {
      RowsGrow(env, c, c.rows);
      assert c.(rows := c.rows) == c;
      assert missed + MissedIn(from, []) == missed;
    } else {
      var page := Slice(log, from, count);
      assert page[..count - 1] == Slice(log, from, count - 1);
      var before := ApplyPage(env, c, from, page[..count - 1], now).value;
      ReceivePage(env, c, log, from, count - 1, missed, now, before);
      var earlier := missed + MissedIn(from, before.2);
      ReceiveOne(env, before.0, log, from + count - 1, earlier, now, r.0, r.2[count - 1]);
      GrowsTransitive(env, c, before.0, r.0);
      MissedSnoc(from, before.2, r.2[count - 1], missed);
      assert r.2 == before.2 + [r.2[count - 1]];
    }
  }

  // ----- retrying -----

  lemma RetryStep(env: Env, c: Client, p: Pulled, log: seq<Wire>, n: nat, missed: set<nat>, now: int, next: Client,
                  fate: RetryFate)
    requires Knows(env, c, log, n, missed) && forall i, j :: 0 <= i < j < |log| ==> log[i].id != log[j].id
    requires 0 < p.serverSeq <= |log| && log[p.serverSeq - 1] == p.wire
    requires Ordered(c.outbox) && RetryOne(env, c, p, now) == (next, fate)
    ensures Knows(env, next, log, n, missed) && Grows(env, c, next) && Ordered(next.outbox)
            && next.watermark == c.watermark
  {
    hide MaxVersion, Newest, Ordered, Land, Grows, BasisAt, Hazard, Knows;
    match Land(env, c, p.wire, now, true) {
      case Ok(landed) =>
        LandKeepsBasis(env, c, p.wire, now, true, landed.0, landed.1);
        LandGrows(env, c, p.wire, now, true, landed.0, landed.1);
      case Err(_) =>
    }
    if next.outbox == c.outbox && next.drawn == c.drawn {
      SameOutboxGrows(env, c, next);
    }
    if fate.Released? {
      ReleaseKnown(env, c, p, log, n, missed, next);
    } else if fate.Retried? {
      ShadowToLog(env, c, next, log, n, missed, p.serverSeq - 1);
    }
  }

  lemma SameOutboxGrows(env: Env, c: Client, next: Client)
    requires next.outbox == c.outbox && next.drawn == c.drawn
    ensures Grows(env, c, next)
  {
    SubsetGrows(env, c, next);
  }

  lemma ReleaseKnown(env: Env, c: Client, p: Pulled, log: seq<Wire>, n: nat, missed: set<nat>, next: Client)
    requires Knows(env, c, log, n, missed) && forall i, j :: 0 <= i < j < |log| ==> log[i].id != log[j].id
    requires 0 < p.serverSeq <= |log| && log[p.serverSeq - 1] == p.wire && Replay(c, p.wire)
    requires next == c.(parked := Unpark(c.parked, p.wire.id))
    ensures Knows(env, next, log, n, missed)
  {
    hide Unpark;
    forall i | 0 <= i < n && log[i].device != env.device
      ensures Replay(next, log[i]) || Pulled(log[i], i + 1) in next.parked || i in missed
    {
      if Pulled(log[i], i + 1) in c.parked && log[i].id == p.wire.id {
        assert i == p.serverSeq - 1;
      }
    }
  }

  lemma {:induction false} RetryKnown(env: Env, c: Client, list: seq<Pulled>, log: seq<Wire>, n: nat, missed: set<nat>,
                                      now: int)
    requires Knows(env, c, log, n, missed) && forall i, j :: 0 <= i < j < |log| ==> log[i].id != log[j].id
    requires forall p :: p in list ==> 0 < p.serverSeq <= |log| && log[p.serverSeq - 1] == p.wire
    requires Ordered(c.outbox)
    ensures var next := RetryAll(env, c, list, now).0;
            Knows(env, next, log, n, missed) && Grows(env, c, next) && Ordered(next.outbox)
              && next.watermark == c.watermark
  {
    hide MaxVersion, Newest, Ordered, RetryOne, Grows, Knows;
    if list == [] {
      SameOutboxGrows(env, c, c);
    } else {
      var m := |list| - 1;
      assert forall p :: p in list[..m] ==> p in list;
      RetryKnown(env, c, list[..m], log, n, missed, now);
      var before := RetryAll(env, c, list[..m], now).0;
      var r := RetryOne(env, before, list[m], now);
      assert list[m] in list;
      RetryStep(env, before, list[m], log, n, missed, now, r.0, r.1);
      GrowsTransitive(env, c, before, r.0);
    }
  }
}
