/** What single moves of a system do, told in full. */
module SyncMoves {
  import opened Wrappers
  import opened Merge
  import opened SyncModel
  import opened SyncOutbox
  import opened SyncBasis
  import opened SyncRuns
  import opened SyncPull
  import opened SyncReconcile
  import opened SyncTrace
  import opened SyncGrowth
  import opened SyncSystem
  import opened SyncPushed
  import opened SyncFlight
  import opened SyncConverge
  import Server = SyncServer

  function Start(devices: set<string>): System {
    System([], map d | d in devices :: Node(EmptyClient(), {}, {}, None))
  }

  /** The system some moves lead to from an empty server and empty devices. */
  ghost predicate LeadsTo(fleet: Fleet, devices: set<string>, moves: seq<Move>, sys: System) {
    Distinct(fleet) && SystemOk(fleet, sys) && SystemRun(fleet, Start(devices), moves) == sys
  }

  lemma Begin(fleet: Fleet, devices: set<string>)
    requires Distinct(fleet)
    ensures LeadsTo(fleet, devices, [], Start(devices))
  {
    hide SystemOk, Distinct;
    EmptySystemOk(fleet, devices);
  }

  lemma Onward(fleet: Fleet, devices: set<string>, moves: seq<Move>, sys: System, move: Move)
    requires LeadsTo(fleet, devices, moves, sys)
    ensures LeadsTo(fleet, devices, moves + [move], Moved(fleet, sys, move))
  {
    hide SystemOk, Distinct, Moved;
    MoveKeepsSystem(fleet, sys, move);
    assert (moves + [move])[..|moves|] == moves;
  }

  /** Only this device's database and the log differ. */
  ghost predicate OnlyAt(sys: System, next: System, d: string, c: Client) {
    && d in sys.nodes && next.nodes.Keys == sys.nodes.Keys
    && next.nodes[d].client == c && next.nodes[d].missed == sys.nodes[d].missed
       && next.nodes[d].flight == sys.nodes[d].flight
    && (forall e :: e in sys.nodes && e != d ==> next.nodes[e] == sys.nodes[e])
  }

  lemma LocalMoves(fleet: Fleet, sys: System, d: string, step: Step)
    requires d in sys.nodes && IsLocal(step) && !step.Retry?
    ensures var next := Moved(fleet, sys, Local(d, step));
            next.log == sys.log && OnlyAt(sys, next, d, Next(fleet(d), sys.nodes[d].client, step))
  {
    hide Next, Off;
  }

  // ----- local writes -----

  function SealedWire(env: Env, c: Client, key: Key, body: Body, now: int): Wire {
    Wire(env.uuid(c.drawn), key, NextVersion(c, key), body, now, env.device)
  }

  lemma FreshId(fleet: Fleet, sys: System, d: string)
    requires Distinct(fleet) && SystemOk(fleet, sys) && d in sys.nodes
    ensures forall q :: q in sys.nodes[d].client.outbox ==> q.wire.id != fleet(d).uuid(sys.nodes[d].client.drawn)
  {
    hide Server.Contiguous, Knows, Sound, LogSealed, OwnCovered, Outstanding, OnWire;
    assert NodeOk(fleet(d), sys.nodes[d], sys.log);
    forall q | q in sys.nodes[d].client.outbox ensures q.wire.id != fleet(d).uuid(sys.nodes[d].client.drawn) {
      assert SealedHere(fleet(d), 0, sys.nodes[d].client.drawn, q.wire);
    }
  }

  /** An announced change or deletion of one row. */
  lemma Writes(fleet: Fleet, devices: set<string>, moves: seq<Move>, sys: System, d: string, key: Key, row: Option<Doc>,
               deletedAt: Option<int>, now: int) returns (more: seq<Move>, next: System)
    requires LeadsTo(fleet, devices, moves, sys) && d in sys.nodes
    requires key.kind != AiAction && key.id != "" && NextVersion(sys.nodes[d].client, key) <= I64_MAX
    requires if deletedAt.Some? then deletedAt.value >= 0 else row.Some? && fleet(d).seals(key, row.value)
    ensures LeadsTo(fleet, devices, more, next) && next.log == sys.log
    ensures more == moves + [Local(d, Write(key, row, deletedAt, now))]
    ensures var c := sys.nodes[d].client;
            var body := if deletedAt.Some? then Tombstone(deletedAt.value) else Content(row.value);
            var w := SealedWire(fleet(d), c, key, body, now);
            OnlyAt(sys, next, d, c.(rows := Written(c.rows, key, row), outbox := c.outbox + [Queued(w, Pending, None)],
                                    drawn := c.drawn + 1))
  {
    hide LeadsTo, SystemOk, Distinct, Moved, Next, Written, NextVersion, OnlyAt;
    var step := Write(key, row, deletedAt, now);
    more, next := moves + [Local(d, step)], Moved(fleet, sys, Local(d, step));
    Onward(fleet, devices, moves, sys, Local(d, step));
    LeadsOk(fleet, devices, moves, sys);
    FreshId(fleet, sys, d);
    LocalMoves(fleet, sys, d, step);
    WriteNext(fleet(d), sys.nodes[d].client, key, row, deletedAt, now);
  }

  lemma WriteNext(env: Env, c: Client, key: Key, row: Option<Doc>, deletedAt: Option<int>, now: int)
    requires key.kind != AiAction && key.id != "" && NextVersion(c, key) <= I64_MAX
    requires if deletedAt.Some? then deletedAt.value >= 0 else row.Some? && env.seals(key, row.value)
    requires forall q :: q in c.outbox ==> q.wire.id != env.uuid(c.drawn)
    ensures var body := if deletedAt.Some? then Tombstone(deletedAt.value) else Content(row.value);
            var w := SealedWire(env, c, key, body, now);
            Next(env, c, Write(key, row, deletedAt, now))
            == c.(rows := Written(c.rows, key, row), outbox := c.outbox + [Queued(w, Pending, None)],
                  drawn := c.drawn + 1)
  {
    hide MaxVersion, Removed;
    assert NextVersion(c.(rows := Written(c.rows, key, row)), key) == NextVersion(c, key);
  }

  lemma LeadsOk(fleet: Fleet, devices: set<string>, moves: seq<Move>, sys: System)
    requires LeadsTo(fleet, devices, moves, sys)
    ensures Distinct(fleet) && SystemOk(fleet, sys) && sys.nodes.Keys == devices
  {
    hide SystemOk, Distinct;
    Devices(fleet, devices, moves);
  }

  lemma {:induction false} Devices(fleet: Fleet, devices: set<string>, moves: seq<Move>)
    ensures SystemRun(fleet, Start(devices), moves).nodes.Keys == devices
  {
    if moves != [] {
      Devices(fleet, devices, moves[..|moves| - 1]);
    }
  }

  /** A change made while nothing observed the tables. */
  lemma Unseen(fleet: Fleet, devices: set<string>, moves: seq<Move>, sys: System, d: string, key: Key, row: Option<Doc>)
    returns (more: seq<Move>, next: System)
    requires LeadsTo(fleet, devices, moves, sys) && d in sys.nodes
    ensures LeadsTo(fleet, devices, more, next) && next.log == sys.log
    ensures more == moves + [Local(d, Unobserved(key, row))]
    ensures OnlyAt(sys, next, d, sys.nodes[d].client.(rows := Written(sys.nodes[d].client.rows, key, row)))
  {
    hide LeadsTo, Moved, Written, OnlyAt;
    var move := Local(d, Unobserved(key, row));
    more, next := moves + [move], Moved(fleet, sys, move);
    Onward(fleet, devices, moves, sys, move);
    LocalMoves(fleet, sys, d, Unobserved(key, row));
  }

  // ----- pushes -----

  predicate Drained(outbox: seq<Queued>) {
    forall q :: q in outbox ==> q.stage != Pending
  }

  lemma {:induction false} DrainedWires(outbox: seq<Queued>)
    requires Drained(outbox)
    ensures PendingWires(outbox) == []
  {
    if outbox != [] {
      DrainedWires(outbox[..|outbox| - 1]);
    }
  }

  lemma OnePending(outbox: seq<Queued>, w: Wire)
    requires Drained(outbox)
    ensures PendingWires(outbox + [Queued(w, Pending, None)]) == [w]
  {
    DrainedWires(outbox);
    assert (outbox + [Queued(w, Pending, None)])[..|outbox|] == outbox;
  }

  lemma AcceptedMoves(fleet: Fleet, sys: System, d: string, w: Wire, stored: seq<Wire>, results: seq<PushResult>)
    requires d in sys.nodes && PendingWires(sys.nodes[d].client.outbox) == [w] && sys.nodes[d].flight == None
    requires Server.Push(sys.log, [w]) == (stored, Server.Accepted(results))
    ensures var next := Moved(fleet, Moved(fleet, sys, Send(d, 1)), Answer(d));
            next.log == stored && OnlyAt(sys, next, d, Next(fleet(d), sys.nodes[d].client, Step.Accepted([w], results)))
  {
    hide Next, Off, Server.Push, PendingWires;
    assert [w][..1] == [w];
  }

  lemma RefusedMoves(fleet: Fleet, sys: System, d: string, w: Wire, heads: seq<Key>)
    requires d in sys.nodes && PendingWires(sys.nodes[d].client.outbox) == [w] && sys.nodes[d].flight == None
    requires Server.Push(sys.log, [w]) == (sys.log, Server.VersionConflict(heads))
    ensures var next := Moved(fleet, Moved(fleet, sys, Send(d, 1)), Answer(d));
            next.log == sys.log && OnlyAt(sys, next, d, Next(fleet(d), sys.nodes[d].client, Step.Conflict(heads)))
  {
    hide Next, Off, Server.Push, PendingWires;
    assert [w][..1] == [w];
  }

  /** A batch sent and its answer heard. */
  lemma SendsAndHears(fleet: Fleet, devices: set<string>, moves: seq<Move>, sys: System, d: string)
    returns (more: seq<Move>, next: System)
    requires LeadsTo(fleet, devices, moves, sys)
    ensures LeadsTo(fleet, devices, more, next)
    ensures more == moves + [Send(d, 1), Answer(d)] && next == Moved(fleet, Moved(fleet, sys, Send(d, 1)), Answer(d))
  {
    hide LeadsTo, Moved;
    var sent := Moved(fleet, sys, Send(d, 1));
    Onward(fleet, devices, moves, sys, Send(d, 1));
    Onward(fleet, devices, moves + [Send(d, 1)], sent, Answer(d));
    more, next := moves + [Send(d, 1), Answer(d)], Moved(fleet, sent, Answer(d));
    assert moves + [Send(d, 1)] + [Answer(d)] == more;
  }

  /** The one pending record, pushed alone, when it continues the entity's history on the server. */
  lemma Pushes(fleet: Fleet, devices: set<string>, moves: seq<Move>, sys: System, d: string, outbox: seq<Queued>,
               w: Wire)
    returns (more: seq<Move>, next: System)
    requires LeadsTo(fleet, devices, moves, sys) && d in sys.nodes && sys.nodes[d].flight == None
    requires sys.nodes[d].client.outbox == outbox + [Queued(w, Pending, None)] && Drained(outbox)
    requires w.version == Server.HeadVersion(sys.log, w.key) + 1 && w.version <= I64_MAX && w !in sys.log
    ensures LeadsTo(fleet, devices, more, next) && next.log == sys.log + [w]
    ensures more == moves + [Send(d, 1), Answer(d)]
    ensures OnlyAt(sys, next, d, sys.nodes[d].client.(
                     outbox := outbox + [Queued(w, Applied, Some(|sys.log| + 1))],
                     shadows := sys.nodes[d].client.shadows[w.key := Shadow(w.version, BodyDoc(w.body))]))
  {
    hide LeadsTo, SystemOk, Distinct, Moved, PendingWires, Server.HeadVersion, Server.Push, OnlyAt, Drained, Ack;
    more, next := SendsAndHears(fleet, devices, moves, sys, d);
    LeadsOk(fleet, devices, moves, sys);
    OnePending(outbox, w);
    Unstored(fleet, sys, d, outbox, w);
    StoredAlone(sys.log, w);
    AcceptedMoves(fleet, sys, d, w, sys.log + [w], [PushResult(w.id, |sys.log| + 1)]);
    AckedAlone(sys.nodes[d].client, outbox, w, |sys.log| + 1);
  }

  /** A pending record the server does not have under its id, which no other record carries. */
  lemma Unstored(fleet: Fleet, sys: System, d: string, outbox: seq<Queued>, w: Wire)
    requires SystemOk(fleet, sys) && d in sys.nodes && sys.nodes[d].client.outbox == outbox + [Queued(w, Pending, None)]
    requires w !in sys.log
    ensures !Server.Stored(sys.log, w.id)
    ensures forall q :: q in outbox ==> q.wire.id != w.id
  {
    hide Server.Contiguous, LogSealed, Knows, OwnCovered, Outstanding, OnWire;
    var all := sys.nodes[d].client.outbox;
    assert NodeOk(fleet(d), sys.nodes[d], sys.log);
    assert all[|outbox|] == Queued(w, Pending, None) && all[|outbox|] in all;
    forall q | q in outbox ensures q.wire.id != w.id {
      var i :| 0 <= i < |outbox| && outbox[i] == q;
      assert all[i] == q;
    }
  }

  lemma StoredAlone(log: seq<Wire>, w: Wire)
    requires !Server.Stored(log, w.id)
    ensures w.version == Server.HeadVersion(log, w.key) + 1
            ==> Server.Push(log, [w]) == (log + [w], Server.Accepted([PushResult(w.id, |log| + 1)]))
    ensures w.version != Server.HeadVersion(log, w.key) + 1
            ==> Server.Push(log, [w]) == (log, Server.VersionConflict([w.key]))
  {
    hide Server.HeadVersion, Server.SeqOf, Server.Stored;
    SimulatedAlone(log, w);
    LastSeq(log, w);
    assert Server.Results(log + [w], [w]) == [PushResult(w.id, |log| + 1)];
  }

  lemma SimulatedAlone(log: seq<Wire>, w: Wire)
    requires !Server.Stored(log, w.id)
    ensures Server.NewRecords(log, [w]) == [w]
    ensures Server.Simulate(log, [w]).1 == if w.version == Server.HeadVersion(log, w.key) + 1 then [] else [w.key]
  {
    hide Server.HeadVersion, Server.Stored;
    assert [w][..0] == [];
    assert Server.Simulate(log, [w][..0]) == (map[], []);
    assert Server.NewRecords(log, [w][..0]) == [];
  }

  lemma LastSeq(log: seq<Wire>, w: Wire)
    ensures Server.SeqOf(log + [w], w.id) == |log| + 1
  {
  }

  lemma AckedAlone(c: Client, outbox: seq<Queued>, w: Wire, serverSeq: int)
    requires c.outbox == outbox + [Queued(w, Pending, None)] && w.version <= I64_MAX
    requires forall q :: q in outbox ==> q.wire.id != w.id
    ensures Ack(c, [w], [PushResult(w.id, serverSeq)])
         == Ok(c.(outbox := outbox + [Queued(w, Applied, Some(serverSeq))],
                  shadows := c.shadows[w.key := Shadow(w.version, BodyDoc(w.body))]))
  {
    var results := [PushResult(w.id, serverSeq)];
    assert results[..0] == [];
    assert c.outbox[|outbox|] == Queued(w, Pending, None);
    assert Queued(w, Pending, None) in c.outbox;
    var settled := MarkApplied(c.outbox, w.id, serverSeq).value;
    forall i | 0 <= i < |settled| ensures settled[i] == (outbox + [Queued(w, Applied, Some(serverSeq))])[i] {
      assert i < |outbox| ==> c.outbox[i] == outbox[i] && outbox[i] in outbox;
    }
    assert settled == outbox + [Queued(w, Applied, Some(serverSeq))];
  }

  /** The one pending record, refused because the server has moved on. */
  lemma IsRefused(fleet: Fleet, devices: set<string>, moves: seq<Move>, sys: System, d: string, outbox: seq<Queued>,
                  w: Wire)
    returns (more: seq<Move>, next: System)
    requires LeadsTo(fleet, devices, moves, sys) && d in sys.nodes && sys.nodes[d].flight == None
    requires sys.nodes[d].client.outbox == outbox + [Queued(w, Pending, None)] && Drained(outbox)
    requires w.version != Server.HeadVersion(sys.log, w.key) + 1 && w !in sys.log
    ensures LeadsTo(fleet, devices, more, next) && next.log == sys.log
    ensures more == moves + [Send(d, 1), Answer(d)]
    ensures OnlyAt(sys, next, d, sys.nodes[d].client.(outbox := outbox + [Queued(w, Conflicted, None)]))
  {
    hide LeadsTo, SystemOk, Distinct, Moved, PendingWires, Server.HeadVersion, Server.Push, OnlyAt, Drained, MarkHeads;
    more, next := SendsAndHears(fleet, devices, moves, sys, d);
    LeadsOk(fleet, devices, moves, sys);
    OnePending(outbox, w);
    Unstored(fleet, sys, d, outbox, w);
    StoredAlone(sys.log, w);
    RefusedMoves(fleet, sys, d, w, [w.key]);
    MarkedAlone(outbox, w);
  }

  lemma MarkedAlone(outbox: seq<Queued>, w: Wire)
    requires Drained(outbox)
    ensures MarkHeads(outbox + [Queued(w, Pending, None)], [w.key]) == outbox + [Queued(w, Conflicted, None)]
  {
    assert [w.key][..0] == [];
    assert MarkHeads(outbox + [Queued(w, Pending, None)], [w.key][..0]) == outbox + [Queued(w, Pending, None)];
    var marked := MarkConflicted(outbox + [Queued(w, Pending, None)], w.key);
    forall i | 0 <= i < |marked| ensures marked[i] == (outbox + [Queued(w, Conflicted, None)])[i] {
      assert i < |outbox| ==> outbox[i] in outbox;
    }
    assert marked == outbox + [Queued(w, Conflicted, None)];
  }

  // ----- pulls -----

  /** A device with every answer in and nothing unsent that the server has. */
  ghost predicate Clear(node: Node, log: seq<Wire>) {
    && node.flight == None && Drained(node.client.outbox)
    && forall q :: q in node.client.outbox && q.stage != Applied ==> q.wire !in log
  }

  /** The next stored records in one page, none of them given up. */
  lemma Receives(fleet: Fleet, devices: set<string>, moves: seq<Move>, sys: System, d: string, count: nat, now: int,
                 access: Access, after: Client, fates: seq<Fate>)
    returns (more: seq<Move>, next: System)
    requires LeadsTo(fleet, devices, moves, sys) && d in sys.nodes && Clear(sys.nodes[d], sys.log)
    requires 0 < count && sys.nodes[d].client.watermark + count <= |sys.log|
    requires var c := sys.nodes[d].client;
             CommitPage(With(fleet(d), access), c, c.watermark, Slice(sys.log, c.watermark, count), now)
             == Ok((after, c.watermark + count, fates))
    requires forall fate :: fate in fates ==> !GivenUp(fate)
    ensures LeadsTo(fleet, devices, more, next) && next.log == sys.log
    ensures more == moves + [Pull(d, count, now, access)]
    ensures OnlyAt(sys, next, d, after)
  {
    hide LeadsTo, SystemOk, Distinct, Moved, OnlyAt, CommitPage, GivenUp, With;
    more, next := moves + [Pull(d, count, now, access)], Moved(fleet, sys, Pull(d, count, now, access));
    Onward(fleet, devices, moves, sys, Pull(d, count, now, access));
    PulledMoves(fleet, sys, d, count, now, access, after, fates);
  }

  lemma PulledMoves(fleet: Fleet, sys: System, d: string, count: nat, now: int, access: Access, after: Client,
                    fates: seq<Fate>)
    requires d in sys.nodes && 0 < count && sys.nodes[d].client.watermark + count <= |sys.log|
             && Clear(sys.nodes[d], sys.log)
    requires forall fate :: fate in fates ==> !GivenUp(fate)
    requires var c := sys.nodes[d].client;
             CommitPage(With(fleet(d), access), c, c.watermark, Slice(sys.log, c.watermark, count), now)
             == Ok((after, c.watermark + count, fates))
    ensures var next := Moved(fleet, sys, Pull(d, count, now, access));
            next.log == sys.log && OnlyAt(sys, next, d, after)
  {
    hide CommitPage, Off, Server.Stored, Dropped, With;
    var c := sys.nodes[d].client;
    NothingDropped(c, after, sys.log);
    assert MissedIn(c.watermark, fates) == {};
    assert sys.nodes[d].missed + {} + {} == sys.nodes[d].missed;
  }

  /** Parked records tried again. */
  lemma Retries(fleet: Fleet, devices: set<string>, moves: seq<Move>, sys: System, d: string, now: int, access: Access)
    returns (more: seq<Move>, next: System)
    requires LeadsTo(fleet, devices, moves, sys) && d in sys.nodes && Clear(sys.nodes[d], sys.log)
    ensures LeadsTo(fleet, devices, more, next) && next.log == sys.log
    ensures more == moves + [Local(d, Step.Retry(now, access))]
    ensures OnlyAt(sys, next, d,
                   RetryAll(With(fleet(d), access), sys.nodes[d].client, sys.nodes[d].client.parked, now).0)
  {
    hide LeadsTo, SystemOk, Distinct, Moved, OnlyAt, With, RetryAll;
    var move := Local(d, Step.Retry(now, access));
    more, next := moves + [move], Moved(fleet, sys, move);
    Onward(fleet, devices, moves, sys, move);
    RetriedMoves(fleet, sys, d, now, access);
  }

  lemma RetriedMoves(fleet: Fleet, sys: System, d: string, now: int, access: Access)
    requires d in sys.nodes && Clear(sys.nodes[d], sys.log)
    ensures var (c, next) := (sys.nodes[d].client, Moved(fleet, sys, Local(d, Step.Retry(now, access))));
            next.log == sys.log && OnlyAt(sys, next, d, RetryAll(With(fleet(d), access), c, c.parked, now).0)
  {
    hide RetryAll, Off, Server.Stored, Dropped, With;
    var c := sys.nodes[d].client;
    NothingDropped(c, RetryAll(With(fleet(d), access), c, c.parked, now).0, sys.log);
    assert sys.nodes[d].missed + {} + {} == sys.nodes[d].missed;
  }

  /** A use of a snippet. */
  lemma Counts(fleet: Fleet, devices: set<string>, moves: seq<Move>, sys: System, d: string, key: Key, now: int)
    returns (more: seq<Move>, next: System)
    requires LeadsTo(fleet, devices, moves, sys) && d in sys.nodes
    ensures LeadsTo(fleet, devices, more, next) && next.log == sys.log
    ensures more == moves + [Local(d, Use(key, now))]
    ensures OnlyAt(sys, next, d, sys.nodes[d].client.(rows := Used(sys.nodes[d].client.rows, key, now)))
  {
    hide LeadsTo, Moved, Used, OnlyAt;
    var move := Local(d, Use(key, now));
    more, next := moves + [move], Moved(fleet, sys, move);
    Onward(fleet, devices, moves, sys, move);
    LocalMoves(fleet, sys, d, Use(key, now));
  }

  lemma SystemOrdered(fleet: Fleet, sys: System, d: string)
    requires SystemOk(fleet, sys) && d in sys.nodes
    ensures Ordered(sys.nodes[d].client.outbox)
  {
    hide Server.Contiguous, LogSealed, Knows, Wired, Ordered;
    assert NodeOk(fleet(d), sys.nodes[d], sys.log);
  }

  /** A page of one record. */
  lemma OnePage(env: Env, c: Client, log: seq<Wire>, now: int, after: Client, fate: Fate)
    requires Ordered(c.outbox) && c.watermark < |log| <= I64_MAX
    requires ApplyOne(env, c, Pulled(log[c.watermark], c.watermark + 1), now, true) == Ok((after, fate))
    ensures CommitPage(env, c, c.watermark, Slice(log, c.watermark, 1), now)
         == Ok((after.(watermark := c.watermark + 1), c.watermark + 1, [fate]))
  {
    hide ApplyOne, Ordered, MaxVersion, Newest;
    var p := Pulled(log[c.watermark], c.watermark + 1);
    var none: seq<Fate> := [];
    assert Slice(log, c.watermark, 1) == [p] && [p][..0] == [] && none + [fate] == [fate];
    assert ApplyPage(env, c, c.watermark, [], now) == Ok((c, c.watermark, none));
    assert ApplyPage(env, c, c.watermark, [p], now) == Ok((after, c.watermark + 1, [fate]));
    ApplyOneKeepsBasis(env, c, p, now, true, after, fate);
  }

  /** A page of two records. */
  lemma TwoPage(env: Env, c: Client, log: seq<Wire>, now: int, mid: Client, first: Fate, after: Client, second: Fate)
    requires Ordered(c.outbox) && c.watermark + 2 <= |log| <= I64_MAX
    requires ApplyOne(env, c, Pulled(log[c.watermark], c.watermark + 1), now, true) == Ok((mid, first))
    requires ApplyOne(env, mid, Pulled(log[c.watermark + 1], c.watermark + 2), now, true) == Ok((after, second))
    ensures CommitPage(env, c, c.watermark, Slice(log, c.watermark, 2), now)
         == Ok((after.(watermark := c.watermark + 2), c.watermark + 2, [first, second]))
  {
    hide ApplyOne, Ordered, MaxVersion, Newest;
    var (p, q) := (Pulled(log[c.watermark], c.watermark + 1), Pulled(log[c.watermark + 1], c.watermark + 2));
    var none: seq<Fate> := [];
    assert Slice(log, c.watermark, 2) == [p, q] && [p, q][..1] == [p] && [p][..0] == [];
    assert none + [first] == [first] && [first] + [second] == [first, second];
    assert ApplyPage(env, c, c.watermark, [], now) == Ok((c, c.watermark, none));
    assert ApplyPage(env, c, c.watermark, [p], now) == Ok((mid, c.watermark + 1, [first]));
    ApplyOneKeepsBasis(env, c, p, now, true, mid, first);
    ApplyOneKeepsBasis(env, mid, q, now, true, after, second);
  }

  /** A page of records this device sent itself or already has moves the watermark and nothing else. */
  lemma SkippedPage(env: Env, c: Client, log: seq<Wire>, count: nat, now: int) returns (fates: seq<Fate>)
    requires 0 < count && c.watermark + count <= |log| <= I64_MAX
    requires forall i :: c.watermark <= i < c.watermark + count ==> Reached(env, c, log[i])
    ensures CommitPage(env, c, c.watermark, Slice(log, c.watermark, count), now)
         == Ok((c.(watermark := c.watermark + count), c.watermark + count, fates))
    ensures forall fate :: fate in fates ==> !GivenUp(fate)
  {
    hide ApplyOne, Replay;
    var page := Slice(log, c.watermark, count);
    ReachedIsSkipped(env, c, c.watermark, page, now);
    fates := ApplyPage(env, c, c.watermark, page, now).value.2;
  }

  /** A document of another device, newer than the shadow and in no conflict here, becomes the row. */
  lemma PlainOne(env: Env, c: Client, p: Pulled, now: int)
    requires p.wire.device != env.device && !Replay(c, p.wire) && env.access.verdict(p.wire) == Opens
    requires Newest(c.outbox, p.wire.key, {Conflicted}).None? && c.parked == []
    requires p.wire.body.Content? && p.wire.key.kind != AiAction && p.wire.version <= I64_MAX
    requires env.applies(c.rows, p.wire.key, p.wire.body.doc)
    ensures ApplyOne(env, c, p, now, true)
         == Ok((c.(rows := c.rows[p.wire.key := p.wire.body.doc],
                   shadows := c.shadows[p.wire.key := Shadow(p.wire.version, Some(p.wire.body.doc))]), AppliedPlain))
  {
    hide Newest;
  }

  // ----- counting versions -----

  lemma MaxAppend(outbox: seq<Queued>, q: Queued, key: Key)
    ensures MaxVersion(outbox + [q], key)
         == if q.wire.key == key && MaxVersion(outbox, key) <= q.wire.version then q.wire.version
           else MaxVersion(outbox, key)
  {
    assert (outbox + [q])[..|outbox|] == outbox;
  }
}
