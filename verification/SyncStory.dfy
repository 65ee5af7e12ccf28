/** Runs of two devices over one server, told move by move. */
module SyncStory {
  import opened Wrappers
  import opened Merge
  import opened SyncModel
  import opened SyncBasis
  import opened SyncRuns
  import opened SyncTrace
  import opened SyncSystem
  import opened SyncConverge
  import opened SyncMoves
  import opened SyncSamples
  import Server = SyncServer

  const BOTH: set<string> := {"A", "B"}

  predicate At(sys: System, d: string, c: Client) {
    d in sys.nodes && sys.nodes[d].client == c && sys.nodes[d].missed == {} && sys.nodes[d].flight == None
  }

  /** From empty, these moves lead to this log and these two databases, no record was
      given up and every answer is in. */
  ghost predicate Tells(moves: seq<Move>, log: seq<Wire>, a: Client, b: Client) {
    var sys := SystemRun(DEVICES, Start(BOTH), moves);
    LeadsTo(DEVICES, BOTH, moves, sys) && sys.log == log && At(sys, "A", a) && At(sys, "B", b)
  }

  function Name(first: bool): string {
    if first then "A" else "B"
  }

  lemma Opening()
    ensures Tells([], [], EmptyClient(), EmptyClient())
  {
    hide LeadsTo, Distinct;
    DevicesDistinct();
    Begin(DEVICES, BOTH);
  }

  lemma Turn(sys: System, next: System, first: bool, c: Client, a: Client, b: Client)
    requires At(sys, "A", a) && At(sys, "B", b) && OnlyAt(sys, next, Name(first), c)
    ensures At(next, "A", if first then c else a) && At(next, "B", if first then b else c)
  {
  }

  lemma Known(moves: seq<Move>, log: seq<Wire>, a: Client, b: Client) returns (sys: System)
    requires Tells(moves, log, a, b)
    ensures sys == SystemRun(DEVICES, Start(BOTH), moves) && LeadsTo(DEVICES, BOTH, moves, sys) && sys.log == log
    ensures At(sys, "A", a) && At(sys, "B", b)
  {
    sys := SystemRun(DEVICES, Start(BOTH), moves);
  }

  lemma Told(moves: seq<Move>, sys: System, log: seq<Wire>, a: Client, b: Client)
    requires LeadsTo(DEVICES, BOTH, moves, sys) && sys.log == log && At(sys, "A", a) && At(sys, "B", b)
    ensures Tells(moves, log, a, b)
  {
  }

  /** The device's own client, and the pair with it replaced. */
  function Mine(first: bool, a: Client, b: Client): Client {
    if first then a else b
  }

  /** What an announced write leaves of a database. */
  function AfterWrite(c: Client, key: Key, row: Option<Doc>, w: Wire): Client {
    c.(rows := Written(c.rows, key, row), outbox := c.outbox + [Queued(w, Pending, None)], drawn := c.drawn + 1)
  }

  function SealedBy(first: bool, c: Client, key: Key, row: Option<Doc>, deletedAt: Option<int>, now: int): Wire {
    Wire(DrawnId(Name(first), c.drawn), key, NextVersion(c, key),
         if deletedAt.Some? then Tombstone(deletedAt.value)
           else Content(if row.Some? then row.value else map[]), now, Name(first))
  }

  lemma Writing(moves: seq<Move>, log: seq<Wire>, a: Client, b: Client, first: bool, key: Key, row: Option<Doc>,
                deletedAt: Option<int>, now: int)
    returns (more: seq<Move>)
    requires Tells(moves, log, a, b)
    requires key.kind != AiAction && key.id != "" && NextVersion(Mine(first, a, b), key) <= I64_MAX
    requires if deletedAt.Some? then deletedAt.value >= 0 else row.Some? && Complete(key, row.value)
    ensures more == moves + [Local(Name(first), Write(key, row, deletedAt, now))]
    ensures var c := Mine(first, a, b);
            var next := AfterWrite(c, key, row, SealedBy(first, c, key, row, deletedAt, now));
            Tells(more, log, if first then next else a, if first then b else next)
  {
    hide Tells, LeadsTo, Complete, Written, NextVersion, OnlyAt, DrawnId, Start, SystemRun;
    var sys := Known(moves, log, a, b);
    var next: System;
    more, next := Writes(DEVICES, BOTH, moves, sys, Name(first), key, row, deletedAt, now);
    var c := Mine(first, a, b);
    var after := AfterWrite(c, key, row, SealedBy(first, c, key, row, deletedAt, now));
    Turn(sys, next, first, after, a, b);
    Told(more, next, log, if first then after else a, if first then b else after);
  }

  lemma Unnoticed(moves: seq<Move>, log: seq<Wire>, a: Client, b: Client, first: bool, key: Key, row: Option<Doc>)
    returns (more: seq<Move>)
    requires Tells(moves, log, a, b)
    ensures more == moves + [Local(Name(first), Unobserved(key, row))]
    ensures var c := Mine(first, a, b);
            var next := c.(rows := Written(c.rows, key, row));
            Tells(more, log, if first then next else a, if first then b else next)
  {
    hide Tells, LeadsTo, Written, OnlyAt, Start, SystemRun;
    var sys := Known(moves, log, a, b);
    var next: System;
    more, next := Unseen(DEVICES, BOTH, moves, sys, Name(first), key, row);
    var c := Mine(first, a, b);
    var after := c.(rows := Written(c.rows, key, row));
    Turn(sys, next, first, after, a, b);
    Told(more, next, log, if first then after else a, if first then b else after);
  }

  function AfterPush(c: Client, outbox: seq<Queued>, w: Wire, serverSeq: int): Client {
    c.(outbox := outbox + [Queued(w, Applied, Some(serverSeq))],
       shadows := c.shadows[w.key := Shadow(w.version, BodyDoc(w.body))])
  }

  lemma Pushing(moves: seq<Move>, log: seq<Wire>, a: Client, b: Client, first: bool, outbox: seq<Queued>, w: Wire)
    returns (more: seq<Move>)
    requires Tells(moves, log, a, b)
    requires Mine(first, a, b).outbox == outbox + [Queued(w, Pending, None)] && Drained(outbox)
    requires w.version == Server.HeadVersion(log, w.key) + 1 && w.version <= I64_MAX && w !in log
    ensures more == moves + [Send(Name(first), 1), Answer(Name(first))]
    ensures var next := AfterPush(Mine(first, a, b), outbox, w, |log| + 1);
            Tells(more, log + [w], if first then next else a, if first then b else next)
  {
    hide Tells, LeadsTo, OnlyAt, Start, SystemRun, Server.HeadVersion, Drained;
    var sys := Known(moves, log, a, b);
    var next: System;
    more, next := Pushes(DEVICES, BOTH, moves, sys, Name(first), outbox, w);
    var after := AfterPush(Mine(first, a, b), outbox, w, |log| + 1);
    Turn(sys, next, first, after, a, b);
    Told(more, next, log + [w], if first then after else a, if first then b else after);
  }

  function AfterRefusal(c: Client, outbox: seq<Queued>, w: Wire): Client {
    c.(outbox := outbox + [Queued(w, Conflicted, None)])
  }

  lemma Failing(moves: seq<Move>, log: seq<Wire>, a: Client, b: Client, first: bool, outbox: seq<Queued>, w: Wire)
    returns (more: seq<Move>)
    requires Tells(moves, log, a, b)
    requires Mine(first, a, b).outbox == outbox + [Queued(w, Pending, None)] && Drained(outbox)
    requires w.version != Server.HeadVersion(log, w.key) + 1 && w !in log
    ensures more == moves + [Send(Name(first), 1), Answer(Name(first))]
    ensures var next := AfterRefusal(Mine(first, a, b), outbox, w);
            Tells(more, log, if first then next else a, if first then b else next)
  {
    hide Tells, LeadsTo, OnlyAt, Start, SystemRun, Server.HeadVersion, Drained;
    var sys := Known(moves, log, a, b);
    var next: System;
    more, next := IsRefused(DEVICES, BOTH, moves, sys, Name(first), outbox, w);
    var after := AfterRefusal(Mine(first, a, b), outbox, w);
    Turn(sys, next, first, after, a, b);
    Told(more, next, log, if first then after else a, if first then b else after);
  }

  /** Nothing is pending here, and what is parked as a conflict the server does not have. */
  ghost predicate Waiting(c: Client, log: seq<Wire>) {
    Drained(c.outbox) && forall q :: q in c.outbox && q.stage != Applied ==> q.wire !in log
  }

  lemma Pulling(moves: seq<Move>, log: seq<Wire>, a: Client, b: Client, first: bool, count: nat, now: int,
                access: Access, after: Client, fates: seq<Fate>)
    returns (more: seq<Move>)
    requires Tells(moves, log, a, b) && Waiting(Mine(first, a, b), log)
    requires var c := Mine(first, a, b);
             0 < count && c.watermark + count <= |log|
             && CommitPage(With(Device(Name(first)), access), c, c.watermark, Slice(log, c.watermark, count), now)
                == Ok((after, c.watermark + count, fates))
    requires forall fate :: fate in fates ==> !GivenUp(fate)
    ensures more == moves + [Pull(Name(first), count, now, access)]
    ensures Tells(more, log, if first then after else a, if first then b else after)
  {
    hide Tells, LeadsTo, OnlyAt, Start, SystemRun, CommitPage, Device, GivenUp, With, Drained;
    var sys := Known(moves, log, a, b);
    var next: System;
    more, next := Receives(DEVICES, BOTH, moves, sys, Name(first), count, now, access, after, fates);
    Turn(sys, next, first, after, a, b);
    Told(more, next, log, if first then after else a, if first then b else after);
  }

  lemma Retrying(moves: seq<Move>, log: seq<Wire>, a: Client, b: Client, first: bool, now: int, access: Access)
    returns (more: seq<Move>)
    requires Tells(moves, log, a, b) && Waiting(Mine(first, a, b), log)
    ensures more == moves + [Local(Name(first), Step.Retry(now, access))]
    ensures var c := Mine(first, a, b);
            var after := RetryAll(With(Device(Name(first)), access), c, c.parked, now).0;
            Tells(more, log, if first then after else a, if first then b else after)
  {
    hide Tells, LeadsTo, OnlyAt, Start, SystemRun, Device, With, Drained, RetryAll;
    var sys := Known(moves, log, a, b);
    var next: System;
    more, next := Retries(DEVICES, BOTH, moves, sys, Name(first), now, access);
    var c := Mine(first, a, b);
    var after := RetryAll(With(Device(Name(first)), access), c, c.parked, now).0;
    Turn(sys, next, first, after, a, b);
    Told(more, next, log, if first then after else a, if first then b else after);
  }

  lemma Using(moves: seq<Move>, log: seq<Wire>, a: Client, b: Client, first: bool, key: Key, now: int)
    returns (more: seq<Move>)
    requires Tells(moves, log, a, b)
    ensures more == moves + [Local(Name(first), Use(key, now))]
    ensures var c := Mine(first, a, b);
            var next := c.(rows := Used(c.rows, key, now));
            Tells(more, log, if first then next else a, if first then b else next)
  {
    hide Tells, LeadsTo, Used, OnlyAt, Start, SystemRun;
    var sys := Known(moves, log, a, b);
    var next: System;
    more, next := Counts(DEVICES, BOTH, moves, sys, Name(first), key, now);
    var c := Mine(first, a, b);
    var after := c.(rows := Used(c.rows, key, now));
    Turn(sys, next, first, after, a, b);
    Told(more, next, log, if first then after else a, if first then b else after);
  }

  // ----- short queues -----

  function Sent(w: Wire, serverSeq: int): Queued {
    Queued(w, Applied, Some(serverSeq))
  }

  lemma NothingYet(key: Key)
    ensures Server.HeadVersion([], key) == 0 && MaxVersion([], key) == 0
  {
  }

  lemma NewestAlone(q: Queued, key: Key, stages: set<Stage>)
    ensures Newest([q], key, stages) == if q.wire.key == key && q.stage in stages then Some(q) else None
  {
    assert [q][..0] == [];
  }

  lemma ClearedAlone(q: Queued)
    requires q.stage == Conflicted
    ensures ClearConflicts([q], q.wire.key) == []
  {
    assert [q][..0] == [];
  }

  lemma NewestOfAppended(outbox: seq<Queued>, q: Queued, key: Key, stages: set<Stage>)
    requires q.wire.key != key || q.stage !in stages
    ensures Newest(outbox + [q], key, stages) == Newest(outbox, key, stages)
  {
    assert (outbox + [q])[..|outbox|] == outbox;
  }

  lemma NewestIsAppended(outbox: seq<Queued>, q: Queued, key: Key, stages: set<Stage>)
    requires q.wire.key == key && q.stage in stages && MaxVersion(outbox, key) <= q.wire.version
    ensures Newest(outbox + [q], key, stages) == Some(q)
  {
    assert (outbox + [q])[..|outbox|] == outbox;
  }

  lemma ClearedAppended(outbox: seq<Queued>, q: Queued, key: Key)
    ensures ClearConflicts(outbox + [q], key)
         == ClearConflicts(outbox, key) + (if q.wire.key == key && q.stage == Conflicted then [] else [q])
  {
    assert (outbox + [q])[..|outbox|] == outbox;
  }

  lemma OtherId(d: string, m: nat, n: nat)
    requires m != n
    ensures DrawnId(d, m) != DrawnId(d, n)
  {
    if DrawnId(d, m) == DrawnId(d, n) {
      IdsDiffer(d, m, d, n);
    }
  }

  // ----- sealing, in full -----

  lemma SealsTombstone(env: Env, c: Client, key: Key, at: nat, now: int, w: Wire)
    requires key.id != "" && w == Wire(env.uuid(c.drawn), key, NextVersion(c, key), Tombstone(at), now, env.device)
             && w.version <= I64_MAX
    requires forall q :: q in c.outbox ==> q.wire.id != w.id
    ensures Enqueue(env, c, key, Some(at), now)
            == Ok((c.(outbox := c.outbox + [Queued(w, Pending, None)], drawn := c.drawn + 1), true))
  {
    hide MaxVersion;
  }

  /** A parked deletion of a snippet against an edit: the edit, recycled, and the deletion queued again. */
  lemma KeepsDeletion(env: Env, c: Client, w: Wire, doc: Doc, at: nat, now: int, settled: Client, next: Client)
    requires w.key.kind == Snippet && w.body == Content(doc) && Live(w.key, doc) && env.applies(c.rows, w.key, doc)
             && w.version <= I64_MAX
    requires settled == c.(rows := c.rows[w.key := Binned(doc, at)], outbox := ClearConflicts(c.outbox, w.key),
                           shadows := c.shadows[w.key := Shadow(w.version, Some(doc))])
    requires Enqueue(env, settled, w.key, Some(at), now) == Ok((next, true))
    ensures KeepDeletion(env, c, w, doc, at, now) == Ok(next)
  {
    hide Enqueue;
    assert c.rows[w.key := doc][w.key := Binned(doc, at)] == settled.rows;
  }

  /** A record meeting a parked conflict, resolved with this result. */
  lemma MergedOne(env: Env, c: Client, p: Pulled, now: int, head: Queued, merged: Client)
    requires p.wire.device != env.device && !Replay(c, p.wire) && env.access.verdict(p.wire) == Opens
    requires Newest(c.outbox, p.wire.key, {Conflicted}) == Some(head) && merged.parked == []
    requires MergeConflicted(env, c, p.wire, head, now, true) == Ok((merged, None))
    ensures ApplyOne(env, c, p, now, true) == Ok((merged, MergedIn(None)))
  {
    hide Newest, MergeConflicted;
  }

  lemma DeletionMerges(env: Env, c: Client, w: Wire, head: Queued, now: int, next: Client)
    requires env.access.hasKey && w.body.Content? && head.wire.body.Tombstone?
    requires KeepDeletion(env, c, w, w.body.doc, head.wire.body.at, now) == Ok(next)
    ensures MergeConflicted(env, c, w, head, now, true) == Ok((next, None))
  {
    hide KeepDeletion;
  }

  lemma TellsOrdered(moves: seq<Move>, log: seq<Wire>, a: Client, b: Client)
    requires Tells(moves, log, a, b)
    ensures Ordered(a.outbox) && Ordered(b.outbox)
  {
    hide Tells, LeadsTo, SystemOk, Distinct, Ordered;
    var sys := Known(moves, log, a, b);
    LeadsOk(DEVICES, BOTH, moves, sys);
    SystemOrdered(DEVICES, sys, "A");
    SystemOrdered(DEVICES, sys, "B");
  }
}
