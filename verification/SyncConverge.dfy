/** Convergence of any number of devices over one server, for every interleaving of their moves. */
module SyncConverge {
  import opened Wrappers
  import opened Merge
  import opened SyncModel
  import opened SyncOutbox
  import opened SyncBasis
  import opened SyncRuns
  import opened SyncPull
  import opened SyncReconcile
  import opened SyncTrace
  import opened SyncGrowth
  import opened SyncSystem
  import opened SyncPushed
  import opened SyncFlight
  import Server = SyncServer

  /** One device: its database, the log positions it gave up on, the entities off their basis, and the
      answer on its way to it. */
  datatype Node = Node(client: Client, missed: set<nat>, off: set<Key>, flight: Option<Flight>)

  datatype System = System(log: seq<Wire>, nodes: map<string, Node>)

  /** Each device's surroundings; ids drawn anywhere are globally unique. The keys are those of each move. */
  type Fleet = string -> Env

  ghost predicate Distinct(fleet: Fleet) {
    && (forall d :: fleet(d).device == d)
    && (forall d, e: string, m: nat, n: nat :: fleet(d).uuid(m) == fleet(e).uuid(n) ==> d == e && m == n)
  }

  /** A push is two moves, the server's and the device's. In between, and when the answer never comes, the
      host goes on writing; the engine neither pulls nor retries until a later push got its answer. */
  datatype Move =
    | Local(device: string, step: Step)
    | Send(device: string, count: nat)
    | Answer(device: string)
    | Pull(device: string, count: nat, now: int, access: Access)

  predicate IsLocal(step: Step) {
    step.Write? || step.Unobserved? || step.Use? || step.Retry? || step.CatchUp?
  }

  ghost function Advance(env: Env, node: Node, step: Step): Node {
    node.(client := Next(env, node.client, step), off := Off(env, node.client, node.off, step))
  }

  /** A step that lands records: what it gives up joins the device's own account. */
  ghost function Landing(env: Env, node: Node, step: Step, given: set<nat>, log: seq<Wire>): Node {
    var next := Advance(env, node, step);
    next.(missed := node.missed + given + Dropped(node.client, next.client, log))
  }

  /** The page after the device's watermark, and which of it the device gives up on. */
  ghost function PullMissed(env: Env, c: Client, page: seq<Pulled>, now: int): set<nat> {
    match CommitPage(env, c, c.watermark, page, now)
    case Ok(r) => MissedIn(c.watermark, r.2)
    case Err(_) => {}
  }

  ghost function Moved(fleet: Fleet, sys: System, move: Move): System {
    if move.device !in sys.nodes then sys
    else
      var env := fleet(move.device);
      var node := sys.nodes[move.device];
      match move
      case Local(d, step) =>
        if !IsLocal(step) then sys
        else if !step.Retry? then sys.(nodes := sys.nodes[d := Advance(env, node, step)])
        else if Answered(node.client, sys.log, node.flight)
          then sys.(nodes := sys.nodes[d := Landing(env, node, step, {}, sys.log)])
        else sys
      case Send(d, count) =>
        var batch := FirstPending(node.client, count);
        if batch == [] then sys
        else
          var (stored, answer) := Server.Push(sys.log, batch);
          System(stored, sys.nodes[d := node.(flight := Some(Flight(batch, answer)))])
      case Answer(d) =>
        if node.flight.None? then sys
        else sys.(nodes := sys.nodes[d := Heard(env, node, node.flight.value)])
      case Pull(d, count, now, access) =>
        var c := node.client;
        if c.watermark <= |sys.log| && Answered(c, sys.log, node.flight) then
          var left := |sys.log| - c.watermark;
          var page := Slice(sys.log, c.watermark, if count <= left then count else left);
          if page == [] then sys
          else
            var given := PullMissed(With(env, access), c, page, now);
            sys.(nodes := sys.nodes[d := Landing(env, node, Step.Page(page, now, access), given, sys.log)])
        else sys
  }

  function FirstPending(c: Client, count: nat): (batch: seq<Wire>)
    ensures batch <= PendingWires(c.outbox)
  {
    var pending := PendingWires(c.outbox);
    pending[..if count <= |pending| then count else |pending|]
  }

  /** The answer reaches the device. */
  ghost function Heard(env: Env, node: Node, flight: Flight): Node {
    var step := match flight.answer
      case Accepted(results) => Step.Accepted(flight.batch, results)
      case VersionConflict(heads) => Step.Conflict(heads);
    Advance(env, node, step).(flight := None)
  }

  // ----- the invariant of the whole system -----

  ghost predicate NodeOk(env: Env, node: Node, log: seq<Wire>) {
    && Sound(node.client, node.off)
    && Knows(env, node.client, log, node.client.watermark, node.missed)
    && Wired(env, node.client, log, node.missed, node.flight)
  }

  /** The log's records were all sealed by its devices under ids they have drawn. */
  ghost predicate LogSealed(fleet: Fleet, sys: System) {
    forall i :: 0 <= i < |sys.log| ==>
                  sys.log[i].device in sys.nodes
                  && SealedHere(fleet(sys.log[i].device), 0, sys.nodes[sys.log[i].device].client.drawn, sys.log[i])
  }

  ghost predicate SystemOk(fleet: Fleet, sys: System) {
    && Server.Contiguous(sys.log)
    && LogSealed(fleet, sys)
    && (forall d :: d in sys.nodes ==> NodeOk(fleet(d), sys.nodes[d], sys.log))
  }

  lemma FreshIdsUnstored(fleet: Fleet, sys: System, d: string, w: Wire, high: nat)
    requires Distinct(fleet) && LogSealed(fleet, sys) && d in sys.nodes
    requires SealedHere(fleet(d), sys.nodes[d].client.drawn, high, w)
    ensures !Server.Stored(sys.log, w.id)
  {
    var m: nat :| sys.nodes[d].client.drawn <= m < high && fleet(d).uuid(m) == w.id;
    forall x | x in sys.log ensures x.id != w.id {
      var i :| 0 <= i < |sys.log| && sys.log[i] == x;
      var n: nat :| 0 <= n < sys.nodes[x.device].client.drawn && fleet(x.device).uuid(n) == x.id;
    }
  }

  lemma FreshIds(fleet: Fleet, sys: System, d: string, high: nat)
    requires Distinct(fleet) && LogSealed(fleet, sys) && d in sys.nodes
    ensures forall w :: SealedHere(fleet(d), sys.nodes[d].client.drawn, high, w) ==> !Server.Stored(sys.log, w.id)
  {
    hide Distinct, LogSealed, Server.Stored, SealedHere;
    forall w | SealedHere(fleet(d), sys.nodes[d].client.drawn, high, w) ensures !Server.Stored(sys.log, w.id) {
      FreshIdsUnstored(fleet, sys, d, w, high);
    }
  }

  lemma SameKnows(env: Env, c: Client, next: Client, log: seq<Wire>, n: nat, missed: set<nat>)
    requires Knows(env, c, log, n, missed)
    requires next.shadows == c.shadows && next.parked == c.parked
    ensures Knows(env, next, log, n, missed)
  {
  }

  /** A local step that lands nothing: new records behind the others, and no change in what is known. */
  lemma LocalEffect(env: Env, c: Client, log: seq<Wire>, missed: set<nat>, off: set<Key>, step: Step)
    requires Sound(c, off) && Knows(env, c, log, c.watermark, missed) && IsLocal(step) && !step.Retry?
    ensures var next := Next(env, c, step);
            Knows(env, next, log, next.watermark, missed) && Grows(env, c, next) && Appends(c, next)
  {
    hide MaxVersion, Newest, Ordered, Enqueue, Reconcile, Lists, Grows, Knows, Sound;
    OrderedOf(c, off);
    match step
    case Write(key, row, deletedAt, now) => WriteEffect(env, c, log, missed, key, row, deletedAt, now);
    case Unobserved(key, row) =>
      RowsGrow(env, c, Next(env, c, step).rows);
      SameKnows(env, c, Next(env, c, step), log, c.watermark, missed);
    case Use(key, now) =>
      RowsGrow(env, c, Next(env, c, step).rows);
      SameKnows(env, c, Next(env, c, step), log, c.watermark, missed);
    case CatchUp(entities, keys, now, access) => CatchUpEffect(env, c, log, missed, entities, keys, now, access);
  }

  lemma RetryEffect(env: Env, c: Client, log: seq<Wire>, missed: set<nat>, off: set<Key>, now: int, access: Access)
    requires Sound(c, off) && Knows(env, c, log, c.watermark, missed) && Server.Contiguous(log)
    ensures var next := Next(env, c, Step.Retry(now, access));
            Knows(env, next, log, next.watermark, missed) && Grows(env, c, next) && ShadowsAdvance(c, next)
  {
    hide MaxVersion, Newest, Ordered, RetryAll, Grows, Knows, Sound, Server.Contiguous;
    OrderedOf(c, off);
    DistinctLog(log);
    ParkedRefs(env, c, log, missed);
    KnowsAnyAccess(env, access, c, log, c.watermark, missed);
    RetryKnown(With(env, access), c, c.parked, log, c.watermark, missed, now);
    RetryKeepsBasis(With(env, access), c, c.parked, now);
    var next := Next(env, c, Step.Retry(now, access));
    KnowsAnyAccess(env, access, next, log, c.watermark, missed);
    GrowsAnyAccess(env, access, c, next);
  }

  /** What a device knows of the log, and which records are its own, is not a matter of keys. */
  lemma KnowsAnyAccess(env: Env, access: Access, c: Client, log: seq<Wire>, n: nat, missed: set<nat>)
    ensures Knows(With(env, access), c, log, n, missed) <==> Knows(env, c, log, n, missed)
  {
    hide Coherent, Covered, ParkedInLog;
  }

  lemma GrowsAnyAccess(env: Env, access: Access, c: Client, next: Client)
    ensures Grows(With(env, access), c, next) <==> Grows(env, c, next)
  {
    hide Known, Storable;
    assert forall w :: SealedHere(With(env, access), c.drawn, next.drawn, w)
                       <==> SealedHere(env, c.drawn, next.drawn, w);
  }

  lemma OrderedOf(c: Client, off: set<Key>)
    requires Sound(c, off)
    ensures Ordered(c.outbox)
  {
  }

  lemma DistinctLog(log: seq<Wire>)
    requires Server.Contiguous(log)
    ensures forall i, j :: 0 <= i < j < |log| ==> log[i].id != log[j].id
  {
  }

  lemma ParkedRefs(env: Env, c: Client, log: seq<Wire>, missed: set<nat>)
    requires Knows(env, c, log, c.watermark, missed)
    ensures forall p :: p in c.parked ==> 0 < p.serverSeq <= |log| && log[p.serverSeq - 1] == p.wire
  {
  }

  lemma WriteEffect(env: Env, c: Client, log: seq<Wire>, missed: set<nat>, key: Key, row: Option<Doc>,
                    deletedAt: Option<int>, now: int)
    requires Ordered(c.outbox) && Knows(env, c, log, c.watermark, missed)
    ensures var next := Next(env, c, Write(key, row, deletedAt, now));
            Knows(env, next, log, next.watermark, missed) && Grows(env, c, next) && Appends(c, next)
  {
    hide MaxVersion, Newest, Ordered, Enqueue, Grows, Knows, Written;
    var rows := Written(c.rows, key, row);
    var next := Next(env, c, Write(key, row, deletedAt, now));
    RowsGrow(env, c, rows);
    match Enqueue(env, c.(rows := rows), key, deletedAt, now) {
      case Ok(r) =>
        EnqueueEffect(env, c.(rows := rows), key, deletedAt, now, r.0, r.1);
        EnqueueSealsHere(env, c.(rows := rows), key, deletedAt, now, r.0, r.1);
        GrowsTransitive(env, c, c.(rows := rows), r.0);
      case Err(_) =>
        SameOutboxGrows(env, c, c);
    }
    SameKnows(env, c, next, log, c.watermark, missed);
  }

  lemma CatchUpEffect(env: Env, c: Client, log: seq<Wire>, missed: set<nat>, entities: seq<Key>, keys: seq<Key>,
                      now: int, access: Access)
    requires Ordered(c.outbox) && Knows(env, c, log, c.watermark, missed)
    ensures var next := Next(env, c, CatchUp(entities, keys, now, access));
            Knows(env, next, log, next.watermark, missed) && Grows(env, c, next) && Appends(c, next)
  {
    hide MaxVersion, Newest, Ordered, Reconcile, Lists, Grows, Knows, With;
    var (current, next) := (With(env, access), Next(env, c, CatchUp(entities, keys, now, access)));
    SameOutboxGrows(env, c, c);
    if Lists(c, entities, keys) && Reconcile(current, c, entities, keys, now).Ok? {
      var r := Reconcile(current, c, entities, keys, now).value;
      ReconcileRestores(current, c, entities, keys, now, r.0, r.1, Key(Tag, ""));
      ReconcileGrows(current, c, entities, keys, now, r.0, r.1);
      GrowsAnyAccess(env, access, c, next);
    }
    SameKnows(env, c, next, log, c.watermark, missed);
  }

  // ----- the moves keep it -----

  /** Only one node changes, the log is the same: the rest of the system is untouched. */
  lemma NodeReplaced(fleet: Fleet, sys: System, d: string, node: Node)
    requires SystemOk(fleet, sys) && d in sys.nodes
    requires NodeOk(fleet(d), node, sys.log) && sys.nodes[d].client.drawn <= node.client.drawn
    ensures SystemOk(fleet, sys.(nodes := sys.nodes[d := node]))
  {
    hide NodeOk, Server.Contiguous;
  }

  lemma LocalKeepsSystem(fleet: Fleet, sys: System, d: string, step: Step)
    requires Distinct(fleet) && SystemOk(fleet, sys) && d in sys.nodes && IsLocal(step) && !step.Retry?
    ensures SystemOk(fleet, Moved(fleet, sys, Local(d, step)))
  {
    hide Distinct, Server.Contiguous, Knows, Wired, Sound, Grows, Appends, LogSealed, Next, Off;
    var env := fleet(d);
    var node := sys.nodes[d];
    StepSound(env, node.client, node.off, step);
    LocalEffect(env, node.client, sys.log, node.missed, node.off, step);
    var next := Next(env, node.client, step);
    FreshIds(fleet, sys, d, next.drawn);
    AppendKeepsWire(env, node.client, next, sys.log, node.missed, node.flight);
    GrowsDrawn(env, node.client, next);
    NodeReplaced(fleet, sys, d, Advance(env, node, step));
  }

  /** Whatever lands records, once every answer is in. */
  lemma LandingKeepsSystem(fleet: Fleet, sys: System, d: string, step: Step, given: set<nat>)
    requires Distinct(fleet) && SystemOk(fleet, sys) && d in sys.nodes
    requires Answered(sys.nodes[d].client, sys.log, sys.nodes[d].flight)
    requires var (c, next) := (sys.nodes[d].client, Next(fleet(d), sys.nodes[d].client, step));
             && Knows(fleet(d), next, sys.log, next.watermark, sys.nodes[d].missed + given)
             && Grows(fleet(d), c, next) && ShadowsAdvance(c, next)
    ensures SystemOk(fleet, sys.(nodes := sys.nodes[d := Landing(fleet(d), sys.nodes[d], step, given, sys.log)]))
  {
    hide Distinct, Server.Contiguous, Knows, Wired, Sound, Grows, LogSealed, Next, Off, Answered, ShadowsAdvance,
         Dropped;
    var env := fleet(d);
    var node := sys.nodes[d];
    StepSound(env, node.client, node.off, step);
    var next := Next(env, node.client, step);
    FreshIds(fleet, sys, d, next.drawn);
    LandingKeepsWire(env, node.client, next, sys.log, node.missed, given, node.flight);
    KnowsLess(env, next, sys.log, next.watermark, node.missed + given, Dropped(node.client, next, sys.log));
    GrowsDrawn(env, node.client, next);
    NodeReplaced(fleet, sys, d, Landing(env, node, step, given, sys.log));
  }

  lemma KnowsLess(env: Env, c: Client, log: seq<Wire>, n: nat, missed: set<nat>, more: set<nat>)
    requires Knows(env, c, log, n, missed)
    ensures Knows(env, c, log, n, missed + more)
  {
    hide Replay;
  }

  lemma RetryKeepsSystem(fleet: Fleet, sys: System, d: string, now: int, access: Access)
    requires Distinct(fleet) && SystemOk(fleet, sys) && d in sys.nodes
    ensures SystemOk(fleet, Moved(fleet, sys, Local(d, Step.Retry(now, access))))
  {
    hide Distinct, Server.Contiguous, Knows, Wired, Sound, Grows, LogSealed, Next, Off, Answered, ShadowsAdvance;
    var node := sys.nodes[d];
    if Answered(node.client, sys.log, node.flight) {
      RetryEffect(fleet(d), node.client, sys.log, node.missed, node.off, now, access);
      assert node.missed + {} == node.missed;
      LandingKeepsSystem(fleet, sys, d, Step.Retry(now, access), {});
    }
  }

  lemma GrowsDrawn(env: Env, c: Client, next: Client)
    requires Grows(env, c, next)
    ensures c.drawn <= next.drawn
  {
  }

  lemma PullKeepsSystem(fleet: Fleet, sys: System, d: string, count: nat, now: int, access: Access)
    requires Distinct(fleet) && SystemOk(fleet, sys) && d in sys.nodes
    ensures SystemOk(fleet, Moved(fleet, sys, Pull(d, count, now, access)))
  {
    hide Server.Contiguous, Wired, Sound, Grows, LogSealed, Off, MissedIn, ApplyPage, Answered, ShadowsAdvance, Dropped;
    var env := fleet(d);
    var node := sys.nodes[d];
    var c := node.client;
    if c.watermark <= |sys.log| && Answered(c, sys.log, node.flight) {
      var left := |sys.log| - c.watermark;
      var size := if count <= left then count else left;
      var page := Slice(sys.log, c.watermark, size);
      if page != [] {
        PullEffect(env, c, sys.log, size, node.missed, node.off, now, access);
        LandingKeepsSystem(fleet, sys, d, Step.Page(page, now, access), PullMissed(With(env, access), c, page, now));
      }
    }
  }

  lemma PullEffect(env: Env, c: Client, log: seq<Wire>, size: nat, missed: set<nat>, off: set<Key>, now: int,
                   access: Access)
    requires Sound(c, off) && Knows(env, c, log, c.watermark, missed) && Server.Contiguous(log)
    requires c.watermark + size <= |log|
    ensures var page := Slice(log, c.watermark, size);
            var next := Next(env, c, Step.Page(page, now, access));
            && Knows(env, next, log, next.watermark, missed + PullMissed(With(env, access), c, page, now))
            && Grows(env, c, next) && ShadowsAdvance(c, next)
  {
    hide MaxVersion, Newest, Ordered, ApplyPage, Grows, Knows, Sound, Server.Contiguous, MissedIn;
    var current := With(env, access);
    OrderedOf(c, off);
    DistinctLog(log);
    var page := Slice(log, c.watermark, size);
    var next := Next(env, c, Step.Page(page, now, access));
    SameOutboxGrows(env, c, c);
    KnowsAnyAccess(env, access, c, log, c.watermark, missed);
    assert missed + {} == missed;
    match ApplyPage(current, c, c.watermark, page, now) {
      case Ok(r) =>
        ReceivePage(current, c, log, c.watermark, size, missed, now, r);
        PageAdvances(current, c, c.watermark, page, now, r);
        SameKnows(current, r.0, r.0.(watermark := r.1), log, r.1, missed + MissedIn(c.watermark, r.2));
        WatermarkGrows(current, c, r.0, r.1);
        GrowsAnyAccess(env, access, c, next);
        KnowsAnyAccess(env, access, next, log, next.watermark, missed + PullMissed(current, c, page, now));
      case Err(_) =>
    }
  }

  lemma WatermarkGrows(env: Env, c: Client, next: Client, watermark: nat)
    requires Grows(env, c, next)
    ensures Grows(env, c, next.(watermark := watermark))
  {
  }

  /** Records another device stored leave this device's knowledge and outbox valid. */
  lemma LogGrew(fleet: Fleet, sys: System, d: string, e: string, added: seq<Wire>)
    requires Distinct(fleet) && LogSealed(fleet, sys) && d in sys.nodes && e in sys.nodes && d != e
    requires NodeOk(fleet(e), sys.nodes[e], sys.log)
    requires forall w :: w in added ==> SealedHere(fleet(d), 0, sys.nodes[d].client.drawn, w)
    ensures NodeOk(fleet(e), sys.nodes[e], sys.log + added)
  {
    hide Sound, SealedHere, Distinct, LogSealed, Knows, Wired;
    var (env, c, log) := (fleet(e), sys.nodes[e].client, sys.log);
    OthersDevice(fleet, d, e, sys.nodes[d].client.drawn, added);
    WiredSealed(env, c, log, sys.nodes[e].missed, sys.nodes[e].flight);
    forall q | q in c.outbox ensures forall w :: w in added ==> w.id != q.wire.id {
      OthersIds(fleet, d, e, sys.nodes[d].client.drawn, c.drawn, added, q.wire);
    }
    OthersKeepWire(env, c, log, added, sys.nodes[e].missed, sys.nodes[e].flight);
    KnowsMore(env, c, log, added, c.watermark, sys.nodes[e].missed);
  }

  lemma WiredSealed(env: Env, c: Client, log: seq<Wire>, missed: set<nat>, flight: Option<Flight>)
    requires Wired(env, c, log, missed, flight)
    ensures forall q :: q in c.outbox ==> SealedHere(env, 0, c.drawn, q.wire)
  {
    hide SealedHere;
  }

  lemma OthersDevice(fleet: Fleet, d: string, e: string, high: nat, added: seq<Wire>)
    requires Distinct(fleet) && d != e && forall w :: w in added ==> SealedHere(fleet(d), 0, high, w)
    ensures forall w :: w in added ==> w.device != fleet(e).device
  {
  }

  lemma OthersIds(fleet: Fleet, d: string, e: string, high: nat, low: nat, added: seq<Wire>, x: Wire)
    requires Distinct(fleet) && d != e && forall w :: w in added ==> SealedHere(fleet(d), 0, high, w)
    requires SealedHere(fleet(e), 0, low, x)
    ensures forall w :: w in added ==> w.id != x.id
  {
    var m: nat :| 0 <= m < low && fleet(e).uuid(m) == x.id;
    forall w | w in added ensures w.id != x.id {
      var n: nat :| 0 <= n < high && fleet(d).uuid(n) == w.id;
    }
  }

  lemma KnowsMore(env: Env, c: Client, log: seq<Wire>, added: seq<Wire>, n: nat, missed: set<nat>)
    requires Knows(env, c, log, n, missed)
    ensures Knows(env, c, log + added, n, missed)
  {
    hide Replay;
    var stored := log + added;
    assert forall i :: 0 <= i < |log| ==> stored[i] == log[i];
  }

  /** The server answers; the batch is stored or refused, and the device does not know yet. */
  lemma SendKeepsSystem(fleet: Fleet, sys: System, d: string, count: nat)
    requires Distinct(fleet) && SystemOk(fleet, sys) && d in sys.nodes
    ensures SystemOk(fleet, Moved(fleet, sys, Send(d, count)))
  {
    hide Server.Contiguous, Distinct, LogSealed, Knows, Wired, Sound, PendingWires, FirstPending, Server.Simulate,
         Server.NewRecords, Server.Results;
    var (env, node) := (fleet(d), sys.nodes[d]);
    var c := node.client;
    var batch := FirstPending(c, count);
    if batch != [] {
      OrderedOf(c, node.off);
      KnowsCoherent(env, c, sys.log, c.watermark, node.missed);
      SendKeepsWire(env, c, sys.log, node.missed, node.flight, batch);
      var (stored, answer) := Server.Push(sys.log, batch);
      var added := if answer.Accepted? then Server.NewRecords(sys.log, batch) else [];
      assert stored == sys.log + added;
      WiredSealed(env, c, sys.log, node.missed, node.flight);
      forall w | w in added ensures SealedHere(env, 0, c.drawn, w) {
        assert w in PendingWires(c.outbox);
      }
      KnowsMore(env, c, sys.log, added, c.watermark, node.missed);
      StoredSystem(fleet, sys, d, added, node.(flight := Some(Flight(batch, answer))));
    }
  }

  lemma KnowsCoherent(env: Env, c: Client, log: seq<Wire>, n: nat, missed: set<nat>)
    requires Knows(env, c, log, n, missed)
    ensures Coherent(c, log)
  {
  }

  lemma StoredSystem(fleet: Fleet, sys: System, d: string, added: seq<Wire>, node: Node)
    requires Distinct(fleet) && SystemOk(fleet, sys) && d in sys.nodes && Server.Contiguous(sys.log + added)
    requires forall w :: w in added ==> SealedHere(fleet(d), 0, sys.nodes[d].client.drawn, w)
    requires NodeOk(fleet(d), node, sys.log + added) && node.client.drawn == sys.nodes[d].client.drawn
    ensures SystemOk(fleet, System(sys.log + added, sys.nodes[d := node]))
  {
    hide Server.Contiguous, NodeOk;
    var next := System(sys.log + added, sys.nodes[d := node]);
    forall e | e in next.nodes ensures NodeOk(fleet(e), next.nodes[e], next.log) {
      if e != d {
        LogGrew(fleet, sys, d, e, added);
      }
    }
    forall i | 0 <= i < |next.log|
      ensures next.log[i].device in next.nodes
           && SealedHere(fleet(next.log[i].device), 0, next.nodes[next.log[i].device].client.drawn, next.log[i])
    {
      if i < |sys.log| {
        assert next.log[i] == sys.log[i];
      } else {
        assert next.log[i] in added;
      }
    }
  }

  /** The answer arrives, after whatever was written here and stored by others meanwhile. */
  lemma AnswerKeepsSystem(fleet: Fleet, sys: System, d: string)
    requires Distinct(fleet) && SystemOk(fleet, sys) && d in sys.nodes
    ensures SystemOk(fleet, Moved(fleet, sys, Answer(d)))
  {
    hide Server.Contiguous, Distinct, LogSealed, NodeOk, Heard;
    var node := sys.nodes[d];
    if node.flight.Some? {
      match node.flight.value.answer {
        case Accepted(results) => AcceptedNode(fleet(d), node, sys.log, node.flight.value.batch, results);
        case VersionConflict(heads) => RefusedNode(fleet(d), node, sys.log, heads);
      }
      NodeReplaced(fleet, sys, d, Heard(fleet(d), node, node.flight.value));
    }
  }

  lemma AcceptedNode(env: Env, node: Node, log: seq<Wire>, batch: seq<Wire>, results: seq<PushResult>)
    requires NodeOk(env, node, log) && node.flight == Some(Flight(batch, Server.Accepted(results)))
    ensures NodeOk(env, Heard(env, node, node.flight.value), log)
    ensures Heard(env, node, node.flight.value).client.drawn == node.client.drawn
  {
    hide Knows, Sound, Off, AckedTo, SettledTo, Ack, PendingWires, OwnCovered, Outstanding;
    var c := node.client;
    OrderedOf(c, node.off);
    StepSound(env, c, node.off, Step.Accepted(batch, results));
    AckStart(c, batch);
    WiredSealed(env, c, log, node.missed, node.flight);
    forall i | 0 <= i < |batch| ensures batch[i].version <= I64_MAX {
      assert PendingWires(c.outbox)[i] == batch[i] && batch[i] in PendingWires(c.outbox);
      var q :| q in c.outbox && q.wire == batch[i];
    }
    AckAll(c, batch, results, |batch|);
    assert results[..|batch|] == results;
    var next := Ack(c, batch, results).value;
    AcceptedKeepsWire(env, c, log, c.watermark, node.missed, batch, results, next);
    AckedShape(c, batch, next);
  }

  lemma AckedShape(c: Client, batch: seq<Wire>, next: Client)
    requires AckedTo(c, batch, |batch|, next)
    ensures next == c.(outbox := next.outbox, shadows := next.shadows)
  {
  }

  lemma RefusedNode(env: Env, node: Node, log: seq<Wire>, heads: seq<Key>)
    requires NodeOk(env, node, log) && node.flight.Some? && node.flight.value.answer == Server.VersionConflict(heads)
    ensures NodeOk(env, Heard(env, node, node.flight.value), log)
    ensures Heard(env, node, node.flight.value).client.drawn == node.client.drawn
  {
    hide Knows, Sound, Off, MarkHeads, Wired;
    var next := Next(env, node.client, Step.Conflict(heads));
    StepSound(env, node.client, node.off, Step.Conflict(heads));
    RefusedKeepsWire(env, node.client, log, node.missed, node.flight, heads);
    SameKnows(env, node.client, next, log, next.watermark, node.missed);
  }

  // ----- runs -----

  ghost function SystemRun(fleet: Fleet, sys: System, moves: seq<Move>): System {
    if moves == [] then sys
    else Moved(fleet, SystemRun(fleet, sys, moves[..|moves| - 1]), moves[|moves| - 1])
  }

  /** Every interleaving of local changes, sent batches, answers and pulls, with any answer late or lost and
      any keys at any time, keeps the system invariant. */
  lemma {:induction false} RunsKeepSystem(fleet: Fleet, sys: System, moves: seq<Move>)
    requires Distinct(fleet) && SystemOk(fleet, sys)
    ensures SystemOk(fleet, SystemRun(fleet, sys, moves))
  {
    hide Distinct, SystemOk, Moved;
    if moves != [] {
      RunsKeepSystem(fleet, sys, moves[..|moves| - 1]);
      MoveKeepsSystem(fleet, SystemRun(fleet, sys, moves[..|moves| - 1]), moves[|moves| - 1]);
    }
  }

  lemma MoveKeepsSystem(fleet: Fleet, sys: System, move: Move)
    requires Distinct(fleet) && SystemOk(fleet, sys)
    ensures SystemOk(fleet, Moved(fleet, sys, move))
  {
    hide Distinct, SystemOk;
    if move.device in sys.nodes {
      match move
      case Local(d, step) =>
        if step.Retry? {
          RetryKeepsSystem(fleet, sys, d, step.now, step.access);
        } else if IsLocal(step) {
          LocalKeepsSystem(fleet, sys, d, step);
        }
      case Send(d, count) => SendKeepsSystem(fleet, sys, d, count);
      case Answer(d) => AnswerKeepsSystem(fleet, sys, d);
      case Pull(d, count, now, access) => PullKeepsSystem(fleet, sys, d, count, now, access);
    }
  }

  // ----- convergence -----

  /** The document of the entity's last stored record, or none. */
  function HeadDoc(log: seq<Wire>, key: Key): Option<Doc> {
    if log == [] then None
    else if log[|log| - 1].key == key then BodyDoc(log[|log| - 1].body)
    else HeadDoc(log[..|log| - 1], key)
  }

  lemma {:induction false} HeadIsLast(log: seq<Wire>, key: Key)
    ensures (forall i :: 0 <= i < |log| ==> log[i].key != key) ==> HeadDoc(log, key) == None
    ensures (exists i :: 0 <= i < |log| && log[i].key == key)
            ==> exists i :: 0 <= i < |log| && log[i].key == key && HeadDoc(log, key) == BodyDoc(log[i].body)
                            && forall j :: i < j < |log| ==> log[j].key != key
  {
    if log != [] {
      var n := |log| - 1;
      if log[n].key == key {
        assert HeadDoc(log, key) == BodyDoc(log[n].body);
      } else {
        HeadIsLast(log[..n], key);
        if i :| 0 <= i < |log| && log[i].key == key {
          assert log[..n][i].key == key;
          var l :| 0 <= l < n && log[..n][l].key == key && HeadDoc(log[..n], key) == BodyDoc(log[..n][l].body)
                   && forall j :: l < j < n ==> log[..n][j].key != key;
          forall j | l < j < |log| ensures log[j].key != key {
            if j < n {
              assert log[..n][j].key != key;
            }
          }
          assert log[l].key == key;
        }
      }
    }
  }

  /** The device has nothing of the entity left to send, park or pull, and gave up on nothing of it that
      was not replaced since. */
  ghost predicate Quiet(node: Node, log: seq<Wire>, key: Key) {
    && Newest(node.client.outbox, key, QUEUED).None?
    && node.client.watermark == |log|
    && (forall p :: p in node.client.parked ==> p.wire.key != key)
    && (forall i :: i in node.missed && i < |log| && log[i].key == key ==> Replay(node.client, log[i]))
  }

  /** Every stored record of a quiet entity has reached the shadow. */
  lemma QuietReached(env: Env, node: Node, log: seq<Wire>, key: Key)
    requires NodeOk(env, node, log) && Quiet(node, log, key)
    ensures forall i :: 0 <= i < |log| && log[i].key == key ==> Replay(node.client, log[i])
    ensures Coherent(node.client, log)
  {
    hide Newest, MaxVersion, Sound, Sends, Outstanding, OnWire, Replay, Coherent;
    var c := node.client;
    forall i | 0 <= i < |log| && log[i].key == key ensures Replay(c, log[i]) {
      var p := Pulled(log[i], i + 1);
      assert p.wire.key == log[i].key;
    }
  }

  /** So the shadow is the last one of them. */
  lemma ReachedShadow(c: Client, log: seq<Wire>, key: Key)
    requires Server.Contiguous(log) && Coherent(c, log)
    requires forall i :: 0 <= i < |log| && log[i].key == key ==> Replay(c, log[i])
    ensures (if key in c.shadows then c.shadows[key].doc else None) == HeadDoc(log, key)
  {
    hide Server.HeadVersion, Server.Contiguous, HeadDoc;
    HeadIsLast(log, key);
    if key in c.shadows {
      var i :| 0 <= i < |log| && log[i].key == key && c.shadows[key] == Shadow(log[i].version, BodyDoc(log[i].body));
      var l :| 0 <= l < |log| && log[l].key == key && HeadDoc(log, key) == BodyDoc(log[l].body)
               && forall j :: l < j < |log| ==> log[j].key != key;
      if i < l {
        Server.VersionsAscend(log, i, l);
      }
    } else {
      assert forall i :: 0 <= i < |log| ==> log[i].key != key;
    }
  }

  /** Convergence: after any run, a device that is quiet about an entity shows the server's latest state
      of it if and only if the entity is at its basis, as it is unless the ledger names it. Two quiet
      devices with the entity at its basis therefore show the same. */
  lemma QuietDevicesConverge(fleet: Fleet, sys: System, moves: seq<Move>, d: string, e: string, key: Key)
    requires Distinct(fleet) && SystemOk(fleet, sys)
    ensures var end := SystemRun(fleet, sys, moves);
            && (d in end.nodes && Quiet(end.nodes[d], end.log, key)
                ==> (View(end.nodes[d].client, key) == HeadDoc(end.log, key) <==> BasisAt(end.nodes[d].client, key)))
            && (d in end.nodes && key !in end.nodes[d].off ==> BasisAt(end.nodes[d].client, key))
            && (d in end.nodes && e in end.nodes && Quiet(end.nodes[d], end.log, key)
                && Quiet(end.nodes[e], end.log, key)
                && BasisAt(end.nodes[d].client, key)
                ==> (View(end.nodes[d].client, key) == View(end.nodes[e].client, key)
                     <==> BasisAt(end.nodes[e].client, key)))
  {
    hide Server.Contiguous, Distinct, LogSealed, NodeOk, SystemRun, HeadDoc, Quiet, View, Basis;
    RunsKeepSystem(fleet, sys, moves);
    var end := SystemRun(fleet, sys, moves);
    if d in end.nodes {
      LedgerHolds(fleet(d), end.nodes[d], end.log, key);
      if Quiet(end.nodes[d], end.log, key) {
        QuietBasis(fleet(d), end.nodes[d], end.log, key);
      }
    }
    if e in end.nodes && Quiet(end.nodes[e], end.log, key) {
      QuietBasis(fleet(e), end.nodes[e], end.log, key);
    }
  }

  lemma LedgerHolds(env: Env, node: Node, log: seq<Wire>, key: Key)
    requires NodeOk(env, node, log)
    ensures key !in node.off ==> BasisAt(node.client, key)
  {
    hide Knows, Wired, Basis;
  }

  /** What a quiet device counts as the entity's state is the server's latest. */
  lemma QuietBasis(env: Env, node: Node, log: seq<Wire>, key: Key)
    requires NodeOk(env, node, log) && Server.Contiguous(log) && Quiet(node, log, key)
    ensures Basis(node.client, key) == HeadDoc(log, key)
  {
    hide Server.Contiguous, Knows, Wired, HeadDoc, Coherent, Replay;
    QuietReached(env, node, log, key);
    ReachedShadow(node.client, log, key);
  }

  /** The system starts empty: no stored records, no rows, nothing queued on any device. */
  function EmptyClient(): Client {
    Client(map[], [], map[], [], 0, 0)
  }

  lemma EmptySystemOk(fleet: Fleet, devices: set<string>)
    requires Distinct(fleet)
    ensures SystemOk(fleet, System([], map d | d in devices :: Node(EmptyClient(), {}, {}, None)))
  {
  }
}
