/** The engine as it runs: one object whose tables the phases of a sync round update in place, each
    method proved against the value-level functions. */
module SyncEngine {
  import opened Wrappers
  import opened Merge
  import opened SyncModel
  import opened SyncOutbox
  import opened SyncBasis
  import opened SyncRuns
  import opened SyncPull
  import opened SyncReconcile
  import opened SyncGrowth
  import opened SyncSystem
  import opened SyncPushed
  import opened SyncTrace
  import opened SyncRounds
  import Server = SyncServer

  const MAX_PUSH_RECORDS: nat := 500
  const MAX_PUSH_BYTES: nat := 4 * 1024 * 1024
  const PULL_PAGE_LIMIT: nat := 100
  const MERGE_ROUNDS_MAX: nat := 4

  // ----- the server behind the transport -----

  /** The record log one account shares. Requests may fail without effect. */
  class RecordServer {
    var log: seq<Wire>

    constructor ()
      ensures log == []
    {
      log := [];
    }

    /** Two passes: simulate the batch against the stored heads, then insert it in order. */
    method PushRecords(batch: seq<Wire>) returns (answer: Server.Answer)
      modifies this
      ensures (log, answer) == Server.Push(old(log), batch)
    {
      hide Server.HeadVersion, Server.Stored, Server.SeqOf, Server.Simulate, Server.NewRecords;
      var heads: map<Key, nat> := map[];
      var conflicts: seq<Key> := [];
      PassesStart(log, batch);
      for i := 0 to |batch|
        invariant log == old(log) && (heads, conflicts) == Server.Simulate(log, batch[..i])
      {
        assert batch[..i + 1] == batch[..i] + [batch[i]];
        Server.BothPasses(log, batch[..i], batch[i]);
        var w := batch[i];
        if !Server.Stored(log, w.id) {
          if w.key !in heads {
            heads := heads[w.key := Server.HeadVersion(log, w.key)];
          }
          if w.version != heads[w.key] + 1 {
            conflicts := if w.key in conflicts then conflicts else conflicts + [w.key];
          } else {
            heads := heads[w.key := heads[w.key] + 1];
          }
        }
      }
      assert batch[..|batch|] == batch;
      if conflicts != [] {
        return Server.VersionConflict(conflicts);
      }
      var before := log;
      for i := 0 to |batch|
        invariant log == before + Server.NewRecords(before, batch[..i])
      {
        assert batch[..i + 1] == batch[..i] + [batch[i]];
        Server.BothPasses(before, batch[..i], batch[i]);
        if !Server.Stored(before, batch[i].id) {
          log := log + [batch[i]];
        }
      }
      answer := Server.Accepted(Server.Results(log, batch));
    }

    /** One page after a sequence number, and whether more follows. */
    method PullRecords(since: nat, limit: nat) returns (page: seq<Pulled>, hasMore: bool)
      requires limit > 0
      ensures since <= |log| ==> page == Slice(log, since, if |log| - since <= limit then |log| - since else limit)
      ensures since > |log| ==> page == []
      ensures hasMore <==> since + limit < |log|
    {
      if since > |log| {
        return [], false;
      }
      var size := if |log| - since <= limit then |log| - since else limit;
      page := Slice(log, since, size);
      hasMore := since + limit < |log|;
    }
  }

  lemma PassesStart(log: seq<Wire>, batch: seq<Wire>)
    ensures Server.Simulate(log, batch[..0]) == (map[], []) && Server.NewRecords(log, batch[..0]) == []
  {
  }

  // ----- counting what is pending -----

  function PendingCount(outbox: seq<Queued>): nat {
    if outbox == [] then 0
    else PendingCount(outbox[..|outbox| - 1]) + (if outbox[|outbox| - 1].stage == Pending then 1 else 0)
  }

  /** Turning some pending rows into settled or parked ones, and nothing into pending ones. */
  ghost predicate OnlySettles(before: seq<Queued>, after: seq<Queued>) {
    |before| == |after| && forall i :: 0 <= i < |before| ==> after[i].stage == Pending ==> before[i].stage == Pending
  }

  lemma {:induction false} SettlingCounts(before: seq<Queued>, after: seq<Queued>)
    requires OnlySettles(before, after)
    ensures PendingCount(after) <= PendingCount(before)
    ensures (exists i :: 0 <= i < |before| && before[i].stage == Pending && after[i].stage != Pending)
            ==> PendingCount(after) < PendingCount(before)
  {
    if before != [] {
      var n := |before| - 1;
      assert OnlySettles(before[..n], after[..n]);
      SettlingCounts(before[..n], after[..n]);
      if i :| 0 <= i < |before| && before[i].stage == Pending && after[i].stage != Pending {
        if i < n {
          assert before[..n][i].stage == Pending && after[..n][i].stage != Pending;
        }
      }
    }
  }

  lemma {:induction false} CountZero(outbox: seq<Queued>)
    ensures PendingCount(outbox) == 0 <==> forall q :: q in outbox ==> q.stage != Pending
  {
    if outbox != [] {
      CountZero(outbox[..|outbox| - 1]);
      assert outbox == outbox[..|outbox| - 1] + [outbox[|outbox| - 1]];
    }
  }

  lemma AckCounts(outbox: seq<Queued>, id: string, serverSeq: int)
    requires MarkApplied(outbox, id, serverSeq).Ok?
    ensures PendingCount(MarkApplied(outbox, id, serverSeq).value) < PendingCount(outbox)
  {
    var after := MarkApplied(outbox, id, serverSeq).value;
    var q :| q in outbox && q.wire.id == id && q.stage == Pending;
    var i :| 0 <= i < |outbox| && outbox[i] == q;
    assert after[i].stage != Pending;
    SettlingCounts(outbox, after);
  }

  /** Every answer that acknowledges anything shrinks the pending queue; an empty one leaves it. */
  lemma {:induction false} AckProgress(c: Client, batch: seq<Wire>, results: seq<PushResult>, next: Client)
    requires Ack(c, batch, results) == Ok(next)
    ensures PendingCount(next.outbox) <= PendingCount(c.outbox)
    ensures PendingCount(next.outbox) < PendingCount(c.outbox) <==> results != []
    ensures results == [] ==> next == c
  {
    hide MarkApplied;
    if results != [] {
      var before := Ack(c, batch, results[..|results| - 1]).value;
      AckProgress(c, batch, results[..|results| - 1], before);
      var result := results[|results| - 1];
      AckCounts(before.outbox, result.id, result.serverSeq);
    }
  }

  lemma MarkCounts(outbox: seq<Queued>, key: Key)
    ensures PendingCount(MarkConflicted(outbox, key)) <= PendingCount(outbox)
    ensures Holds(outbox, key, Pending) ==> PendingCount(MarkConflicted(outbox, key)) < PendingCount(outbox)
    ensures !Holds(outbox, key, Pending) ==> MarkConflicted(outbox, key) == outbox
  {
    var after := MarkConflicted(outbox, key);
    if Holds(outbox, key, Pending) {
      var q :| q in outbox && q.wire.key == key && q.stage == Pending;
      var i :| 0 <= i < |outbox| && outbox[i] == q;
      assert after[i].stage != Pending;
    } else {
      assert forall i :: 0 <= i < |outbox| ==> outbox[i] in outbox;
    }
    SettlingCounts(outbox, after);
  }

  lemma {:induction false} MarkHeadsHolds(outbox: seq<Queued>, heads: seq<Key>, key: Key)
    requires key !in heads
    ensures Holds(MarkHeads(outbox, heads), key, Pending) <==> Holds(outbox, key, Pending)
  {
    if heads != [] {
      var n := |heads| - 1;
      var before := MarkHeads(outbox, heads[..n]);
      MarkHeadsHolds(outbox, heads[..n], key);
      assert heads[n] in heads;
      var after := MarkConflicted(before, heads[n]);
      if q :| q in before && q.wire.key == key && q.stage == Pending {
        var i :| 0 <= i < |before| && before[i] == q;
        assert after[i] == q;
      }
      if q :| q in after && q.wire.key == key && q.stage == Pending {
        var i :| 0 <= i < |after| && after[i] == q;
        assert before[i] == q;
      }
    }
  }

  /** Some of these entities have something pending. */
  ghost predicate NamesPending(outbox: seq<Queued>, heads: seq<Key>) {
    exists k :: k in heads && Holds(outbox, k, Pending)
  }

  lemma NamesOneMore(outbox: seq<Queued>, heads: seq<Key>, key: Key)
    ensures NamesPending(outbox, heads + [key]) <==> NamesPending(outbox, heads) || Holds(outbox, key, Pending)
    ensures key in heads && Holds(outbox, key, Pending) ==> NamesPending(outbox, heads)
  {
    hide Holds;
    assert forall k :: k in heads + [key] <==> k in heads || k == key;
  }

  lemma ProgressOneMore(outbox: seq<Queued>, heads: seq<Key>, key: Key, count: nat)
    requires PendingCount(MarkHeads(outbox, heads)) <= count == PendingCount(outbox)
    requires PendingCount(MarkHeads(outbox, heads)) < count <==> NamesPending(outbox, heads)
    requires !NamesPending(outbox, heads) ==> MarkHeads(outbox, heads) == outbox
    ensures var marked := MarkConflicted(MarkHeads(outbox, heads), key);
            && PendingCount(marked) <= count
            && (PendingCount(marked) < count <==> NamesPending(outbox, heads + [key]))
            && (!NamesPending(outbox, heads + [key]) ==> marked == outbox)
  {
    hide PendingCount, Holds, MarkConflicted, NamesPending, MarkHeads;
    MarkCounts(MarkHeads(outbox, heads), key);
    if key !in heads {
      MarkHeadsHolds(outbox, heads, key);
    }
    NamesOneMore(outbox, heads, key);
  }

  /** A 409 answer shrinks the pending queue exactly when it names an entity with something pending.
      One that names none leaves the database as it was, so the push loop sends the same batch again:
      nothing bounds that loop against such a server. */
  lemma {:induction false} ConflictProgress(outbox: seq<Queued>, heads: seq<Key>)
    ensures PendingCount(MarkHeads(outbox, heads)) <= PendingCount(outbox)
    ensures PendingCount(MarkHeads(outbox, heads)) < PendingCount(outbox) <==> NamesPending(outbox, heads)
    ensures !NamesPending(outbox, heads) ==> MarkHeads(outbox, heads) == outbox
  {
    hide PendingCount, Holds, MarkConflicted;
    if heads != [] {
      var n := |heads| - 1;
      ConflictProgress(outbox, heads[..n]);
      ProgressOneMore(outbox, heads[..n], heads[n], PendingCount(outbox));
      assert heads == heads[..n] + [heads[n]];
    }
  }

  // ----- records that only settle the queue -----

  /** A record that is not merged leaves the outbox alone. */
  lemma PlainKeepsOutbox(env: Env, c: Client, p: Pulled, now: int, next: Client, fate: Fate)
    requires ApplyOne(env, c, p, now, true) == Ok((next, fate)) && !fate.MergedIn?
    ensures next.outbox == c.outbox
  {
    hide MaxVersion, Newest, MergeConflicted, ApplyDocument, ApplyTombstone;
  }

  /** A page moves the merge counter up, and leaves both it and the outbox alone when nothing merges. */
  lemma {:induction false} UnmergedPage(env: Env, c: Client, cursor: nat, page: seq<Pulled>, now: int,
                                        r: (Client, nat, seq<Fate>), report: Report)
    requires ApplyPage(env, c, cursor, page, now) == Ok(r) && |r.2| == |page|
    ensures BookPage(report, page, r.2).merged >= report.merged
    ensures BookPage(report, page, r.2).merged == report.merged ==> r.0.outbox == c.outbox
  {
    hide MaxVersion, Newest, ApplyOne;
    if page != [] {
      var n := |page| - 1;
      var before := ApplyPage(env, c, cursor, page[..n], now).value;
      assert before.2 == r.2[..n];
      UnmergedPage(env, c, cursor, page[..n], now, before, report);
      if !r.2[n].MergedIn? {
        PlainKeepsOutbox(env, before.0, page[n], now, r.0, r.2[n]);
      }
    }
  }

  lemma UnmergedRetry(env: Env, c: Client, p: Pulled, now: int)
    requires match RetryOne(env, c, p, now).1 case Retried(fate) => !fate.MergedIn? case _ => true
    ensures RetryOne(env, c, p, now).0.outbox == c.outbox
  {
    hide MaxVersion, Newest, MergeConflicted, ApplyDocument, ApplyTombstone;
  }

  // ----- failures stick -----

  /** A page fails as soon as one of its prefixes does. */
  lemma {:induction false} PageErrorSticks(env: Env, c: Client, cursor: nat, page: seq<Pulled>, now: int, i: nat)
    requires i <= |page| && ApplyPage(env, c, cursor, page[..i], now).Err?
    ensures ApplyPage(env, c, cursor, page, now) == Err(ApplyPage(env, c, cursor, page[..i], now).error)
  {
    hide ApplyOne;
    if i < |page| {
      assert page[..|page| - 1][..i] == page[..i];
      PageErrorSticks(env, c, cursor, page[..|page| - 1], now, i);
    } else {
      assert page[..i] == page;
    }
  }

  lemma {:induction false} AckErrorSticks(c: Client, batch: seq<Wire>, results: seq<PushResult>, i: nat)
    requires i <= |results| && Ack(c, batch, results[..i]).Err?
    ensures Ack(c, batch, results) == Err(Ack(c, batch, results[..i]).error)
  {
    hide AckOne;
    if i < |results| {
      assert results[..|results| - 1][..i] == results[..i];
      AckErrorSticks(c, batch, results[..|results| - 1], i);
    } else {
      assert results[..i] == results;
    }
  }

  lemma {:induction false} LiveErrorSticks(env: Env, c: Client, entities: seq<Key>, now: int, i: nat)
    requires i <= |entities| && ReconcileLive(env, c, entities[..i], now).Err?
    ensures ReconcileLive(env, c, entities, now) == Err(ReconcileLive(env, c, entities[..i], now).error)
  {
    hide Enqueue, Basis;
    if i < |entities| {
      assert entities[..|entities| - 1][..i] == entities[..i];
      LiveErrorSticks(env, c, entities[..|entities| - 1], now, i);
    } else {
      assert entities[..i] == entities;
    }
  }

  lemma {:induction false} GoneErrorSticks(env: Env, c: Client, start: Client, entities: seq<Key>, keys: seq<Key>,
                                           now: int, i: nat)
    requires i <= |keys| && ReconcileGone(env, c, start, entities, keys[..i], now).Err?
    ensures ReconcileGone(env, c, start, entities, keys, now)
            == Err(ReconcileGone(env, c, start, entities, keys[..i], now).error)
  {
    hide Enqueue, TombstoneQueued, GoneLocally;
    if i < |keys| {
      assert keys[..|keys| - 1][..i] == keys[..i];
      GoneErrorSticks(env, c, start, entities, keys[..|keys| - 1], now, i);
    } else {
      assert keys[..i] == keys;
    }
  }

  // ----- the two sweeps, key by key -----

  lemma LiveStart(env: Env, c: Client, now: int)
    ensures ReconcileLive(env, c, [], now) == Ok((c, 0))
  {
  }

  lemma LiveNext(env: Env, c: Client, entities: seq<Key>, now: int, i: nat, at: Client, n: nat)
    requires i < |entities| && ReconcileLive(env, c, entities[..i], now) == Ok((at, n))
    ensures var built := Build(at.rows, entities[i]);
            ReconcileLive(env, c, entities[..i + 1], now)
            == if !built.Built? || Basis(c, entities[i]) == Some(built.doc) then Ok((at, n))
               else match Enqueue(env, at, entities[i], None, now)
                    case Ok(r) => Ok((r.0, n + if r.1 then 1 else 0))
                    case Err(e) => Err(e)
  {
    hide Enqueue, Basis;
    assert entities[..i + 1][..i] == entities[..i];
  }

  lemma GoneStart(env: Env, c: Client, start: Client, entities: seq<Key>, now: int)
    ensures ReconcileGone(env, c, start, entities, [], now) == Ok((start, 0))
  {
  }

  lemma GoneNext(env: Env, c: Client, start: Client, entities: seq<Key>, keys: seq<Key>, now: int, i: nat, at: Client,
                 n: nat)
    requires i < |keys| && ReconcileGone(env, c, start, entities, keys[..i], now) == Ok((at, n))
    ensures var gone := GoneLocally(at.rows, keys[i], now);
            ReconcileGone(env, c, start, entities, keys[..i + 1], now)
            == if keys[i] in entities || TombstoneQueued(c, keys[i]) || gone.None? then Ok((at, n))
               else match Enqueue(env, at, keys[i], gone, now)
                    case Ok(r) => Ok((r.0, n + if r.1 then 1 else 0))
                    case Err(e) => Err(e)
  {
    hide Enqueue, TombstoneQueued, GoneLocally;
    assert keys[..i + 1][..i] == keys[..i];
  }

  function TotalSize(size: Wire -> nat, wires: seq<Wire>): nat {
    if wires == [] then 0 else TotalSize(size, wires[..|wires| - 1]) + size(wires[|wires| - 1])
  }

  // ----- the engine -----

  class Engine {
    var env: Env
    var rows: map<Key, Doc>
    var outbox: seq<Queued>
    var shadows: map<Key, Shadow>
    var parked: seq<Pulled>
    var watermark: nat
    var drawn: nat
    var report: Report

    constructor (env: Env)
      ensures this.env == env
      ensures State() == Client(map[], [], map[], [], 0, 0) && report == NOTHING
    {
      this.env := env;
      rows, outbox, shadows, parked, watermark, drawn := map[], [], map[], [], 0, 0;
      report := NOTHING;
    }

    function State(): Client
      reads this
    {
      Client(rows, outbox, shadows, parked, watermark, drawn)
    }

    /** Rolls the tables back to a savepoint. */
    method Restore(saved: Client)
      modifies this`rows, this`outbox, this`shadows, this`parked, this`watermark, this`drawn
      ensures State() == saved
    {
      rows, outbox, shadows := saved.rows, saved.outbox, saved.shadows;
      parked, watermark, drawn := saved.parked, saved.watermark, saved.drawn;
    }

    // ----- sealing -----

    method EnqueueChange(key: Key, deletedAt: Option<int>, now: int) returns (r: Result<bool, SyncError>)
      modifies this`outbox, this`drawn
      ensures match Enqueue(env, old(State()), key, deletedAt, now)
              case Ok(sealed) => r == Ok(sealed.1) && State() == sealed.0
              case Err(e) => r == Err(e) && State() == old(State())
    {
      hide Newest, MaxVersion;
      var body: Body;
      match deletedAt {
        case Some(at) =>
          if at < 0 {
            return Err(RecordFailure);
          }
          body := Tombstone(at);
        case None =>
          match Build(rows, key) {
            case Built(doc) =>
              if !env.seals(key, doc) {
                return Err(RecordFailure);
              }
              body := Content(doc);
            case _ =>
              return Ok(false);
          }
      }
      var version := NextVersion(State(), key);
      var id := env.uuid(drawn);
      if key.id == "" || version > I64_MAX || exists q :: q in outbox && q.wire.id == id {
        return Err(RepoFailure);
      }
      outbox := outbox + [Queued(Wire(id, key, version, body, now, env.device), Pending, None)];
      drawn := drawn + 1;
      r := Ok(true);
    }

    // ----- one pulled record -----

    method PutShadowBase(w: Wire) returns (ok: bool)
      modifies this`shadows
      ensures ok <==> w.version <= I64_MAX
      ensures State() == if ok then old(State()).(shadows := old(shadows)[w.key := Shadow(w.version, BodyDoc(w.body))])
                         else old(State())
    {
      ok := w.version <= I64_MAX;
      if ok {
        shadows := shadows[w.key := Shadow(w.version, BodyDoc(w.body))];
      }
    }

    /** Adopts the server head and drops the parked conflict. */
    method SettleOn(w: Wire) returns (ok: bool)
      modifies this`shadows, this`outbox
      ensures match Settle(old(State()), w) case Ok(next) => ok && State() == next case Err(_) => !ok
    {
      ok := PutShadowBase(w);
      if ok {
        outbox := ClearConflicts(outbox, w.key);
      }
    }

    /** Adopts the server head and seals the outcome past it. */
    method SettleAndEnqueue(w: Wire, deletedAt: Option<int>, now: int) returns (r: Result<(), SyncError>)
      modifies this`shadows, this`outbox, this`drawn
      ensures match Settle(old(State()), w)
              case Err(_) => r.Err?
              case Ok(settled) =>
                match Enqueue(env, settled, w.key, deletedAt, now)
                case Ok(sealed) => r == Ok(()) && State() == sealed.0
                case Err(_) => r.Err?
    {
      hide Newest, MaxVersion, Enqueue, Settle;
      var settled := SettleOn(w);
      if !settled {
        return Err(RepoFailure);
      }
      var queued := EnqueueChange(w.key, deletedAt, now);
      r := if queued.Ok? then Ok(()) else Err(queued.error);
    }

    /** Materializes the conflict copy and queues it. */
    method CreateConflictCopy(key: Key, localEntity: Doc, now: int) returns (r: Result<string, SyncError>)
      modifies this`rows, this`outbox, this`drawn
      ensures match CreateCopy(env, old(State()), key, localEntity, now)
              case Ok(made) => r == Ok(made.1) && State() == made.0
              case Err(_) => r.Err?
    {
      hide Newest, MaxVersion, ConflictCopy, NextVersion;
      if !env.access.hasKey {
        return Err(MissingKey);
      }
      var copyId := env.uuid(drawn);
      drawn := drawn + 1;
      var folder := if key.kind == Snippet && key in rows then Lookup(rows[key], "folder_id") else Null;
      var copy := ConflictCopy(localEntity, folder, copyId, env.deviceName, now);
      if copy.Err? {
        return Err(RecordFailure);
      }
      match ApplyDocument(env, rows, Key(Snippet, copyId), copy.value) {
        case Err(_) => return Err(RepoFailure);
        case Ok(next) => rows := next;
      }
      var queued := EnqueueChange(Key(Snippet, copyId), None, now);
      match queued {
        case Err(e) => r := Err(e);
        case Ok(_) => r := Ok(copyId);
      }
    }

    /** The edit-against-edit branch of the merge. */
    method ResolveEdits(w: Wire, doc: Doc, local: Doc, localUpdatedAt: int, now: int, makeCopy: bool)
      returns (r: Result<Option<string>, SyncError>)
      modifies this`rows, this`outbox, this`drawn, this`shadows
      ensures match MergeEdits(env, old(State()), w, doc, local, localUpdatedAt, now, makeCopy)
              case Ok(merged) => r == Ok(merged.1) && State() == merged.0
              case Err(_) => r.Err?
    {
      hide Newest, MaxVersion, Merged, Enqueue, Settle, CreateCopy, ConflictCopy, NextVersion, Build, BodyDoc;
      var base := if w.key in shadows then shadows[w.key].doc else None;
      var outcome := MergeDocuments(w.key.kind == Snippet, base, Side(local, localUpdatedAt, env.device),
                                    Side(doc, w.updatedAt, w.device));
      if outcome.Err? {
        return Err(RecordFailure);
      }
      match ApplyDocument(env, rows, w.key, outcome.value.doc) {
        case Err(_) => return Err(RepoFailure);
        case Ok(next) => rows := next;
      }
      var copy: Option<string> := None;
      if outcome.value.bodyConflict && makeCopy {
        var made := CreateConflictCopy(w.key, local, now);
        if made.Err? {
          return Err(made.error);
        }
        copy := Some(made.value);
      }
      var sealed := SettleAndEnqueue(w, None, now);
      r := if sealed.Ok? then Ok(copy) else Err(sealed.error);
    }

    /** The deletion-against-edit branch of the merge. */
    method ResolveDeletion(w: Wire, doc: Doc, at: int, now: int) returns (r: Result<Option<string>, SyncError>)
      modifies this`rows, this`outbox, this`drawn, this`shadows
      ensures match KeepDeletion(env, old(State()), w, doc, at, now)
              case Ok(kept) => r == Ok(None) && State() == kept
              case Err(_) => r.Err?
    {
      hide Newest, MaxVersion, Enqueue, Settle;
      if w.key.kind == Snippet {
        match ApplyDocument(env, rows, w.key, doc) {
          case Err(_) => return Err(RepoFailure);
          case Ok(next) => rows := next;
        }
        match SoftDelete(rows, w.key, at) {
          case Err(_) => return Err(RepoFailure);
          case Ok(next) => rows := next;
        }
      }
      var sealed := SettleAndEnqueue(w, Some(at), now);
      r := if sealed.Ok? then Ok(None) else Err(sealed.error);
    }

    /** Resolves a parked conflict inside the caller's savepoint. */
    method ResolveConflict(w: Wire, head: Queued, now: int, makeCopy: bool)
      returns (r: Result<Option<string>, SyncError>)
      modifies this`rows, this`outbox, this`drawn, this`shadows
      ensures match MergeConflicted(env, old(State()), w, head, now, makeCopy)
              case Ok(merged) => r == Ok(merged.1) && State() == merged.0
              case Err(_) => r.Err?
    {
      hide Newest, MaxVersion, Settle, MergeEdits, KeepDeletion, ApplyTombstone;
      if !env.access.hasKey {
        return Err(MissingKey);
      }
      match (w.body, head.wire.body)
      case (Tombstone(at), _) =>
        match ApplyTombstone(env, rows, w.key, at) {
          case Err(_) => return Err(RepoFailure);
          case Ok(next) => rows := next;
        }
        var settled := SettleOn(w);
        r := if settled then Ok(None) else Err(RepoFailure);
      case (Content(doc), Tombstone(at)) =>
        r := ResolveDeletion(w, doc, at, now);
      case (Content(doc), Content(_)) =>
        match Build(rows, w.key)
        case Unsupported => r := Err(RecordFailure);
        case Missing =>
          match ApplyDocument(env, rows, w.key, doc) {
            case Err(_) => return Err(RepoFailure);
            case Ok(next) => rows := next;
          }
          var settled := SettleOn(w);
          r := if settled then Ok(None) else Err(RepoFailure);
        case Built(local) =>
          r := ResolveEdits(w, doc, local, head.wire.updatedAt, now, makeCopy);
    }

    /** Merge or plain application under a savepoint: a failure rolls this record back whole. */
    method LandRecord(w: Wire, now: int, makeCopy: bool) returns (r: Result<Fate, ApplyError>)
      modifies this`rows, this`outbox, this`shadows, this`parked, this`watermark, this`drawn
      ensures match Land(env, old(State()), w, now, makeCopy)
              case Ok(landed) => r == Ok(landed.1) && State() == landed.0
              case Err(e) => r == Err(e) && State() == old(State())
    {
      hide MaxVersion, MergeConflicted, ApplyDocument, ApplyTombstone, Unpark;
      var savepoint := State();
      match Newest(outbox, w.key, {Conflicted})
      case Some(head) =>
        var merged := ResolveConflict(w, head, now, makeCopy);
        if merged.Err? {
          Restore(savepoint);
          return Err(Refused);
        }
        parked := Unpark(parked, w.id);
        r := Ok(MergedIn(merged.value));
      case None =>
        var applied := match w.body
          case Content(doc) => ApplyDocument(env, rows, w.key, doc)
          case Tombstone(at) => ApplyTombstone(env, rows, w.key, at);
        if applied.Err? {
          return Err(applied.error);
        }
        rows := applied.value;
        var put := PutShadowBase(w);
        if !put {
          Restore(savepoint);
          return Err(Refused);
        }
        parked := Unpark(parked, w.id);
        r := Ok(AppliedPlain);
    }

    method ParkRecord(p: Pulled) returns (r: Result<Fate, SyncError>)
      modifies this`parked
      ensures match Park(old(State()), p)
              case Ok(next) => r == Ok(Parked) && State() == next
              case Err(e) => r == Err(e) && State() == old(State())
    {
      if p.serverSeq > I64_MAX {
        return Err(CursorViolation);
      }
      if !Storable(p.wire) {
        return Err(RepoFailure);
      }
      if !exists q :: q in parked && (q.wire.id == p.wire.id || q.serverSeq == p.serverSeq) {
        parked := parked + [p];
      }
      r := Ok(Parked);
    }

    /** One pulled record: its fate, its effect on the tables, and its one counter. */
    method ApplyRecord(p: Pulled, now: int) returns (r: Result<Fate, SyncError>)
      modifies this`rows, this`outbox, this`shadows, this`parked, this`watermark, this`drawn, this`report
      ensures match ApplyOne(env, old(State()), p, now, true)
              case Ok(after) => r == Ok(after.1) && State() == after.0
                && report == Book(old(report), p.wire.key, after.1)
              case Err(e) => r == Err(e) && State() == old(State()) && report == old(report)
    {
      hide Newest, MaxVersion, Land, Park;
      var w := p.wire;
      var fate: Fate;
      if w.device == env.device {
        fate := Own;
      } else if Replay(State(), w) {
        fate := Replayed;
      } else if env.access.verdict(w) in {UnknownKey, PayloadAhead} {
        r := ParkRecord(p);
        if r.Err? {
          return;
        }
        fate := r.value;
      } else if !OpensNow(env, w) {
        fate := Rejected';
      } else {
        var landed := LandRecord(w, now, true);
        match landed {
          case Ok(f) => fate := f;
          case Err(NoApplyPath) =>
            r := ParkRecord(p);
            if r.Err? {
              return;
            }
            fate := r.value;
          case Err(Refused) => fate := Failed;
        }
      }
      report := Book(report, w.key, fate);
      r := Ok(fate);
    }

    // ----- pulling -----

    /** One page in one transaction: all its records and the watermark, or nothing. */
    method ApplyPulledPage(cursor: nat, page: seq<Pulled>, now: int) returns (r: Result<nat, SyncError>)
      modifies this`rows, this`outbox, this`shadows, this`parked, this`watermark, this`drawn, this`report
      ensures match CommitPage(env, old(State()), cursor, page, now)
              case Ok(done) => r == Ok(done.1) && State() == done.0 && report == BookPage(old(report), page, done.2)
              case Err(e) => r == Err(e) && State() == old(State())
    {
      hide ApplyOne, Newest, MaxVersion;
      var tx := State();
      var position := cursor;
      ghost var fates: seq<Fate> := [];
      for i := 0 to |page|
        invariant ApplyPage(env, tx, cursor, page[..i], now) == Ok((State(), position, fates))
        invariant |fates| == i && report == BookPage(old(report), page[..i], fates)
      {
        assert page[..i + 1][..i] == page[..i];
        if page[i].serverSeq <= position {
          PageErrorSticks(env, tx, cursor, page, now, i + 1);
          Restore(tx);
          return Err(CursorViolation);
        }
        position := page[i].serverSeq;
        var applied := ApplyRecord(page[i], now);
        if applied.Err? {
          PageErrorSticks(env, tx, cursor, page, now, i + 1);
          Restore(tx);
          return Err(applied.error);
        }
        fates := fates + [applied.value];
        assert fates[..i] + [applied.value] == fates;
      }
      assert page[..|page|] == page;
      if position > I64_MAX {
        Restore(tx);
        return Err(CursorViolation);
      }
      if watermark > position {
        Restore(tx);
        return Err(RepoFailure);
      }
      watermark := position;
      r := Ok(position);
    }

    /** Pages until the server has no more. Each committed page stays even when a later one fails, as one
        does only when the queue or the log holds something the tables cannot store. */
    method PullAll(server: RecordServer, now: int, ghost arriving: Arrivals)
      returns (r: Result<(), SyncError>, ghost steps: seq<Step>)
      modifies this`rows, this`outbox, this`shadows, this`parked, this`watermark, this`drawn, this`report
      ensures State() == Run(env, old(State()), steps)
      ensures old(watermark) <= watermark
      ensures r.Ok? ==> watermark >= |server.log| && report.merged >= old(report.merged)
      ensures r.Ok? && report.merged == old(report.merged) ==> outbox == old(outbox)
      ensures old(Sendable(State())) ==> Sendable(State())
      ensures old(Sendable(State())) && Pullable(env, server.log) ==> r.Ok?
      ensures old(Receives(env, State(), server.log, arriving)) ==> Receives(env, State(), server.log, arriving)
      ensures old(Receives(env, State(), server.log, arriving)) && arriving.fall == iset{}
              ==> AllSafe(env, old(State()), steps)
    {
      hide AllSafe, CommitPage, Newest, MaxVersion, Next, Sendable, Pullable, Receives, Run, BookPage, Pulls, Slice;
      ghost var start := State();
      steps := [];
      PullsNothing(env, start, server.log, arriving);
      while true
        invariant Pulls(env, start, steps, State(), server.log, arriving) && old(watermark) <= watermark
        invariant report.merged >= old(report.merged)
        invariant report.merged == old(report.merged) ==> outbox == old(outbox)
        decreases |server.log| - watermark
      {
        PullsMean(env, start, steps, State(), server.log, arriving);
        var page, hasMore := server.PullRecords(watermark, PULL_PAGE_LIMIT);
        if page == [] {
          return Ok(()), steps;
        }
        ghost var before := State();
        ghost var counted := report;
        var done := ApplyPulledPage(watermark, page, now);
        PullsPage(env, start, steps, before, server.log, arriving, |page|, now, State(), done);
        steps := steps + [Step.Page(page, now, env.access)];
        PullsMean(env, start, steps, State(), server.log, arriving);
        if done.Err? {
          return Err(done.error), steps;
        }
        CommittedPosition(env, before, before.watermark, page, now, State(), done.value);
        CommittedOutbox(env, before, before.watermark, page, now, State(), counted, report);
        if !hasMore {
          return Ok(()), steps;
        }
      }
    }

    // ----- retrying parked records -----

    method RetryRecord(p: Pulled, now: int)
      modifies this`rows, this`outbox, this`shadows, this`parked, this`watermark, this`drawn, this`report
      ensures State() == RetryOne(env, old(State()), p, now).0
      ensures report == match RetryOne(env, old(State()), p, now).1
                        case Retried(fate) => Book(old(report), p.wire.key, fate)
                        case _ => old(report)
      ensures report.merged >= old(report.merged)
      ensures report.merged == old(report.merged) ==> outbox == old(outbox)
    {
      hide Land, Newest, MaxVersion;
      ghost var before := State();
      if match RetryOne(env, before, p, now).1 case Retried(fate) => !fate.MergedIn? case _ => true {
        UnmergedRetry(env, before, p, now);
      }
      var w := p.wire;
      if Replay(State(), w) {
        parked := Unpark(parked, w.id);
        return;
      }
      if env.access.verdict(w) != Opens && !env.access.fallback(w) {
        return;
      }
      var landed := LandRecord(w, now, true);
      if landed.Ok? {
        report := Book(report, w.key, landed.value);
      }
    }

    method RetryParked(now: int)
      modifies this`rows, this`outbox, this`shadows, this`parked, this`watermark, this`drawn, this`report
      ensures State() == Next(env, old(State()), Step.Retry(now, env.access))
      ensures report.merged >= old(report.merged)
      ensures report.merged == old(report.merged) ==> outbox == old(outbox)
    {
      hide RetryOne, Newest, MaxVersion;
      var list := parked;
      for i := 0 to |list|
        invariant State() == RetryAll(env, old(State()), list[..i], now).0
        invariant report.merged >= old(report.merged)
        invariant report.merged == old(report.merged) ==> outbox == old(outbox)
      {
        assert list[..i + 1][..i] == list[..i];
        RetryRecord(list[i], now);
      }
      assert list[..|list|] == list;
    }

    // ----- pushing -----

    /** As many pending records as fit, in queue order: bounded by count and by bytes, but never none of several. */
    method ListPending(size: Wire -> nat, maxRecords: nat, maxBytes: nat) returns (batch: seq<Wire>)
      requires maxRecords > 0
      ensures batch <= PendingWires(outbox) && |batch| <= maxRecords
      ensures |batch| <= 1 || TotalSize(size, batch) <= maxBytes
      ensures PendingWires(outbox) != [] ==> batch != []
      ensures |batch| < |PendingWires(outbox)|
              ==> |batch| == maxRecords || TotalSize(size, batch) + size(PendingWires(outbox)[|batch|]) > maxBytes
    {
      batch := [];
      var bytes := 0;
      var i := 0;
      while i < |outbox| && |batch| < maxRecords
        invariant 0 <= i <= |outbox|
        invariant batch == PendingWires(outbox[..i]) && |batch| <= maxRecords
        invariant bytes == TotalSize(size, batch) && (|batch| <= 1 || bytes <= maxBytes)
      {
        PendingAppend(outbox, i);
        PendingPrefix(outbox, i);
        if outbox[i].stage == Pending {
          var w := outbox[i].wire;
          if batch != [] && bytes + size(w) > maxBytes {
            PendingPrefix(outbox, i + 1);
            assert PendingWires(outbox)[|batch|] == w;
            return;
          }
          assert (batch + [w])[..|batch|] == batch;
          bytes := bytes + size(w);
          batch := batch + [w];
        }
        i := i + 1;
      }
      PendingPrefix(outbox, i);
      if i == |outbox| {
        assert outbox[..i] == outbox;
      }
    }

    /** Settles an accepted batch in one transaction. */
    method Acknowledge(batch: seq<Wire>, results: seq<PushResult>) returns (r: Result<(), SyncError>)
      modifies this`outbox, this`shadows, this`rows, this`parked, this`watermark, this`drawn
      ensures match Ack(old(State()), batch, results)
              case Ok(next) => r == Ok(()) && State() == next
              case Err(e) => r == Err(e) && State() == old(State())
    {
      hide Newest, MaxVersion, MarkApplied, FindWire;
      var tx := State();
      for i := 0 to |results|
        invariant Ack(tx, batch, results[..i]) == Ok(State())
      {
        assert results[..i + 1][..i] == results[..i];
        var settled := MarkApplied(outbox, results[i].id, results[i].serverSeq);
        if settled.Err? {
          AckErrorSticks(tx, batch, results, i + 1);
          Restore(tx);
          return Err(settled.error);
        }
        outbox := settled.value;
        var sent := FindWire(batch, results[i].id);
        if sent.Some? {
          var put := PutShadowBase(sent.value);
          if !put {
            AckErrorSticks(tx, batch, results, i + 1);
            Restore(tx);
            return Err(RepoFailure);
          }
        }
      }
      assert results[..|results|] == results;
      r := Ok(());
    }

    /** Parks every entity the answer names. */
    method ParkConflicts(heads: seq<Key>)
      modifies this`outbox
      ensures outbox == MarkHeads(old(outbox), heads)
    {
      for i := 0 to |heads|
        invariant outbox == MarkHeads(old(outbox), heads[..i])
      {
        assert heads[..i + 1][..i] == heads[..i];
        outbox := MarkConflicted(outbox, heads[i]);
      }
      assert heads[..|heads|] == heads;
    }

    /** Batches until nothing is pending. A server that stores or refuses whole batches shrinks the
        pending queue with every answer, so the loop ends, with the queue drained or with an answer the
        queue rejects; an ordered queue of storable versions rejects none. */
    method PushAll(server: RecordServer, size: Wire -> nat, ghost arriving: Arrivals)
      returns (r: Result<(), SyncError>, ghost steps: seq<Step>)
      modifies this`rows, this`outbox, this`shadows, this`parked, this`watermark, this`drawn, server
      ensures State() == Run(env, old(State()), steps) && AllSafe(env, old(State()), steps)
      ensures r.Ok? ==> PendingCount(outbox) == 0
      ensures rows == old(rows) && parked == old(parked) && watermark == old(watermark) && drawn == old(drawn)
      ensures Extends(old(outbox), old(server.log), server.log)
      ensures old(Sendable(State())) ==> r.Ok? && Sendable(State())
      ensures old(Calm(env, State(), arriving))
              ==> Calm(env, State(), arriving) && ShadowsAdvance(old(State()), State())
      ensures old(Calm(env, State(), arriving) && Unhindered(env, State(), arriving))
              ==> Unhindered(env, State(), arriving)
    {
      hide Newest, MaxVersion, Server.Push, PendingWires, Ack, MarkHeads, Sendable, Calm, Unhindered, ShadowsAdvance,
           Next, Run, AllSafe, Answers, Pushes, Extends, PendingCount, TotalSize, FindWire, MarkApplied;
      ghost var (start, first) := (State(), server.log);
      steps := [];
      PushesNothing(env, start, first, arriving);
      RunNothing(env, start);
      while true
        invariant State() == Run(env, start, steps) && AllSafe(env, start, steps)
        invariant Pushes(env, start, first, State(), server.log, arriving)
        decreases PendingCount(outbox)
      {
        PushesMean(env, start, first, State(), server.log, arriving);
        var batch := ListPending(size, MAX_PUSH_RECORDS, MAX_PUSH_BYTES);
        if batch == [] {
          NoneListed(outbox);
          return Ok(()), steps;
        }
        ghost var (c, log) := (State(), server.log);
        var answer := server.PushRecords(batch);
        match answer {
          case Accepted(results) =>
            AnsweredEach(log, batch, results);
            AnsweredInOrder(c, log, batch, results);
            var done := Acknowledge(batch, results);
            PushesAccepted(env, start, first, c, log, batch, results, server.log, State(), done, arriving);
            PushesMean(env, start, first, State(), server.log, arriving);
            RunFurther(env, start, steps, Step.Accepted(batch, results));
            steps := steps + [Step.Accepted(batch, results)];
            if done.Err? {
              return done, steps;
            }
            AckProgress(c, batch, results, State());
          case VersionConflict(heads) =>
            RefusedNamesPending(c.outbox, log, batch, heads);
            ParkConflicts(heads);
            ConflictProgress(c.outbox, heads);
            PushesRefused(env, start, first, c, log, batch, heads, server.log, State(), arriving);
            RunFurther(env, start, steps, Step.Conflict(heads));
            steps := steps + [Step.Conflict(heads)];
        }
      }
    }

    // ----- a whole round -----

    /** One cycle of a round: push, then pull and retry with the keys as they are by then. Tells whether
        anything merged. */
    method RunCycle(server: RecordServer, size: Wire -> nat, now: int, access: Access, ghost begin: Client,
                    ghost storable: bool, ghost done: seq<Step>, ghost ready: bool, ghost arriving: Arrivals)
      returns (r: Result<bool, SyncError>, ghost steps: seq<Step>)
      requires Rounds(env, begin, storable, done, State(), server.log, ready, arriving)
      modifies this, server
      ensures env == With(old(env), env.access)
      ensures Rounds(env, begin, storable, done + steps, State(), server.log, ready, arriving)
      ensures r.Ok? ==> watermark >= |server.log| && report.merged >= old(report.merged)
      ensures r.Ok? ==> (r.value <==> report.merged > old(report.merged)) && (!r.value ==> PendingCount(outbox) == 0)
      ensures Sendable(begin) && storable && |server.log| <= I64_MAX ==> r.Ok?
    {
      hide Sendable, Calm, Unhindered, ShadowsAdvance, Next, Covers, AllSafe, Safe, With, Run, ForeignStorable,
           PendingCount, Extends, Rounds, Receives;
      ghost var (start, stored) := (State(), server.log);
      ghost var more: seq<Step>;
      RoundsMean(env, begin, storable, done, start, stored, ready, arriving);
      var pushed;
      pushed, steps := PushAll(server, size, arriving);
      RoundsPushed(env, begin, storable, done, start, stored, ready, arriving, steps, State(), server.log);
      WithOwn(env);
      if pushed.Err? {
        return Err(pushed.error), steps;
      }
      RoundsRekeyed(env, access, begin, storable, done + steps, State(), server.log, ready, arriving);
      env := With(env, access);
      ghost var drained := State();
      RoundsMean(env, begin, storable, done + steps, drained, server.log, ready, arriving);
      var before := report.merged;
      var pulled;
      pulled, more := PullAll(server, now, arriving);
      RoundsPulled(env, begin, storable, done + steps, drained, server.log, ready, arriving, more, State());
      assert done + steps + more == done + (steps + more);
      steps := steps + more;
      WithTwice(old(env), access, access);
      if pulled.Err? {
        return Err(pulled.error), steps;
      }
      ghost var received := State();
      RetryParked(now);
      RoundsRetried(env, begin, storable, done + steps, received, server.log, ready, arriving, now, State());
      assert done + steps + [Step.Retry(now, env.access)] == done + (steps + [Step.Retry(now, env.access)]);
      steps := steps + [Step.Retry(now, env.access)];
      r := Ok(report.merged > before);
    }

    /** Push, pull, retry, at most four times, until a cycle merges nothing. Key updates and the device
        directory come in between push and pull, so every cycle opens records with its own access. The round
        is a run of steps; it succeeds against a server whose records the tables can store. One that ends
        well has pulled to the server's head, and the queue is as the last push left it, with nothing
        pending, unless that last cycle merged. From a ready state, every entity ends at its basis that may
        not fall, and the queue is orderly again; when none may fall that is every entity, and the round is
        a run of safe steps, so that writes and rounds may follow one another. */
    method SyncRound(server: RecordServer, size: Wire -> nat, now: int, reload: nat -> Access, ghost fall: iset<Key>)
      returns (r: Result<nat, SyncError>, ghost merging: bool, ghost steps: seq<Step>)
      modifies this, server
      ensures env == With(old(env), env.access)
      ensures State() == Run(env, old(State()), steps)
      ensures r.Ok? ==> r.value == PendingCount(outbox) && watermark >= |server.log|
      ensures r.Ok? && !merging ==> PendingCount(outbox) == 0
      ensures r.Ok? && merging ==> report.merged >= MERGE_ROUNDS_MAX
      ensures old(Sendable(State())) && old(ForeignStorable(env, server.log)) && |server.log| <= I64_MAX ==> r.Ok?
      ensures old(Sendable(State())) ==> Sendable(State())
      ensures old(RoundReady(env, State(), server.log, fall))
              ==> Calm(env, State(), Arrivals(old(OnTheirWay(env, State(), server.log)), fall))
      ensures old(RoundReady(env, State(), server.log, fall)) && fall == iset{}
              ==> AllSafe(env, old(State()), steps) && Steady(env, State())
    {
      hide Sendable, Calm, RoundReady, OnTheirWay, Steady, AllSafe, With, Run, ForeignStorable, PendingCount, Rounds;
      ghost var arriving := Arrivals(OnTheirWay(env, State(), server.log), fall);
      ghost var (begin, storable, ready) :=
        (State(), ForeignStorable(env, server.log), RoundReady(env, State(), server.log, fall));
      RoundsStart(env, begin, server.log, fall);
      WithOwn(env);
      report := NOTHING;
      merging := true;
      steps := [];
      var cycle := 0;
      while cycle < MERGE_ROUNDS_MAX
        invariant 0 <= cycle <= MERGE_ROUNDS_MAX && report.merged >= cycle && merging
        invariant cycle > 0 ==> watermark >= |server.log|
        invariant env == With(old(env), env.access)
        invariant Rounds(env, begin, storable, steps, State(), server.log, ready, arriving)
      {
        var merged;
        ghost var more: seq<Step>;
        WithTwice(old(env), env.access, reload(cycle));
        ghost var last := env;
        merged, more := RunCycle(server, size, now, reload(cycle), begin, storable, steps, ready, arriving);
        WithTwice(old(env), last.access, env.access);
        steps := steps + more;
        RoundsMean(env, begin, storable, steps, State(), server.log, ready, arriving);
        if merged.Err? {
          return Err(merged.error), merging, steps;
        }
        if !merged.value {
          merging := false;
          break;
        }
        cycle := cycle + 1;
      }
      RoundsMean(env, begin, storable, steps, State(), server.log, ready, arriving);
      r := Ok(PendingCount(outbox));
    }

    // ----- catching up -----

    /** The two sweeps in one transaction: every visited entity off its basis is sealed again, every
        vanished one gets its tombstone, or the queue is exactly as it was. */
    method Reconcile(entities: seq<Key>, keys: seq<Key>, now: int) returns (r: Result<nat, SyncError>)
      modifies this`rows, this`outbox, this`shadows, this`parked, this`watermark, this`drawn
      ensures match SyncReconcile.Reconcile(env, old(State()), entities, keys, now)
              case Ok(done) => r == Ok(done.1) && State() == done.0
              case Err(e) => r == Err(e) && State() == old(State())
    {
      hide Newest, MaxVersion, Enqueue, GoneLocally, TombstoneQueued, Basis, ReconcileLive, ReconcileGone;
      LiveStart(env, State(), now);
      if !env.access.hasKey {
        return Err(MissingKey);
      }
      var tx := State();
      var enqueued := 0;
      for i := 0 to |entities|
        invariant ReconcileLive(env, tx, entities[..i], now) == Ok((State(), enqueued))
      {
        LiveNext(env, tx, entities, now, i, State(), enqueued);
        var built := Build(rows, entities[i]);
        if built.Built? && Basis(tx, entities[i]) != Some(built.doc) {
          var queued := EnqueueChange(entities[i], None, now);
          if queued.Err? {
            LiveErrorSticks(env, tx, entities, now, i + 1);
            Restore(tx);
            return Err(queued.error);
          }
          enqueued := enqueued + if queued.value then 1 else 0;
        }
      }
      assert entities[..|entities|] == entities;
      ghost var live := (State(), enqueued);
      GoneStart(env, tx, live.0, entities, now);
      var swept := 0;
      for i := 0 to |keys|
        invariant ReconcileGone(env, tx, live.0, entities, keys[..i], now) == Ok((State(), swept))
      {
        GoneNext(env, tx, live.0, entities, keys, now, i, State(), swept);
        var gone := GoneLocally(rows, keys[i], now);
        if keys[i] !in entities && !TombstoneQueued(tx, keys[i]) && gone.Some? {
          var queued := EnqueueChange(keys[i], gone, now);
          if queued.Err? {
            GoneErrorSticks(env, tx, live.0, entities, keys, now, i + 1);
            Restore(tx);
            return Err(queued.error);
          }
          swept := swept + if queued.value then 1 else 0;
        }
      }
      assert keys[..|keys|] == keys;
      r := Ok(enqueued + swept);
    }
  }

  // ----- what the push loop relies on -----

  /** The queue is ordered, and the tables of both ends can store its records. */
  ghost predicate Sendable(c: Client) {
    Ordered(c.outbox) && forall q :: q in c.outbox ==> Storable(q.wire)
  }

  /** Whatever another device stored can be parked here. */
  ghost predicate ForeignStorable(env: Env, log: seq<Wire>) {
    forall w :: w in log ==> w.device == env.device || Storable(w)
  }

  ghost predicate Pullable(env: Env, log: seq<Wire>) {
    |log| <= I64_MAX && ForeignStorable(env, log)
  }

  /** What a pull keeps: calm, with nothing pending for an arriving entity. */
  ghost predicate Receives(env: Env, c: Client, log: seq<Wire>, arriving: Arrivals) {
    Injective(env) && Calm(env, c, arriving) && Unhindered(env, c, arriving) && Covers(env, c, log, arriving)
  }

  lemma CalmIsSteady(env: Env, c: Client, arriving: Arrivals)
    ensures Calm(env, c, arriving) && arriving.fall == iset{} ==> Steady(env, c)
  {
    hide Orderly, Basis, View, Lone, Encloses;
    if Calm(env, c, arriving) && arriving.fall == iset{} {
      SteadyCalm(env, c, arriving);
    }
  }

  // ----- other keys -----

  lemma WithOwn(env: Env)
    ensures With(env, env.access) == env
  {
  }

  lemma WithTwice(env: Env, access: Access, later: Access)
    ensures With(With(env, access), later) == With(env, later) && With(env, later).access == later
  {
  }

  /** New keys change neither the run so far nor what is calm, safe and still to come. */
  lemma SameRound(env: Env, access: Access, start: Client, steps: seq<Step>, c: Client, log: seq<Wire>,
                  arriving: Arrivals)
    ensures Run(With(env, access), start, steps) == Run(env, start, steps)
    ensures AllSafe(With(env, access), start, steps) <==> AllSafe(env, start, steps)
    ensures Injective(With(env, access)) <==> Injective(env)
    ensures Calm(With(env, access), c, arriving) <==> Calm(env, c, arriving)
    ensures Covers(With(env, access), c, log, arriving) <==> Covers(env, c, log, arriving)
    ensures ForeignStorable(With(env, access), log) <==> ForeignStorable(env, log)
  {
    hide Run, AllSafe, Calm, Awaits;
    AnyAccess(env, access, start, steps);
    SafeAnyAccess(env, access, start, steps);
    CalmAnyAccess(env, access, c, arriving);
    assert forall w :: Awaits(With(env, access), c, w) <==> Awaits(env, c, w) by { SameAwaited(env, access, c); }
  }

  lemma SameAwaited(env: Env, access: Access, c: Client)
    ensures forall w :: Awaits(With(env, access), c, w) <==> Awaits(env, c, w)
  {
  }

  // ----- a round, phase by phase -----

  /** What a round keeps from its beginning: it is a run, its queue can be sent and its server's log stored,
      and from a ready state all is calm and what is still to come is known. */
  ghost predicate Rounds(env: Env, begin: Client, storable: bool, steps: seq<Step>, c: Client, log: seq<Wire>,
                         ready: bool, arriving: Arrivals)
  {
    && c == Run(env, begin, steps)
    && (Sendable(begin) ==> Sendable(c))
    && (ready ==> Injective(env) && Calm(env, c, arriving) && Covers(env, c, log, arriving))
    && (ready && arriving.fall == iset{} ==> AllSafe(env, begin, steps))
    && (Sendable(begin) && storable ==> ForeignStorable(env, log))
  }

  lemma RoundsStart(env: Env, c: Client, log: seq<Wire>, fall: iset<Key>)
    ensures Rounds(env, c, ForeignStorable(env, log), [], c, log, RoundReady(env, c, log, fall),
                   Arrivals(OnTheirWay(env, c, log), fall))
  {
    hide Calm, Covers, Sendable, ForeignStorable, Injective;
  }

  lemma RoundsMean(env: Env, begin: Client, storable: bool, steps: seq<Step>, c: Client, log: seq<Wire>, ready: bool,
                   arriving: Arrivals)
    requires Rounds(env, begin, storable, steps, c, log, ready, arriving)
    ensures c == Run(env, begin, steps)
    ensures Sendable(begin) ==> Sendable(c)
    ensures ready ==> Calm(env, c, arriving)
    ensures ready && arriving.fall == iset{} ==> AllSafe(env, begin, steps) && Steady(env, c)
    ensures Sendable(begin) && storable ==> ForeignStorable(env, log)
  {
    hide Calm, Covers, Sendable, ForeignStorable, Injective, AllSafe, Run, Steady;
    CalmIsSteady(env, c, arriving);
  }

  lemma RoundsPushed(env: Env, begin: Client, storable: bool, steps: seq<Step>, c: Client, log: seq<Wire>, ready: bool,
                     arriving: Arrivals, more: seq<Step>, next: Client, stored: seq<Wire>)
    requires Rounds(env, begin, storable, steps, c, log, ready, arriving)
    requires next == Run(env, c, more) && AllSafe(env, c, more)
    requires next.parked == c.parked && next.watermark == c.watermark && next.drawn == c.drawn
    requires Extends(c.outbox, log, stored) && (Sendable(c) ==> Sendable(next))
    requires Calm(env, c, arriving) ==> Calm(env, next, arriving) && ShadowsAdvance(c, next)
    ensures Rounds(env, begin, storable, steps + more, next, stored, ready, arriving)
  {
    hide Calm, Covers, Sendable, ForeignStorable, Injective, AllSafe, Run, ShadowsAdvance, Extends;
    SafeOnward(env, begin, steps, more);
    if Sendable(c) {
      PushedStorable(env, c, log, stored);
    }
    if ready {
      PushedCovers(env, c, next, log, stored, arriving);
    }
  }

  lemma RoundsRekeyed(env: Env, access: Access, begin: Client, storable: bool, steps: seq<Step>, c: Client,
                      log: seq<Wire>, ready: bool, arriving: Arrivals)
    requires Rounds(env, begin, storable, steps, c, log, ready, arriving)
    ensures Rounds(With(env, access), begin, storable, steps, c, log, ready, arriving)
  {
    hide Calm, Covers, Sendable, ForeignStorable, Injective, AllSafe, Run, With;
    SameRound(env, access, begin, steps, c, log, arriving);
  }

  lemma RoundsPulled(env: Env, begin: Client, storable: bool, steps: seq<Step>, c: Client, log: seq<Wire>, ready: bool,
                     arriving: Arrivals, more: seq<Step>, next: Client)
    requires Rounds(env, begin, storable, steps, c, log, ready, arriving) && PendingCount(c.outbox) == 0
    requires next == Run(env, c, more) && (Sendable(c) ==> Sendable(next))
    requires Receives(env, c, log, arriving) ==> Receives(env, next, log, arriving)
    requires Receives(env, c, log, arriving) && arriving.fall == iset{} ==> AllSafe(env, c, more)
    ensures Rounds(env, begin, storable, steps + more, next, log, ready, arriving)
    ensures ready ==> Receives(env, next, log, arriving)
  {
    hide Calm, Covers, Sendable, ForeignStorable, Injective, AllSafe, Run, Unhindered;
    SafeOnward(env, begin, steps, more);
    NothingHinders(env, c, arriving);
  }

  lemma RoundsRetried(env: Env, begin: Client, storable: bool, steps: seq<Step>, c: Client, log: seq<Wire>, ready: bool,
                      arriving: Arrivals, now: int, next: Client)
    requires Rounds(env, begin, storable, steps, c, log, ready, arriving) && (ready ==> Receives(env, c, log, arriving))
    requires next == Next(env, c, Step.Retry(now, env.access))
    ensures Rounds(env, begin, storable, steps + [Step.Retry(now, env.access)], next, log, ready, arriving)
    ensures next.watermark == c.watermark
  {
    hide Calm, Covers, Sendable, ForeignStorable, Injective, AllSafe, Run, Unhindered, Next, Safe;
    var step := Step.Retry(now, env.access);
    RetriedState(env, c, log, now, next, arriving);
    if Receives(env, c, log, arriving) {
      RetrySafeToo(env, c, log, now, arriving);
    }
    OneStep(env, c, step);
    SafeOnward(env, begin, steps, [step]);
  }

  // ----- steps of the loops -----

  lemma OneStep(env: Env, c: Client, step: Step)
    ensures Run(env, c, [step]) == Next(env, c, step)
    ensures Safe(env, c, step) ==> AllSafe(env, c, [step])
  {
    hide Next, Safe;
    assert [step][..0] == [];
  }

  lemma SafeOnward(env: Env, c: Client, steps: seq<Step>, more: seq<Step>)
    ensures Run(env, c, steps + more) == Run(env, Run(env, c, steps), more)
    ensures AllSafe(env, c, steps) && AllSafe(env, Run(env, c, steps), more) ==> AllSafe(env, c, steps + more)
  {
    hide AllSafe, Run;
    RunConcat(env, c, steps, more);
    if AllSafe(env, c, steps) && AllSafe(env, Run(env, c, steps), more) {
      AllSafeConcat(env, c, steps, more);
    }
  }

  lemma RunNothing(env: Env, c: Client)
    ensures Run(env, c, []) == c && AllSafe(env, c, [])
  {
  }

  lemma RunFurther(env: Env, c: Client, steps: seq<Step>, step: Step)
    ensures Run(env, c, steps + [step]) == Next(env, Run(env, c, steps), step)
    ensures AllSafe(env, c, steps) && Safe(env, Run(env, c, steps), step) ==> AllSafe(env, c, steps + [step])
  {
    hide Next, Safe;
    assert (steps + [step])[..|steps|] == steps;
  }

  lemma PulledStep(env: Env, c: Client, page: seq<Pulled>, now: int, next: Client, done: Result<nat, SyncError>)
    requires match CommitPage(env, c, c.watermark, page, now)
             case Ok(r) => done == Ok(r.1) && next == r.0
             case Err(e) => done == Err(e) && next == c
    ensures next == Next(env, c, Step.Page(page, now, env.access))
  {
    hide CommitPage;
  }

  lemma PushedStep(env: Env, c: Client, batch: seq<Wire>, results: seq<PushResult>, next: Client,
                   done: Result<(), SyncError>)
    requires match Ack(c, batch, results)
             case Ok(after) => done == Ok(()) && next == after
             case Err(e) => done == Err(e) && next == c
    ensures next == Next(env, c, Step.Accepted(batch, results))
  {
    hide Ack;
  }

  lemma RefusedStep(env: Env, c: Client, heads: seq<Key>, next: Client)
    requires next == c.(outbox := MarkHeads(c.outbox, heads))
    ensures next == Next(env, c, Step.Conflict(heads))
  {
  }

  // ----- what a pull keeps -----

  lemma {:induction false} PageGrows(env: Env, c: Client, cursor: nat, page: seq<Pulled>, now: int,
                                     r: (Client, nat, seq<Fate>))
    requires ApplyPage(env, c, cursor, page, now) == Ok(r)
    ensures Grows(env, c, r.0)
  {
    hide ApplyOne, Grows;
    if page == [] {
      SameOutboxGrows(env, c, c);
    } else {
      var n := |page| - 1;
      var before := ApplyPage(env, c, cursor, page[..n], now).value;
      PageGrows(env, c, cursor, page[..n], now, before);
      var after := ApplyOne(env, before.0, page[n], now, true).value;
      ApplyOneGrows(env, before.0, page[n], now, after.0, after.1);
      GrowsTransitive(env, c, before.0, after.0);
    }
  }

  lemma GrownSendable(env: Env, c: Client, next: Client)
    requires Sendable(c) && Grows(env, c, next) && Ordered(next.outbox)
    ensures Sendable(next)
  {
    hide Ordered;
    forall q | q in next.outbox ensures Storable(q.wire) {
      if Known(c.outbox, q) {
        var r :| r in c.outbox && r.wire == q.wire;
      }
    }
  }

  /** What any number of pages keep, from the start of a pull. */
  ghost predicate Pulls(env: Env, start: Client, steps: seq<Step>, c: Client, log: seq<Wire>, arriving: Arrivals) {
    && c == Run(env, start, steps)
    && (Sendable(start) ==> Sendable(c))
    && (Receives(env, start, log, arriving) ==> Receives(env, c, log, arriving))
    && (Receives(env, start, log, arriving) && arriving.fall == iset{} ==> AllSafe(env, start, steps))
  }

  lemma PullsNothing(env: Env, c: Client, log: seq<Wire>, arriving: Arrivals)
    ensures Pulls(env, c, [], c, log, arriving)
  {
    hide Sendable, Receives;
  }

  lemma PullsMean(env: Env, start: Client, steps: seq<Step>, c: Client, log: seq<Wire>, arriving: Arrivals)
    requires Pulls(env, start, steps, c, log, arriving)
    ensures c == Run(env, start, steps) && (Sendable(start) ==> Sendable(c))
    ensures Receives(env, start, log, arriving) ==> Receives(env, c, log, arriving)
    ensures Receives(env, start, log, arriving) && arriving.fall == iset{} ==> AllSafe(env, start, steps)
  {
    hide Sendable, Receives, Run, AllSafe;
  }

  lemma PullsPage(env: Env, start: Client, steps: seq<Step>, c: Client, log: seq<Wire>, arriving: Arrivals, n: nat,
                  now: int, next: Client, done: Result<nat, SyncError>)
    requires Pulls(env, start, steps, c, log, arriving) && n > 0 && c.watermark + n <= |log|
    requires match CommitPage(env, c, c.watermark, Slice(log, c.watermark, n), now)
             case Ok(r) => done == Ok(r.1) && next == r.0
             case Err(e) => done == Err(e) && next == c
    ensures Pulls(env, start, steps + [Step.Page(Slice(log, c.watermark, n), now, env.access)], next, log, arriving)
    ensures Sendable(start) && Pullable(env, log) ==> done.Ok?
  {
    hide Sendable, Receives, Run, AllSafe, Next, Safe, CommitPage, Pullable, Slice;
    var page := Slice(log, c.watermark, n);
    PulledStep(env, c, page, now, next, done);
    RunFurther(env, start, steps, Step.Page(page, now, env.access));
    if Sendable(c) {
      PulledSendable(env, c, log, n, now, next, done);
    }
    if Receives(env, c, log, arriving) {
      PulledSafe(env, c, log, n, now, arriving);
      PulledReceives(env, c, log, n, now, next, arriving);
    }
  }

  /** A page of the log is taken whole when the log holds nothing the tables cannot store. */
  lemma PulledSendable(env: Env, c: Client, log: seq<Wire>, n: nat, now: int, next: Client,
                       done: Result<nat, SyncError>)
    requires Sendable(c) && n > 0 && c.watermark + n <= |log|
    requires match CommitPage(env, c, c.watermark, Slice(log, c.watermark, n), now)
             case Ok(r) => done == Ok(r.1) && next == r.0
             case Err(e) => done == Err(e) && next == c
    ensures Sendable(next)
    ensures Pullable(env, log) ==> done.Ok?
  {
    hide ApplyPage, Ordered, Grows, Storable, Sendable;
    SendableOrdered(c);
    var page := Slice(log, c.watermark, n);
    if Pullable(env, log) {
      assert forall p :: p in page ==> p.wire in log;
      IncreasingIsAccepted(env, c, c.watermark, page, now);
    }
    match ApplyPage(env, c, c.watermark, page, now) {
      case Ok(r) =>
        AcceptedIsIncreasing(env, c, c.watermark, page, now);
        PageKeepsBasis(env, c, c.watermark, page, now, r);
        PageGrows(env, c, c.watermark, page, now, r);
        GrownSendable(env, c, r.0);
        SameSendable(r.0, r.0.(watermark := r.1));
      case Err(_) =>
    }
  }

  lemma SendableOrdered(c: Client)
    requires Sendable(c)
    ensures Ordered(c.outbox)
  {
  }

  lemma SameSendable(c: Client, next: Client)
    requires Sendable(c) && next.outbox == c.outbox
    ensures Sendable(next)
  {
  }

  lemma PulledReceives(env: Env, c: Client, log: seq<Wire>, n: nat, now: int, next: Client, arriving: Arrivals)
    requires Receives(env, c, log, arriving) && n > 0 && c.watermark + n <= |log|
    requires next == Next(env, c, Step.Page(Slice(log, c.watermark, n), now, env.access))
    ensures Receives(env, next, log, arriving)
  {
    hide ApplyPage, Calm, Unhindered, Grows, Awaits, ShadowsAdvance;
    var page := Slice(log, c.watermark, n);
    match ApplyPage(env, c, c.watermark, page, now) {
      case Ok(r) =>
        PageCalm(env, c, c.watermark, page, now, r, arriving);
        AcceptedIsIncreasing(env, c, c.watermark, page, now);
        PageGrows(env, c, c.watermark, page, now, r);
        var end := r.0.(watermark := r.1);
        UnmovedCalm(env, r.0, end, arriving);
        if end == next {
          AdvanceTwice(c, r.0, end);
          GrowsIds(env, c, r.0);
          CoversStays(env, c, end, log, log, arriving);
        }
      case Err(_) =>
    }
  }

  /** A page of the log is safe to take when what is on its way is calm and nothing may fall. */
  lemma PulledSafe(env: Env, c: Client, log: seq<Wire>, n: nat, now: int, arriving: Arrivals)
    requires Receives(env, c, log, arriving) && c.watermark + n <= |log|
    ensures arriving.fall == iset{} ==> Safe(env, c, Step.Page(Slice(log, c.watermark, n), now, env.access))
  {
    hide Orderly, Awaits, Basis, View, Lone, Unhindered, SafeArrivals;
    if arriving.fall == iset{} {
      ExpectedSafe(env, c, Slice(log, c.watermark, n), arriving);
    }
  }

  lemma RetrySafeToo(env: Env, c: Client, log: seq<Wire>, now: int, arriving: Arrivals)
    requires Receives(env, c, log, arriving)
    ensures arriving.fall == iset{} ==> Safe(env, c, Step.Retry(now, env.access))
  {
    hide Orderly, Awaits, Basis, View, Lone, Unhindered, SafeArrivals;
    if arriving.fall == iset{} {
      ExpectedSafe(env, c, c.parked, arriving);
    }
  }

  lemma GrowsIds(env: Env, c: Client, next: Client)
    requires Grows(env, c, next)
    ensures c.drawn <= next.drawn
  {
  }

  lemma {:induction false} RetriesGrow(env: Env, c: Client, list: seq<Pulled>, now: int)
    ensures Grows(env, c, RetryAll(env, c, list, now).0)
  {
    hide Land, Grows;
    if list == [] {
      SameOutboxGrows(env, c, c);
    } else {
      var n := |list| - 1;
      var before := RetryAll(env, c, list[..n], now).0;
      RetriesGrow(env, c, list[..n], now);
      var r := RetryOne(env, before, list[n], now);
      if r.1.Retried? {
        LandGrows(env, before, list[n].wire, now, true, r.0, r.1.fate);
      } else {
        SameOutboxGrows(env, before, r.0);
      }
      GrowsTransitive(env, c, before, r.0);
    }
  }

  lemma RetriedState(env: Env, c: Client, log: seq<Wire>, now: int, next: Client, arriving: Arrivals)
    requires next == Next(env, c, Step.Retry(now, env.access))
    ensures next.watermark == c.watermark
    ensures Sendable(c) ==> Sendable(next)
    ensures Receives(env, c, log, arriving) ==> Receives(env, next, log, arriving)
  {
    hide RetryAll, Calm, Unhindered, Grows, Awaits, ShadowsAdvance, Sendable, Ordered;
    RetriesGrow(env, c, c.parked, now);
    RetriesKeepWatermark(env, c, c.parked, now);
    if Sendable(c) {
      SendableOrdered(c);
      RetryKeepsBasis(env, c, c.parked, now);
      GrownSendable(env, c, next);
    }
    if Receives(env, c, log, arriving) {
      RetryCalm(env, c, c.parked, now, arriving);
      GrowsIds(env, c, next);
      CoversStays(env, c, next, log, log, arriving);
    }
  }

  // ----- what a push keeps -----

  ghost predicate HasWire(outbox: seq<Queued>, w: Wire) {
    exists q :: q in outbox && q.wire == w
  }

  /** Every record of the queue was in the earlier one, at whatever stage. */
  ghost predicate WiresKept(before: seq<Queued>, after: seq<Queued>) {
    forall q :: q in after ==> HasWire(before, q.wire)
  }

  /** The log only gained records of this queue. */
  ghost predicate Extends(outbox: seq<Queued>, log: seq<Wire>, stored: seq<Wire>) {
    log <= stored && forall i :: |log| <= i < |stored| ==> HasWire(outbox, stored[i])
  }

  lemma WiresSelf(outbox: seq<Queued>)
    ensures WiresKept(outbox, outbox)
  {
  }

  lemma AdvanceSelf(c: Client)
    ensures ShadowsAdvance(c, c)
  {
  }

  /** What any number of answers keep, from the start of a push: the other tables, where the queue and the
      log come from, and every promise the queue started with. */
  ghost predicate Pushes(env: Env, start: Client, first: seq<Wire>, c: Client, log: seq<Wire>, arriving: Arrivals) {
    && c == start.(outbox := c.outbox, shadows := c.shadows)
    && WiresKept(start.outbox, c.outbox)
    && Extends(start.outbox, first, log)
    && (Sendable(start) ==> Sendable(c))
    && (Calm(env, start, arriving) ==> Calm(env, c, arriving) && ShadowsAdvance(start, c))
    && (Calm(env, start, arriving) && Unhindered(env, start, arriving) ==> Unhindered(env, c, arriving))
  }

  lemma PushesNothing(env: Env, c: Client, log: seq<Wire>, arriving: Arrivals)
    ensures Pushes(env, c, log, c, log, arriving)
  {
    hide Sendable, Calm, Unhindered;
    WiresSelf(c.outbox);
    AdvanceSelf(c);
  }

  lemma PushesMean(env: Env, start: Client, first: seq<Wire>, c: Client, log: seq<Wire>, arriving: Arrivals)
    requires Pushes(env, start, first, c, log, arriving)
    ensures c == start.(outbox := c.outbox, shadows := c.shadows)
    ensures Extends(start.outbox, first, log)
    ensures Sendable(start) ==> Sendable(c)
    ensures Calm(env, start, arriving) ==> Calm(env, c, arriving) && ShadowsAdvance(start, c)
    ensures Calm(env, start, arriving) && Unhindered(env, start, arriving) ==> Unhindered(env, c, arriving)
  {
    hide Sendable, Calm, Unhindered, ShadowsAdvance;
  }

  lemma PushesAccepted(env: Env, start: Client, first: seq<Wire>, c: Client, log: seq<Wire>, batch: seq<Wire>,
                       results: seq<PushResult>, stored: seq<Wire>, next: Client, done: Result<(), SyncError>,
                           arriving: Arrivals)
    requires Pushes(env, start, first, c, log, arriving) && Answers(c, batch, results) && |results| == |batch|
    requires stored == Server.Push(log, batch).0
    requires match Ack(c, batch, results)
             case Ok(after) => done == Ok(()) && next == after
             case Err(e) => done == Err(e) && next == c
    ensures Pushes(env, start, first, next, stored, arriving)
    ensures next == Next(env, c, Step.Accepted(batch, results))
    ensures Sendable(c) ==> done.Ok?
  {
    hide Server.Push, PendingWires, Ack, Sendable, Calm, Unhindered, ShadowsAdvance, Next, WiresKept;
    AnswersBatch(c, batch, results);
    StoredFrom(start.outbox, first, c.outbox, log, batch, stored);
    PushedStep(env, c, batch, results, next, done);
    if Sendable(c) {
      AcceptedPush(c, batch, results);
    }
    if done.Ok? {
      AckTouches(c, batch, results, next);
      AckedWires(start.outbox, c, batch, results, next);
      if Calm(env, c, arriving) {
        AcceptedCalm(env, c, batch, results, next, arriving);
        if Calm(env, start, arriving) {
          AdvanceTwice(start, c, next);
        }
      }
    }
  }

  lemma AnswersBatch(c: Client, batch: seq<Wire>, results: seq<PushResult>)
    requires Answers(c, batch, results)
    ensures batch <= PendingWires(c.outbox)
  {
  }

  lemma PushesRefused(env: Env, start: Client, first: seq<Wire>, c: Client, log: seq<Wire>, batch: seq<Wire>,
                      heads: seq<Key>, stored: seq<Wire>, next: Client, arriving: Arrivals)
    requires Pushes(env, start, first, c, log, arriving) && batch <= PendingWires(c.outbox)
    requires stored == Server.Push(log, batch).0 && next == c.(outbox := MarkHeads(c.outbox, heads))
    ensures Pushes(env, start, first, next, stored, arriving)
    ensures next == Next(env, c, Step.Conflict(heads))
  {
    hide Server.Push, PendingWires, MarkHeads, Sendable, Calm, Unhindered, ShadowsAdvance, Next, WiresKept;
    StoredFrom(start.outbox, first, c.outbox, log, batch, stored);
    RefusedStep(env, c, heads, next);
    MarkedWires(start.outbox, c.outbox, heads);
    if Sendable(c) {
      MarkedSendable(c, heads);
    }
    if Calm(env, c, arriving) {
      ConflictCalm(env, c, heads, next, arriving);
      if Calm(env, start, arriving) {
        AdvanceTwice(start, c, next);
      }
    }
  }

  /** What the server stores came from the queue. */
  lemma StoredFrom(start: seq<Queued>, first: seq<Wire>, outbox: seq<Queued>, log: seq<Wire>, batch: seq<Wire>,
                   stored: seq<Wire>)
    requires WiresKept(start, outbox) && batch <= PendingWires(outbox) && stored == Server.Push(log, batch).0
    requires Extends(start, first, log)
    ensures Extends(start, first, stored)
  {
    hide Server.Simulate, PendingWires, Server.Stored;
    forall i | |first| <= i < |stored| ensures HasWire(start, stored[i]) {
      if i < |log| {
        assert stored[i] == log[i];
      } else {
        assert stored[i] == Server.NewRecords(log, batch)[i - |log|];
        assert stored[i] in Server.NewRecords(log, batch);
        assert stored[i] in PendingWires(outbox);
        var q :| q in outbox && q.wire == stored[i] && q.stage == Pending;
      }
    }
  }

  lemma AnsweredInOrder(c: Client, log: seq<Wire>, batch: seq<Wire>, results: seq<PushResult>)
    requires batch <= PendingWires(c.outbox) && Server.Push(log, batch).1 == Server.Accepted(results)
    ensures Answers(c, batch, results)
  {
    hide PendingWires, Server.Simulate;
  }

  lemma AckedWires(start: seq<Queued>, c: Client, batch: seq<Wire>, results: seq<PushResult>, next: Client)
    requires WiresKept(start, c.outbox) && Ack(c, batch, results) == Ok(next)
    ensures WiresKept(start, next.outbox)
  {
    hide Ack;
    AckWires(c, batch, results, next);
    forall q | q in next.outbox ensures HasWire(start, q.wire) {
      var r :| r in c.outbox && r.wire == q.wire;
    }
  }

  lemma {:induction false} AckWires(c: Client, batch: seq<Wire>, results: seq<PushResult>, next: Client)
    requires Ack(c, batch, results) == Ok(next)
    ensures WiresKept(c.outbox, next.outbox)
  {
    hide FindWire;
    if results != [] {
      var result := results[|results| - 1];
      var before := Ack(c, batch, results[..|results| - 1]).value;
      AckWires(c, batch, results[..|results| - 1], before);
      forall q | q in next.outbox ensures HasWire(c.outbox, q.wire) {
        var i :| 0 <= i < |next.outbox| && next.outbox[i] == q;
        assert before.outbox[i] in before.outbox && before.outbox[i].wire == q.wire;
      }
    }
  }

  lemma MarkedWires(start: seq<Queued>, outbox: seq<Queued>, heads: seq<Key>)
    requires WiresKept(start, outbox)
    ensures WiresKept(start, MarkHeads(outbox, heads))
  {
    MarkHeadsKnown(outbox, heads);
    forall q | q in MarkHeads(outbox, heads) ensures HasWire(start, q.wire) {
      var r :| r in outbox && r.wire == q.wire;
    }
  }

  lemma PushedStorable(env: Env, c: Client, log: seq<Wire>, stored: seq<Wire>)
    requires Sendable(c) && Extends(c.outbox, log, stored)
    ensures ForeignStorable(env, log) ==> ForeignStorable(env, stored)
  {
    hide Ordered;
    if ForeignStorable(env, log) {
      forall i | 0 <= i < |stored| ensures stored[i].device == env.device || Storable(stored[i]) {
        if i < |log| {
          assert stored[i] == log[i];
        }
      }
    }
  }

  lemma PushedCovers(env: Env, c: Client, next: Client, log: seq<Wire>, stored: seq<Wire>, arriving: Arrivals)
    requires Calm(env, c, arriving) && Covers(env, c, log, arriving) && ShadowsAdvance(c, next)
    requires next.parked == c.parked && next.watermark == c.watermark && next.drawn == c.drawn
    requires Extends(c.outbox, log, stored)
    ensures Covers(env, next, stored, arriving)
  {
    hide Covers, Ordered, Basis, View, ShadowsAdvance, Lone;
    CoversStays(env, c, next, log, stored, arriving);
  }

  /** A drained queue hinders nothing. */
  lemma NothingHinders(env: Env, c: Client, arriving: Arrivals)
    ensures PendingCount(c.outbox) == 0 ==> Unhindered(env, c, arriving)
  {
    CountZero(c.outbox);
  }

  lemma {:induction false} AckTouches(c: Client, batch: seq<Wire>, results: seq<PushResult>, next: Client)
    requires Ack(c, batch, results) == Ok(next)
    ensures next == c.(outbox := next.outbox, shadows := next.shadows)
  {
    hide MarkApplied, FindWire;
    if results != [] {
      AckTouches(c, batch, results[..|results| - 1], Ack(c, batch, results[..|results| - 1]).value);
    }
  }

  /** An accepting answer carries one result per record sent. */
  lemma AnsweredEach(log: seq<Wire>, batch: seq<Wire>, results: seq<PushResult>)
    requires Server.Push(log, batch).1 == Server.Accepted(results) && batch != []
    ensures |results| == |batch|
  {
  }

  lemma SealKeepsWatermark(env: Env, c: Client, w: Wire, deletedAt: Option<int>, now: int)
    ensures match Settle(c, w) case Ok(r) => r.watermark == c.watermark case Err(_) => true
    ensures match Enqueue(env, c, w.key, deletedAt, now) case Ok(r) => r.0.watermark == c.watermark case Err(_) => true
  {
    hide NextVersion, ClearConflicts;
  }

  lemma CopyKeepsWatermark(env: Env, c: Client, key: Key, local: Doc, now: int)
    ensures match CreateCopy(env, c, key, local, now) case Ok(r) => r.0.watermark == c.watermark case Err(_) => true
  {
    hide NextVersion, ConflictCopy, SealedBody;
  }

  lemma EditsKeepWatermark(env: Env, c: Client, w: Wire, doc: Doc, local: Doc, localUpdatedAt: int, now: int,
                           makeCopy: bool, next: Client, copy: Option<string>)
    requires MergeEdits(env, c, w, doc, local, localUpdatedAt, now, makeCopy) == Ok((next, copy))
    ensures next.watermark == c.watermark
  {
    hide Merged, CreateCopy, Settle, Enqueue, ApplyDocument;
    var base := if w.key in c.shadows then c.shadows[w.key].doc else None;
    var outcome := Merged(w.key.kind == Snippet, base, Side(local, localUpdatedAt, env.device),
                          Side(doc, w.updatedAt, w.device)).value;
    var applied := c.(rows := ApplyDocument(env, c.rows, w.key, outcome.doc).value);
    CopyKeepsWatermark(env, applied, w.key, local, now);
    var copied :=
      if outcome.bodyConflict && makeCopy then CreateCopy(env, applied, w.key, local, now).value.0 else applied;
    SealKeepsWatermark(env, copied, w, None, now);
    SealKeepsWatermark(env, Settle(copied, w).value, w, None, now);
  }

  lemma MergeKeepsWatermark(env: Env, c: Client, w: Wire, head: Queued, now: int, next: Client, copy: Option<string>)
    requires MergeConflicted(env, c, w, head, now, true) == Ok((next, copy))
    ensures next.watermark == c.watermark
  {
    hide Settle, Enqueue, MergeEdits, ApplyDocument, ApplyTombstone, SoftDelete;
    match (w.body, head.wire.body)
    case (Tombstone(at), _) =>
      SealKeepsWatermark(env, c.(rows := ApplyTombstone(env, c.rows, w.key, at).value), w, None, now);
    case (Content(doc), Tombstone(at)) =>
      var rows :=
        if w.key.kind == Snippet then SoftDelete(ApplyDocument(env, c.rows, w.key, doc).value, w.key, at).value
        else c.rows;
      SealKeepsWatermark(env, c.(rows := rows), w, None, now);
      SealKeepsWatermark(env, Settle(c.(rows := rows), w).value, w, Some(at), now);
    case (Content(doc), Content(_)) =>
      match Build(c.rows, w.key)
      case Missing =>
        SealKeepsWatermark(env, c.(rows := ApplyDocument(env, c.rows, w.key, doc).value), w, None, now);
      case Built(local) => EditsKeepWatermark(env, c, w, doc, local, head.wire.updatedAt, now, true, next, copy);
  }

  lemma {:induction false} RetriesKeepWatermark(env: Env, c: Client, list: seq<Pulled>, now: int)
    ensures RetryAll(env, c, list, now).0.watermark == c.watermark
  {
    hide MaxVersion, Newest, MergeConflicted, ApplyDocument, ApplyTombstone;
    if list != [] {
      var before := RetryAll(env, c, list[..|list| - 1], now).0;
      var w := list[|list| - 1].wire;
      RetriesKeepWatermark(env, c, list[..|list| - 1], now);
      var head := Newest(before.outbox, w.key, {Conflicted});
      if head.Some? && MergeConflicted(env, before, w, head.value, now, true).Ok? {
        var r := MergeConflicted(env, before, w, head.value, now, true).value;
        MergeKeepsWatermark(env, before, w, head.value, now, r.0, r.1);
      }
    }
  }

  lemma NoneListed(outbox: seq<Queued>)
    requires PendingWires(outbox) == []
    ensures PendingCount(outbox) == 0
  {
    forall q | q in outbox ensures q.stage != Pending || q.wire in PendingWires(outbox) {
    }
    CountZero(outbox);
  }

  lemma CommittedOutbox(env: Env, c: Client, cursor: nat, page: seq<Pulled>, now: int, next: Client, counted: Report,
                        report: Report)
    requires CommitPage(env, c, cursor, page, now).Ok? && next == CommitPage(env, c, cursor, page, now).value.0
    requires report == BookPage(counted, page, CommitPage(env, c, cursor, page, now).value.2)
    ensures report.merged >= counted.merged && (report.merged == counted.merged ==> next.outbox == c.outbox)
  {
    hide ApplyOne, BookPage;
    UnmergedPage(env, c, cursor, page, now, ApplyPage(env, c, cursor, page, now).value, counted);
  }

  lemma CommittedPosition(env: Env, c: Client, cursor: nat, page: seq<Pulled>, now: int, next: Client, position: nat)
    requires CommitPage(env, c, cursor, page, now).Ok? && page != []
    requires next == CommitPage(env, c, cursor, page, now).value.0
             && position == CommitPage(env, c, cursor, page, now).value.1
    ensures next.watermark == position == page[|page| - 1].serverSeq
    ensures cursor < position
  {
    hide ApplyOne;
    AcceptedIsIncreasing(env, c, cursor, page, now);
  }

  /** Every record of an accepted batch can be settled. */
  lemma AcceptedPush(c: Client, batch: seq<Wire>, results: seq<PushResult>)
    requires Sendable(c) && Answers(c, batch, results) && |results| == |batch|
    ensures Ack(c, batch, results).Ok? && Sendable(Ack(c, batch, results).value)
  {
    hide Newest, MaxVersion, Ordered, PendingWires, AckedTo, SettledTo, Ack;
    AckStart(c, batch);
    forall i | 0 <= i < |batch| ensures batch[i].version <= I64_MAX {
      assert batch[i] == PendingWires(c.outbox)[i];
      assert batch[i] in PendingWires(c.outbox);
    }
    AckAll(c, batch, results, |batch|);
    assert results[..|batch|] == results;
    var next := Ack(c, batch, results).value;
    AckOnlySettles(c, batch, results, next);
  }

  /** A refused batch names an entity the batch holds, so at least one record is parked. */
  lemma RefusedNamesPending(outbox: seq<Queued>, log: seq<Wire>, batch: seq<Wire>, heads: seq<Key>)
    requires batch <= PendingWires(outbox) && Server.Push(log, batch).1 == Server.VersionConflict(heads)
    ensures exists k :: k in heads && Holds(outbox, k, Pending)
  {
    Server.ConflictsFromBatch(log, batch);
    var k := heads[0];
    assert k in heads;
    var w :| w in batch && w.key == k;
    assert w in PendingWires(outbox);
    assert Holds(outbox, k, Pending);
  }

  lemma MarkedSendable(c: Client, heads: seq<Key>)
    requires Sendable(c)
    ensures Sendable(c.(outbox := MarkHeads(c.outbox, heads)))
  {
    hide MarkHeads, Ordered, Storable;
    MarkHeadsKnown(c.outbox, heads);
    HeadsKeepBasis(c, heads, Key(Snippet, ""));
    forall q | q in MarkHeads(c.outbox, heads) ensures Storable(q.wire) {
      var r :| r in c.outbox && r.wire == q.wire;
    }
  }
}
