/** When the server takes what a device sends: versions are given so that the edits of a device nobody overtook
    are stored the first time they are pushed, and so is what a merge sends after a refusal
    (crates/sync/src/engine.rs, apps/sync-server/internal/store/record_push.go). */
module SyncFresh {
  import opened Wrappers
  import opened Merge
  import opened SyncModel
  import opened SyncBasis
  import opened SyncPushed
  import Server = SyncServer

  /** The log once everything pending is stored behind it. */
  function Outlook(c: Client, log: seq<Wire>): seq<Wire> {
    log + PendingWires(c.outbox)
  }

  /** Everything pending continues the log, and the next version the device would give any entity goes on from
      there. */
  ghost predicate Fits(c: Client, log: seq<Wire>) {
    Server.Contiguous(Outlook(c, log)) && forall k :: NextVersion(c, k) == Server.HeadVersion(Outlook(c, log), k) + 1
  }

  /** The same but for one entity, whose newest stored record the device is about to adopt. */
  ghost predicate FitsBeside(c: Client, log: seq<Wire>, w: Wire) {
    && Server.Contiguous(Outlook(c, log)) && w.version == Server.HeadVersion(Outlook(c, log), w.key)
    && (forall q :: q in c.outbox && q.wire.key == w.key && q.stage != Conflicted ==> q.wire.version <= w.version)
    && forall k :: k != w.key ==> NextVersion(c, k) == Server.HeadVersion(Outlook(c, log), k) + 1
  }

  /** Ids drawn from now on are no stored or pending record's, and no two are the same. */
  ghost predicate FreshIds(env: Env, c: Client, log: seq<Wire>) {
    && (forall i: nat :: i >= c.drawn ==> !Server.Stored(Outlook(c, log), env.uuid(i)))
    && forall i: nat, j: nat :: i < j ==> env.uuid(i) != env.uuid(j)
  }

  /** What a device pushes is stored whole, batch by batch, as long as nothing else got in between. */
  lemma QueueAccepted(c: Client, log: seq<Wire>, n: nat)
    requires Fits(c, log) && n <= |PendingWires(c.outbox)|
    ensures var batch := PendingWires(c.outbox)[..n];
            Server.Push(log, batch).1.Accepted? && Server.Push(log, batch).0 == log + batch
  {
    hide Server.HeadVersion, Server.Push, Server.NewRecords, NextVersion;
    var (pending, all) := (PendingWires(c.outbox), Outlook(c, log));
    PrefixFits(all, |log|);
    PrefixFits(all, |log| + n);
    var batch := pending[..n];
    assert all[..|log|] == log && all[..|log| + n] == log + batch;
    assert forall i :: 0 <= i < n ==> all[|log| + i] == batch[i];
    forall w | w in batch ensures !Server.Stored(log, w.id) {
      var i :| 0 <= i < n && batch[i] == w;
      assert forall j :: 0 <= j < |log| ==> all[j] == log[j];
    }
    AllNew(log, batch);
    Server.AcceptedExactly(log, batch);
  }

  lemma PrefixFits(all: seq<Wire>, n: nat)
    requires Server.Contiguous(all) && n <= |all|
    ensures Server.Contiguous(all[..n])
  {
    hide Server.HeadVersion;
    forall i | 0 <= i < n ensures Server.Continues(all[..n], i) {
      assert all[..n][..i] == all[..i] && Server.Continues(all, i);
    }
  }

  lemma {:induction false} AllNew(log: seq<Wire>, batch: seq<Wire>)
    requires forall w :: w in batch ==> !Server.Stored(log, w.id)
    ensures Server.NewRecords(log, batch) == batch
  {
    if batch != [] {
      hide Server.Stored;
      var front := batch[..|batch| - 1];
      assert batch == front + [batch[|batch| - 1]];
      AllNew(log, front);
    }
  }

  // ----- what keeps it -----

  lemma HeadsBehind(all: seq<Wire>, w: Wire)
    requires w.version == Server.HeadVersion(all, w.key) + 1
    ensures forall k :: Server.HeadVersion(all + [w], k) == if k == w.key then w.version else Server.HeadVersion(all, k)
  {
    hide Server.HeadVersion;
    forall k ensures Server.HeadVersion(all + [w], k) == if k == w.key then w.version else Server.HeadVersion(all, k) {
      Server.HeadOfAppend(all, w, k);
    }
  }

  lemma VersionsBehind(c: Client, q: Queued, next: Client)
    requires next == c.(outbox := c.outbox + [q], drawn := next.drawn) && q.wire.version == NextVersion(c, q.wire.key)
    ensures forall k :: NextVersion(next, k) == if k == q.wire.key then q.wire.version + 1 else NextVersion(c, k)
  {
    hide MaxVersion;
    forall k ensures NextVersion(next, k) == if k == q.wire.key then q.wire.version + 1 else NextVersion(c, k) {
      MaxOfAppend(c.outbox, q, k);
    }
  }

  lemma MaxOfAppend(outbox: seq<Queued>, q: Queued, key: Key)
    ensures MaxVersion(outbox + [q], key)
         == if q.wire.key == key then Max(MaxVersion(outbox, key), q.wire.version) else MaxVersion(outbox, key)
  {
    assert (outbox + [q])[..|outbox|] == outbox;
  }

  lemma OutlookSnoc(c: Client, log: seq<Wire>, q: Queued, next: Client)
    requires q.stage == Pending && next.outbox == c.outbox + [q]
    ensures PendingWires(next.outbox) == PendingWires(c.outbox) + [q.wire]
    ensures Outlook(next, log) == Outlook(c, log) + [q.wire]
  {
    hide PendingWires;
    PendingSnoc(c.outbox, q);
  }

  /** One more record behind everything. */
  lemma OneBehind(c: Client, log: seq<Wire>, q: Queued, next: Client)
    requires next == c.(outbox := c.outbox + [q], drawn := next.drawn) && q.stage == Pending
    requires Server.Contiguous(Outlook(c, log)) && !Server.Stored(Outlook(c, log), q.wire.id)
    requires q.wire.version == Server.HeadVersion(Outlook(c, log), q.wire.key) + 1
    requires NextVersion(c, q.wire.key) == q.wire.version
    ensures Outlook(next, log) == Outlook(c, log) + [q.wire] && Server.Contiguous(Outlook(next, log))
    ensures NextVersion(next, q.wire.key) == Server.HeadVersion(Outlook(next, log), q.wire.key) + 1
    ensures forall k :: k != q.wire.key
                        ==> NextVersion(next, k) == NextVersion(c, k)
                            && Server.HeadVersion(Outlook(next, log), k) == Server.HeadVersion(Outlook(c, log), k)
  {
    hide Server.Contiguous, Server.HeadVersion, Server.Stored, NextVersion, Outlook;
    OutlookSnoc(c, log, q, next);
    Server.ExtendContiguous(Outlook(c, log), q.wire);
    HeadsBehind(Outlook(c, log), q.wire);
    VersionsBehind(c, q, next);
  }

  /** The record a write seals: the entity's next version, under the clock of the write and this device's name,
      with the row or the deletion. */
  ghost predicate SealedAs(env: Env, c: Client, key: Key, deletedAt: Option<int>, now: int, w: Wire) {
    && w.key == key && w.version == NextVersion(c, key) && w.id == env.uuid(c.drawn)
    && w.updatedAt == now && w.device == env.device
    && match deletedAt
       case Some(at) => w.body == Tombstone(at)
       case None => key in c.rows && w.body == Content(c.rows[key])
  }

  lemma EnqueueSeals(env: Env, c: Client, key: Key, deletedAt: Option<int>, now: int, next: Client) returns (q: Queued)
    requires Enqueue(env, c, key, deletedAt, now) == Ok((next, true))
    ensures next == c.(outbox := c.outbox + [q], drawn := c.drawn + 1) && q.stage == Pending
    ensures SealedAs(env, c, key, deletedAt, now, q.wire)
  {
    hide NextVersion;
    q := next.outbox[|c.outbox|];
  }

  /** Every local write, and every deletion, keeps the queue fitting, however many follow one another: its record
      is the entity's next version on the server. */
  lemma WriteFits(env: Env, c: Client, log: seq<Wire>, key: Key, deletedAt: Option<int>, now: int, next: Client,
                  queued: bool)
    requires Fits(c, log) && FreshIds(env, c, log)
    requires Enqueue(env, c, key, deletedAt, now) == Ok((next, queued))
    ensures Fits(next, log) && FreshIds(env, next, log)
    ensures queued ==> exists w :: PendingWires(next.outbox) == PendingWires(c.outbox) + [w]
                                   && SealedAs(env, c, key, deletedAt, now, w)
                                   && w.version == Server.HeadVersion(Outlook(c, log), key) + 1
  {
    hide Server.Contiguous, Server.HeadVersion, NextVersion, PendingWires, Outlook, Enqueue, FreshIds;
    if queued {
      var q := EnqueueSeals(env, c, key, deletedAt, now, next);
      NextIsFresh(env, c, log);
      OneBehind(c, log, q, next);
      OutlookSnoc(c, log, q, next);
      StillFresh(env, c, log, next, q.wire);
    } else {
      NothingQueued(env, c, key, deletedAt, now, next);
    }
  }

  lemma NextIsFresh(env: Env, c: Client, log: seq<Wire>)
    requires FreshIds(env, c, log)
    ensures !Server.Stored(Outlook(c, log), env.uuid(c.drawn))
  {
  }

  lemma NothingQueued(env: Env, c: Client, key: Key, deletedAt: Option<int>, now: int, next: Client)
    requires Enqueue(env, c, key, deletedAt, now) == Ok((next, false))
    ensures next == c
  {
  }

  lemma PendingSnoc(outbox: seq<Queued>, q: Queued)
    ensures PendingWires(outbox + [q]) == PendingWires(outbox) + if q.stage == Pending then [q.wire] else []
  {
    assert (outbox + [q])[..|outbox|] == outbox;
  }

  lemma StillFresh(env: Env, c: Client, log: seq<Wire>, next: Client, w: Wire)
    requires FreshIds(env, c, log) && Outlook(next, log) == Outlook(c, log) + [w]
    requires c.drawn < next.drawn && w.id == env.uuid(c.drawn)
    ensures FreshIds(env, next, log)
  {
    hide Outlook;
    forall i: nat | i >= next.drawn ensures !Server.Stored(Outlook(next, log), env.uuid(i)) {
      assert !Server.Stored(Outlook(c, log), env.uuid(i));
    }
  }

  // ----- after a refusal -----

  lemma {:induction false} ClearKeepsPending(outbox: seq<Queued>, key: Key)
    ensures PendingWires(ClearConflicts(outbox, key)) == PendingWires(outbox)
  {
    if outbox != [] {
      var (front, last) := (outbox[..|outbox| - 1], outbox[|outbox| - 1]);
      assert outbox == front + [last];
      ClearKeepsPending(front, key);
      hide PendingWires;
      PendingSnoc(front, last);
      PendingSnoc(ClearConflicts(front, key), last);
    }
  }

  lemma {:induction false} ClearKeepsOthers(outbox: seq<Queued>, key: Key, k: Key)
    requires k != key
    ensures MaxVersion(ClearConflicts(outbox, key), k) == MaxVersion(outbox, k)
  {
    if outbox != [] {
      var (front, last) := (outbox[..|outbox| - 1], outbox[|outbox| - 1]);
      assert outbox == front + [last];
      ClearKeepsOthers(front, key, k);
      hide MaxVersion;
      MaxOfAppend(front, last, k);
      MaxOfAppend(ClearConflicts(front, key), last, k);
    }
  }

  /** Adopting the newest stored record of an entity brings its versions back in line. */
  lemma SettleFits(c: Client, log: seq<Wire>, w: Wire, next: Client)
    requires FitsBeside(c, log, w) && Settle(c, w) == Ok(next)
    ensures Fits(next, log) && Outlook(next, log) == Outlook(c, log) && next.drawn == c.drawn
  {
    hide Server.Contiguous, Server.HeadVersion, MaxVersion, PendingWires;
    ClearKeepsPending(c.outbox, w.key);
    forall k | k != w.key ensures NextVersion(next, k) == NextVersion(c, k) {
      ClearKeepsOthers(c.outbox, w.key, k);
    }
    SettledVersion(c.outbox, w);
  }

  lemma SettledVersion(outbox: seq<Queued>, w: Wire)
    requires forall q :: q in outbox && q.wire.key == w.key && q.stage != Conflicted ==> q.wire.version <= w.version
    ensures MaxVersion(ClearConflicts(outbox, w.key), w.key) <= w.version
  {
    var kept := ClearConflicts(outbox, w.key);
    assert forall q :: q in kept && q.wire.key == w.key ==> q.wire.version <= w.version;
  }

  lemma SameRows(c: Client, log: seq<Wire>, rows: map<Key, Doc>, w: Wire)
    ensures FitsBeside(c.(rows := rows), log, w) <==> FitsBeside(c, log, w)
    ensures Outlook(c.(rows := rows), log) == Outlook(c, log)
  {
    hide Server.Contiguous, Server.HeadVersion, MaxVersion, PendingWires;
    assert forall k :: NextVersion(c.(rows := rows), k) == NextVersion(c, k);
  }

  lemma FreshSame(env: Env, c: Client, log: seq<Wire>, next: Client)
    requires FreshIds(env, c, log) && Outlook(next, log) == Outlook(c, log) && c.drawn <= next.drawn
    ensures FreshIds(env, next, log)
  {
    hide Outlook;
  }

  /** Adopting and sealing: what a resolution that sends anything does last. */
  lemma SettleSealFits(env: Env, c: Client, log: seq<Wire>, w: Wire, settled: Client, deletedAt: Option<int>, now: int,
                       next: Client, queued: bool)
    requires FitsBeside(c, log, w) && FreshIds(env, c, log) && Settle(c, w) == Ok(settled)
    requires Enqueue(env, settled, w.key, deletedAt, now) == Ok((next, queued))
    ensures Fits(next, log)
  {
    hide Fits, FitsBeside, FreshIds, Outlook, Settle, Enqueue;
    SettleFits(c, log, w, settled);
    FreshSame(env, c, log, settled);
    WriteFits(env, settled, log, w.key, deletedAt, now, next, queued);
  }

  /** A record of another entity behind everything. */
  lemma OtherBehind(c: Client, log: seq<Wire>, w: Wire, q: Queued, next: Client)
    requires next == c.(outbox := c.outbox + [q], drawn := next.drawn)
    requires FitsBeside(c, log, w) && q.stage == Pending && q.wire.key != w.key
    requires q.wire.version == NextVersion(c, q.wire.key) && !Server.Stored(Outlook(c, log), q.wire.id)
    ensures FitsBeside(next, log, w) && Outlook(next, log) == Outlook(c, log) + [q.wire]
  {
    hide Server.Contiguous, Server.HeadVersion, Server.Stored, NextVersion, PendingWires, Outlook;
    OneBehind(c, log, q, next);
  }

  /** A conflict copy is a new entity; its record goes behind everything. */
  lemma CopyFits(env: Env, c: Client, log: seq<Wire>, w: Wire, localEntity: Doc, now: int, next: Client, copyId: string)
    requires FitsBeside(c, log, w) && FreshIds(env, c, log)
    requires CreateCopy(env, c, w.key, localEntity, now) == Ok((next, copyId)) && w.key != Key(Snippet, copyId)
    ensures FitsBeside(next, log, w) && FreshIds(env, next, log)
  {
    hide FitsBeside, Server.Stored, NextVersion, PendingWires, ConflictCopy, MaxVersion;
    var copyKey := Key(Snippet, env.uuid(c.drawn));
    var folder := if w.key.kind == Snippet && w.key in c.rows then Lookup(c.rows[w.key], "folder_id") else Null;
    var copy := ConflictCopy(localEntity, folder, copyId, env.deviceName, now).value;
    var stored := c.(rows := c.rows[copyKey := copy], drawn := c.drawn + 1);
    var q := next.outbox[|c.outbox|];
    assert next == stored.(outbox := stored.outbox + [q], drawn := stored.drawn + 1);
    SameRows(c, log, stored.rows, w);
    SameDrawn(c.(rows := stored.rows), log, stored.drawn, w);
    FreshSame(env, c, log, stored);
    OtherBehind(stored, log, w, q, next);
    StillFresh(env, stored, log, next, q.wire);
  }

  lemma SameDrawn(c: Client, log: seq<Wire>, drawn: nat, w: Wire)
    ensures FitsBeside(c.(drawn := drawn), log, w) <==> FitsBeside(c, log, w)
    ensures Outlook(c.(drawn := drawn), log) == Outlook(c, log)
  {
    hide Server.Contiguous, Server.HeadVersion, MaxVersion, PendingWires;
    assert forall k :: NextVersion(c.(drawn := drawn), k) == NextVersion(c, k);
  }

  /** Whatever the two sides were: after a refused edit was merged with the newest record the server has, what
      the device sends next fits, so the next push stores it. */
  lemma MergeFits(env: Env, c: Client, log: seq<Wire>, w: Wire, head: Queued, now: int, makeCopy: bool, next: Client,
                  copy: Option<string>)
    requires FitsBeside(c, log, w) && FreshIds(env, c, log)
    requires MergeConflicted(env, c, w, head, now, makeCopy) == Ok((next, copy)) && !IsCopy(copy, w.key)
    ensures Fits(next, log)
  {
    hide Fits, FitsBeside, FreshIds, Outlook, Settle, Enqueue, CreateCopy, Merged, ApplyTombstone;
    match (w.body, head.wire.body)
    case (Tombstone(at), _) =>
      var rows := ApplyTombstone(env, c.rows, w.key, at).value;
      SameRows(c, log, rows, w);
      SettleFits(c.(rows := rows), log, w, next);
    case (Content(doc), Tombstone(at)) =>
      var rows :=
        if w.key.kind == Snippet then SoftDelete(ApplyDocument(env, c.rows, w.key, doc).value, w.key, at).value
        else c.rows;
      var moved := c.(rows := rows);
      SameRows(c, log, rows, w);
      FreshSame(env, c, log, moved);
      var settled := Settle(moved, w).value;
      SettleSealFits(env, moved, log, w, settled, Some(at), now, next,
                     Enqueue(env, settled, w.key, Some(at), now).value.1);
    case (Content(doc), Content(_)) =>
      if w.key in c.rows {
        EditsFit(env, c, log, w, doc, c.rows[w.key], head.wire.updatedAt, now, makeCopy, next, copy);
      } else {
        SameRows(c, log, c.rows[w.key := doc], w);
        SettleFits(c.(rows := c.rows[w.key := doc]), log, w, next);
      }
  }

  lemma EditsFit(env: Env, c: Client, log: seq<Wire>, w: Wire, doc: Doc, local: Doc, localUpdatedAt: int, now: int,
                 makeCopy: bool, next: Client, copy: Option<string>)
    requires FitsBeside(c, log, w) && FreshIds(env, c, log)
    requires MergeEdits(env, c, w, doc, local, localUpdatedAt, now, makeCopy) == Ok((next, copy))
             && !IsCopy(copy, w.key)
    ensures Fits(next, log)
  {
    hide Fits, FitsBeside, FreshIds, Outlook, Settle, Enqueue, CreateCopy, Merged;
    var base := if w.key in c.shadows then c.shadows[w.key].doc else None;
    var outcome := Merged(w.key.kind == Snippet, base, Side(local, localUpdatedAt, env.device),
                          Side(doc, w.updatedAt, w.device)).value;
    var applied := c.(rows := c.rows[w.key := outcome.doc]);
    SameRows(c, log, applied.rows, w);
    FreshSame(env, c, log, applied);
    var copied := applied;
    if outcome.bodyConflict && makeCopy {
      var made := CreateCopy(env, applied, w.key, local, now).value;
      copied := made.0;
      CopyFits(env, applied, log, w, local, now, made.0, made.1);
    }
    var settled := Settle(copied, w).value;
    SettleSealFits(env, copied, log, w, settled, None, now, next, Enqueue(env, settled, w.key, None, now).value.1);
  }
}
