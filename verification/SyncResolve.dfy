/** What conflict resolution leaves on screen and in the queue, case by case. */
module SyncResolve {
  import opened Wrappers
  import opened Merge
  import opened SyncModel
  import opened SyncOutbox
  import opened SyncBasis

  predicate Unsent(q: Queued, key: Key) {
    q.wire.key == key && q.stage != Applied
  }

  predicate StillPending(c: Client, key: Key, q: Queued) {
    q in c.outbox && q.wire.key == key && q.stage == Pending
  }

  /** Of the entity, what was pending is still waiting and nothing else. */
  ghost predicate LeftQueued(c: Client, next: Client, key: Key) {
    forall q :: q in next.outbox && Unsent(q, key) <==> StillPending(c, key, q)
  }

  /** Beside what was pending, exactly one new record of the entity is waiting, at this version. */
  ghost predicate QueuedBeside(c: Client, next: Client, key: Key, version: nat, tombstone: bool) {
    exists q: Queued ::
      && q.wire.key == key && q.stage == Pending && q.wire.version == version && (q.wire.body.Tombstone? <==> tombstone)
      && (forall r :: r in next.outbox && Unsent(r, key) <==> r == q || StillPending(c, key, r))
  }

  /** One past the server head and everything of the entity that is not given up with the conflict. */
  function SealedVersion(outbox: seq<Queued>, w: Wire): nat {
    Max(MaxVersion(ClearConflicts(outbox, w.key), w.key), w.version) + 1
  }

  lemma SettledQueue(c: Client, w: Wire, next: Client)
    requires Settle(c, w) == Ok(next)
    ensures LeftQueued(c, next, w.key)
    ensures NextVersion(next, w.key) == SealedVersion(c.outbox, w)
    ensures next.rows == c.rows
  {
    hide Newest, MaxVersion;
  }

  lemma SealedQueue(env: Env, c: Client, settled: Client, key: Key, deletedAt: Option<int>, now: int, next: Client,
                    queued: bool)
    requires LeftQueued(c, settled, key) && Enqueue(env, settled, key, deletedAt, now) == Ok((next, queued))
    requires deletedAt.Some? || Build(settled.rows, key).Built?
    ensures QueuedBeside(c, next, key, NextVersion(settled, key), deletedAt.Some?)
  {
    hide Newest, MaxVersion, NextVersion;
    var q := next.outbox[|settled.outbox|];
    assert next.outbox == settled.outbox + [q];
    assert q.wire.key == key && q.stage == Pending;
  }

  lemma SettleSealQueue(env: Env, c: Client, w: Wire, settled: Client, deletedAt: Option<int>, now: int, next: Client,
                        queued: bool)
    requires Settle(c, w) == Ok(settled) && Enqueue(env, settled, w.key, deletedAt, now) == Ok((next, queued))
    requires deletedAt.Some? || Build(settled.rows, w.key).Built?
    ensures QueuedBeside(c, next, w.key, SealedVersion(c.outbox, w), deletedAt.Some?)
  {
    hide SealedVersion, NextVersion, Enqueue, Settle;
    SettledQueue(c, w, settled);
    SealedQueue(env, c, settled, w.key, deletedAt, now, next, queued);
  }

  /** A record of another entity does not count. */
  lemma BesideSealed(outbox: seq<Queued>, q: Queued, w: Wire)
    requires q.wire.key != w.key
    ensures SealedVersion(outbox + [q], w) == SealedVersion(outbox, w)
  {
    var kept := ClearConflicts(outbox, w.key);
    assert (outbox + [q])[..|outbox|] == outbox && (kept + [q])[..|kept|] == kept;
  }

  lemma EnqueuedBehind(env: Env, c: Client, key: Key, now: int, next: Client, queued: bool)
    requires Enqueue(env, c, key, None, now) == Ok((next, queued))
    ensures next.rows == c.rows
    ensures next.outbox != c.outbox ==> |next.outbox| == |c.outbox| + 1 && next.outbox[|c.outbox|].wire.key == key
                                        && next.outbox == c.outbox + [next.outbox[|c.outbox|]]
  {
    hide NextVersion;
  }

  /** A conflict copy is queued under its own fresh key and leaves the entity's queue alone. */
  lemma CopyQueue(env: Env, c: Client, w: Wire, localEntity: Doc, now: int, next: Client, copyId: string)
    requires CreateCopy(env, c, w.key, localEntity, now) == Ok((next, copyId)) && w.key != Key(Snippet, copyId)
    ensures forall q :: StillPending(next, w.key, q) <==> StillPending(c, w.key, q)
    ensures SealedVersion(next.outbox, w) == SealedVersion(c.outbox, w)
    ensures c.rows.Keys <= next.rows.Keys
  {
    hide Enqueue, ConflictCopy, SealedVersion;
    var copyKey := Key(Snippet, env.uuid(c.drawn));
    var folder := if w.key.kind == Snippet && w.key in c.rows then Lookup(c.rows[w.key], "folder_id") else Null;
    var copy := ConflictCopy(localEntity, folder, env.uuid(c.drawn), env.deviceName, now).value;
    var stored := c.(rows := ApplyDocument(env, c.rows, copyKey, copy).value, drawn := c.drawn + 1);
    EnqueuedBehind(env, stored, copyKey, now, next, Enqueue(env, stored, copyKey, None, now).value.1);
    if next.outbox != c.outbox {
      BesideSealed(c.outbox, next.outbox[|c.outbox|], w);
    }
  }

  lemma EditsQueue(env: Env, c: Client, w: Wire, doc: Doc, local: Doc, localUpdatedAt: int, now: int, makeCopy: bool,
                   next: Client, copy: Option<string>)
    requires MergeEdits(env, c, w, doc, local, localUpdatedAt, now, makeCopy) == Ok((next, copy))
             && !IsCopy(copy, w.key)
    ensures QueuedBeside(c, next, w.key, SealedVersion(c.outbox, w), false)
  {
    hide Newest, MaxVersion, NextVersion, Merged, Settle, Enqueue, CreateCopy, SealedVersion;
    var base := if w.key in c.shadows then c.shadows[w.key].doc else None;
    var outcome := Merged(w.key.kind == Snippet, base, Side(local, localUpdatedAt, env.device),
                          Side(doc, w.updatedAt, w.device)).value;
    var applied := c.(rows := c.rows[w.key := outcome.doc]);
    var copied := applied;
    if outcome.bodyConflict && makeCopy {
      var made := CreateCopy(env, applied, w.key, local, now).value;
      copied := made.0;
      CopyQueue(env, applied, w, local, now, made.0, made.1);
    }
    var settled := Settle(copied, w).value;
    SettledQueue(copied, w, settled);
    SettleSealQueue(env, copied, w, settled, None, now, next, Enqueue(env, settled, w.key, None, now).value.1);
  }

  /** Conflict resolution is whole and deletions win. If either side deleted, nothing of the entity is
      on screen afterwards, except that a structural row still there under a local deletion stays; a
      local deletion is queued once more, one past the server head, a remote one needs nothing. If both
      sides edited, the merged content is queued once, one past the server head, or nothing is when no
      local row was left. Whatever else was pending for the entity keeps waiting beside it. */
  lemma ResolutionOutcome(env: Env, c: Client, w: Wire, head: Queued, now: int, makeCopy: bool, next: Client,
                          copy: Option<string>)
    requires Ordered(c.outbox)
    requires MergeConflicted(env, c, w, head, now, makeCopy) == Ok((next, copy)) && !IsCopy(copy, w.key)
    ensures next.shadows == c.shadows[w.key := Shadow(w.version, BodyDoc(w.body))]
            && !Holds(next.outbox, w.key, Conflicted)
    ensures w.body.Tombstone? ==> View(next, w.key) == None && LeftQueued(c, next, w.key) && copy == None
    ensures w.body.Content? && head.wire.body.Tombstone?
            ==> (View(next, w.key) == None <==> w.key.kind == Snippet || w.key !in c.rows)
                && QueuedBeside(c, next, w.key, SealedVersion(c.outbox, w), true) && copy == None
    ensures w.body.Content? && head.wire.body.Content? && w.key in c.rows
            ==> QueuedBeside(c, next, w.key, SealedVersion(c.outbox, w), false)
    ensures w.body.Content? && head.wire.body.Content? && w.key !in c.rows
            ==> LeftQueued(c, next, w.key) && w.key in next.rows && next.rows[w.key] == w.body.doc
  {
    hide Newest, MaxVersion, QueuedBeside, LeftQueued, KeepDeletion, MergeEdits, MergeLands, SealedVersion, Fallout;
    MergeResolves(env, c, w, head, now, makeCopy, next, copy);
    ResolutionQueue(env, c, w, head, now, makeCopy, next, copy);
    if w.body.Content? && head.wire.body.Tombstone? {
      DeletionResolved(env, c, w, w.body.doc, head.wire.body.at, now, next);
    }
  }

  lemma ResolutionQueue(env: Env, c: Client, w: Wire, head: Queued, now: int, makeCopy: bool, next: Client,
                        copy: Option<string>)
    requires MergeConflicted(env, c, w, head, now, makeCopy) == Ok((next, copy)) && !IsCopy(copy, w.key)
    ensures w.body.Tombstone? ==> View(next, w.key) == None && LeftQueued(c, next, w.key) && copy == None
    ensures w.body.Content? && head.wire.body.Tombstone?
            ==> QueuedBeside(c, next, w.key, SealedVersion(c.outbox, w), true) && copy == None
    ensures w.body.Content? && head.wire.body.Content? && w.key in c.rows
            ==> QueuedBeside(c, next, w.key, SealedVersion(c.outbox, w), false)
    ensures w.body.Content? && head.wire.body.Content? && w.key !in c.rows
            ==> LeftQueued(c, next, w.key) && w.key in next.rows && next.rows[w.key] == w.body.doc
  {
    hide Newest, MaxVersion, NextVersion, Settle, Enqueue, MergeEdits, QueuedBeside, LeftQueued, ApplyTombstone,
         SealedVersion, Fallout;
    match (w.body, head.wire.body)
    case (Tombstone(at), _) =>
      var rows := ApplyTombstone(env, c.rows, w.key, at).value;
      TombstoneRow(env, c, w, at, rows);
      SettledQueue(c.(rows := rows), w, next);
      SameQueues(c, rows, w, next);
    case (Content(doc), Tombstone(at)) =>
      var rows :=
        if w.key.kind == Snippet then SoftDelete(ApplyDocument(env, c.rows, w.key, doc).value, w.key, at).value
        else c.rows;
      var settled := Settle(c.(rows := rows), w).value;
      SettleSealQueue(env, c.(rows := rows), w, settled, Some(at), now, next,
                      Enqueue(env, settled, w.key, Some(at), now).value.1);
      SameQueues(c, rows, w, next);
    case (Content(doc), Content(_)) =>
      if w.key in c.rows {
        EditsQueue(env, c, w, doc, c.rows[w.key], head.wire.updatedAt, now, makeCopy, next, copy);
      } else {
        SettledQueue(c.(rows := c.rows[w.key := doc]), w, next);
        SameQueues(c, c.rows[w.key := doc], w, next);
      }
  }

  /** What is said of the queue does not depend on the rows. */
  lemma SameQueues(c: Client, rows: map<Key, Doc>, w: Wire, next: Client)
    ensures LeftQueued(c.(rows := rows), next, w.key) <==> LeftQueued(c, next, w.key)
    ensures forall v, t :: QueuedBeside(c.(rows := rows), next, w.key, v, t) <==> QueuedBeside(c, next, w.key, v, t)
  {
    assert forall q :: StillPending(c.(rows := rows), w.key, q) <==> StillPending(c, w.key, q);
    forall v, t ensures QueuedBeside(c.(rows := rows), next, w.key, v, t) <==> QueuedBeside(c, next, w.key, v, t) {
    }
  }
}
