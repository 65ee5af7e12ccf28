/** Where new outbox records come from: this device, under a freshly drawn id, in storable range. */
module SyncGrowth {
  import opened Wrappers
  import opened Merge
  import opened SyncModel
  import opened SyncReconcile

  /** The record was in this outbox, had not been accepted unless it still is, and is pending only if it was. */
  ghost predicate Known(outbox: seq<Queued>, q: Queued) {
    exists r :: r in outbox && Became(r, q)
  }

  predicate Became(r: Queued, q: Queued) {
    r.wire == q.wire && (r.stage == Applied ==> q.stage == Applied) && (q.stage == Pending ==> r.stage == Pending)
  }

  /** Sealed by this device under an id drawn in this span, and fit for storing. */
  ghost predicate SealedHere(env: Env, low: nat, high: nat, w: Wire) {
    w.device == env.device && Storable(w) && exists m: nat :: low <= m < high && env.uuid(m) == w.id
  }

  /** Every record of the new outbox was there before, up to its stage, or was sealed here since. */
  ghost predicate Grows(env: Env, c: Client, next: Client) {
    && c.drawn <= next.drawn
    && (forall q :: q in next.outbox ==> Known(c.outbox, q) || SealedHere(env, c.drawn, next.drawn, q.wire))
  }

  /** Records were only added behind what was queued, and no shadow moved. */
  ghost predicate Appends(c: Client, next: Client) {
    c.outbox <= next.outbox && next.shadows == c.shadows
  }

  lemma GrowsTransitive(env: Env, a: Client, b: Client, c: Client)
    requires Grows(env, a, b) && Grows(env, b, c)
    ensures Grows(env, a, c)
  {
    forall q | q in c.outbox ensures Known(a.outbox, q) || SealedHere(env, a.drawn, c.drawn, q.wire) {
      if Known(b.outbox, q) {
        var r :| r in b.outbox && Became(r, q);
      }
    }
  }

  lemma SubsetGrows(env: Env, c: Client, next: Client)
    requires c.drawn <= next.drawn
    requires forall q :: q in next.outbox ==> Known(c.outbox, q)
    ensures Grows(env, c, next)
  {
  }

  lemma EnqueueSealsHere(env: Env, c: Client, key: Key, deletedAt: Option<int>, now: int, next: Client, queued: bool)
    requires Enqueue(env, c, key, deletedAt, now) == Ok((next, queued))
    ensures Grows(env, c, next) && Appends(c, next)
  {
    hide Newest, MaxVersion, NextVersion;
    if queued {
      var w := next.outbox[|c.outbox|].wire;
      assert env.uuid(c.drawn) == w.id;
      assert SealedHere(env, c.drawn, next.drawn, w);
    }
    assert forall q :: q in c.outbox ==> Known(c.outbox, q);
  }

  lemma SettleGrows(env: Env, c: Client, w: Wire, next: Client)
    requires Settle(c, w) == Ok(next)
    ensures Grows(env, c, next)
  {
  }

  lemma CopyGrows(env: Env, c: Client, key: Key, localEntity: Doc, now: int, next: Client, copyId: string)
    requires CreateCopy(env, c, key, localEntity, now) == Ok((next, copyId))
    ensures Grows(env, c, next)
  {
    hide Newest, MaxVersion, NextVersion, Enqueue, ConflictCopy, ApplyDocument;
    var folder := if key.kind == Snippet && key in c.rows then Lookup(c.rows[key], "folder_id") else Null;
    var copyKey := Key(Snippet, env.uuid(c.drawn));
    var copy := ConflictCopy(localEntity, folder, env.uuid(c.drawn), env.deviceName, now).value;
    var stored := c.(rows := ApplyDocument(env, c.rows, copyKey, copy).value, drawn := c.drawn + 1);
    SubsetGrows(env, c, stored);
    EnqueueSealsHere(env, stored, copyKey, None, now, next, Enqueue(env, stored, copyKey, None, now).value.1);
    GrowsTransitive(env, c, stored, next);
  }

  lemma RowsGrow(env: Env, c: Client, rows: map<Key, Doc>)
    ensures Grows(env, c, c.(rows := rows))
  {
    SubsetGrows(env, c, c.(rows := rows));
  }

  lemma SettleSealGrows(env: Env, c: Client, w: Wire, settled: Client, deletedAt: Option<int>, now: int, next: Client,
                        queued: bool)
    requires Settle(c, w) == Ok(settled) && Enqueue(env, settled, w.key, deletedAt, now) == Ok((next, queued))
    ensures Grows(env, c, next)
  {
    hide Newest, MaxVersion, NextVersion, Enqueue, Settle, Grows;
    SettleGrows(env, c, w, settled);
    EnqueueSealsHere(env, settled, w.key, deletedAt, now, next, queued);
    GrowsTransitive(env, c, settled, next);
  }

  lemma EditsGrow(env: Env, c: Client, w: Wire, doc: Doc, local: Doc, localUpdatedAt: int, now: int, makeCopy: bool,
                  next: Client, copy: Option<string>)
    requires MergeEdits(env, c, w, doc, local, localUpdatedAt, now, makeCopy) == Ok((next, copy))
    ensures Grows(env, c, next)
  {
    hide Newest, MaxVersion, NextVersion, Enqueue, Settle, Merged, CreateCopy, Grows, ApplyDocument;
    var base := if w.key in c.shadows then c.shadows[w.key].doc else None;
    var outcome := Merged(w.key.kind == Snippet, base, Side(local, localUpdatedAt, env.device),
                          Side(doc, w.updatedAt, w.device)).value;
    var applied := c.(rows := ApplyDocument(env, c.rows, w.key, outcome.doc).value);
    RowsGrow(env, c, applied.rows);
    var copied := applied;
    if outcome.bodyConflict && makeCopy {
      var made := CreateCopy(env, applied, w.key, local, now).value;
      copied := made.0;
      CopyGrows(env, applied, w.key, local, now, made.0, made.1);
      GrowsTransitive(env, c, applied, copied);
    }
    var settled := Settle(copied, w).value;
    SettleSealGrows(env, copied, w, settled, None, now, next, Enqueue(env, settled, w.key, None, now).value.1);
    GrowsTransitive(env, c, copied, next);
  }

  lemma MergeGrows(env: Env, c: Client, w: Wire, head: Queued, now: int, makeCopy: bool, next: Client,
                   copy: Option<string>)
    requires MergeConflicted(env, c, w, head, now, makeCopy) == Ok((next, copy))
    ensures Grows(env, c, next)
  {
    hide Newest, MaxVersion, NextVersion, Enqueue, Settle, MergeEdits, Grows, ApplyDocument, ApplyTombstone, SoftDelete;
    match (w.body, head.wire.body)
    case (Tombstone(at), _) =>
      var stored := c.(rows := ApplyTombstone(env, c.rows, w.key, at).value);
      RowsGrow(env, c, stored.rows);
      SettleGrows(env, stored, w, next);
      GrowsTransitive(env, c, stored, next);
    case (Content(doc), Tombstone(at)) =>
      var rows :=
        if w.key.kind == Snippet then SoftDelete(ApplyDocument(env, c.rows, w.key, doc).value, w.key, at).value
        else c.rows;
      var stored := c.(rows := rows);
      RowsGrow(env, c, rows);
      var settled := Settle(stored, w).value;
      SettleSealGrows(env, stored, w, settled, Some(at), now, next,
                      Enqueue(env, settled, w.key, Some(at), now).value.1);
      GrowsTransitive(env, c, stored, next);
    case (Content(doc), Content(_)) =>
      match Build(c.rows, w.key)
      case Missing =>
        var stored := c.(rows := ApplyDocument(env, c.rows, w.key, doc).value);
        RowsGrow(env, c, stored.rows);
        SettleGrows(env, stored, w, next);
        GrowsTransitive(env, c, stored, next);
      case Built(local) =>
        EditsGrow(env, c, w, doc, local, head.wire.updatedAt, now, makeCopy, next, copy);
  }

  lemma LandGrows(env: Env, c: Client, w: Wire, now: int, makeCopy: bool, next: Client, fate: Fate)
    requires Land(env, c, w, now, makeCopy) == Ok((next, fate))
    ensures Grows(env, c, next)
  {
    hide Newest, MaxVersion, MergeConflicted, ApplyDocument, ApplyTombstone;
    match Newest(c.outbox, w.key, {Conflicted})
    case Some(head) =>
      var r := MergeConflicted(env, c, w, head, now, makeCopy).value;
      MergeGrows(env, c, w, head, now, makeCopy, r.0, r.1);
    case None =>
      SubsetGrows(env, c, next);
  }

  lemma ApplyOneGrows(env: Env, c: Client, p: Pulled, now: int, next: Client, fate: Fate)
    requires ApplyOne(env, c, p, now, true) == Ok((next, fate))
    ensures Grows(env, c, next)
  {
    hide Newest, MaxVersion, Land;
    match Land(env, c, p.wire, now, true)
    case Ok(landed) =>
      LandGrows(env, c, p.wire, now, true, landed.0, landed.1);
      if next.outbox == c.outbox && next.drawn == c.drawn {
        SubsetGrows(env, c, next);
      }
    case Err(_) => SubsetGrows(env, c, next);
  }

  lemma {:induction false} LiveGrows(env: Env, c: Client, entities: seq<Key>, now: int, next: Client, n: nat)
    requires ReconcileLive(env, c, entities, now) == Ok((next, n))
    ensures Grows(env, c, next) && Appends(c, next)
  {
    hide Newest, MaxVersion, Enqueue, Basis, Grows;
    if entities == [] {
      RowsGrow(env, c, c.rows);
    } else {
      var before := ReconcileLive(env, c, entities[..|entities| - 1], now).value;
      LiveGrows(env, c, entities[..|entities| - 1], now, before.0, before.1);
      var key := entities[|entities| - 1];
      if Build(before.0.rows, key).Built? && Basis(c, key) != Some(before.0.rows[key]) {
        var r := Enqueue(env, before.0, key, None, now).value;
        EnqueueSealsHere(env, before.0, key, None, now, r.0, r.1);
        GrowsTransitive(env, c, before.0, next);
      }
    }
  }

  lemma {:induction false} GoneGrows(env: Env, c: Client, start: Client, entities: seq<Key>, keys: seq<Key>, now: int,
                                     next: Client, n: nat)
    requires ReconcileGone(env, c, start, entities, keys, now) == Ok((next, n))
    ensures Grows(env, start, next) && Appends(start, next)
  {
    hide Newest, MaxVersion, Enqueue, Grows, GoneLocally, TombstoneQueued;
    if keys == [] {
      RowsGrow(env, start, start.rows);
    } else {
      var before := ReconcileGone(env, c, start, entities, keys[..|keys| - 1], now).value;
      GoneGrows(env, c, start, entities, keys[..|keys| - 1], now, before.0, before.1);
      var key := keys[|keys| - 1];
      var at := GoneLocally(before.0.rows, key, now);
      if !(key in entities || TombstoneQueued(c, key)) && at.Some? {
        var r := Enqueue(env, before.0, key, at, now).value;
        EnqueueSealsHere(env, before.0, key, at, now, r.0, r.1);
        GrowsTransitive(env, start, before.0, next);
      }
    }
  }

  lemma ReconcileGrows(env: Env, c: Client, entities: seq<Key>, keys: seq<Key>, now: int, next: Client, n: nat)
    requires Reconcile(env, c, entities, keys, now) == Ok((next, n))
    ensures Grows(env, c, next) && Appends(c, next)
  {
    hide ReconcileLive, ReconcileGone, Grows;
    var live := ReconcileLive(env, c, entities, now).value;
    LiveGrows(env, c, entities, now, live.0, live.1);
    var gone := ReconcileGone(env, c, live.0, entities, keys, now).value;
    GoneGrows(env, c, live.0, entities, keys, now, gone.0, gone.1);
    GrowsTransitive(env, c, live.0, gone.0);
  }
}
