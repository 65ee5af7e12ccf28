/** The catch-up pass over changes made while the outbox observer was detached. */
module SyncReconcile {
  import opened Wrappers
  import opened Merge
  import opened SyncModel
  import opened SyncBasis

  /** The snippet a link, template field or app rule belongs to. */
  function ParentKey(doc: Doc): Key {
    Key(Snippet, if Lookup(doc, "snippet_id").Str? then Lookup(doc, "snippet_id").s else "")
  }

  predicate Dependent(kind: Kind) {
    kind in {SnippetTag, TemplateField, AppRule}
  }

  /** The entities the full-library walk visits: folders, tags, snippets outside the recycle bin and
      what hangs off such a snippet. */
  predicate Walked(rows: map<Key, Doc>, key: Key) {
    && key in rows && key.kind != AiAction && Live(key, rows[key])
    && (Dependent(key.kind) ==> var parent := ParentKey(rows[key]); parent in rows && Live(parent, rows[parent]))
  }

  /** When an entity that still has a shadow base is gone: the recycle time, or now for a missing row. */
  function GoneLocally(rows: map<Key, Doc>, key: Key, now: int): Option<int> {
    if key.kind == Snippet then
      if key in rows then
        if Lookup(rows[key], "deleted_at").Num? then Some(Lookup(rows[key], "deleted_at").n) else None
      else Some(now)
    else if Build(rows, key).Missing? then Some(now)
    else None
  }

  predicate TombstoneQueued(c: Client, key: Key) {
    var head := Newest(c.outbox, key, QUEUED);
    head.Some? && head.value.wire.body.Tombstone?
  }

  /** Queues every visited entity whose document differs from its basis. */
  function ReconcileLive(env: Env, c: Client, entities: seq<Key>, now: int): Result<(Client, nat), SyncError> {
    if entities == [] then Ok((c, 0))
    else
      var before :- ReconcileLive(env, c, entities[..|entities| - 1], now);
      var key := entities[|entities| - 1];
      match Build(before.0.rows, key)
      case Built(doc) =>
        if Basis(c, key) == Some(doc) then Ok(before)
        else
          var r :- Enqueue(env, before.0, key, None, now);
          Ok((r.0, before.1 + if r.1 then 1 else 0))
      case _ => Ok(before)
  }

  /** Queues a tombstone for every entity with a shadow document that is gone. */
  function ReconcileGone(env: Env, c: Client, start: Client, entities: seq<Key>, keys: seq<Key>, now: int)
    : Result<(Client, nat), SyncError>
  {
    if keys == [] then Ok((start, 0))
    else
      var before :- ReconcileGone(env, c, start, entities, keys[..|keys| - 1], now);
      var key := keys[|keys| - 1];
      if key in entities || TombstoneQueued(c, key) then Ok(before)
      else
        match GoneLocally(before.0.rows, key, now)
        case None => Ok(before)
        case Some(at) =>
          var r :- Enqueue(env, before.0, key, Some(at), now);
          Ok((r.0, before.1 + if r.1 then 1 else 0))
  }

  function Reconcile(env: Env, c: Client, entities: seq<Key>, keys: seq<Key>,
                     now: int): Result<(Client, nat), SyncError> {
    if !env.access.hasKey then Err(MissingKey)
    else
      var live :- ReconcileLive(env, c, entities, now);
      var gone :- ReconcileGone(env, c, live.0, entities, keys, now);
      Ok((gone.0, live.1 + gone.1))
  }

  /** What the two database queries return: the walk, and the keys of shadows with a document. */
  ghost predicate Lists(c: Client, entities: seq<Key>, keys: seq<Key>) {
    && (forall k :: k in entities <==> Walked(c.rows, k))
    && (forall k :: k in keys <==> k in c.shadows && c.shadows[k].doc.Some?)
  }

  lemma {:induction false} LiveEffect(env: Env, c: Client, entities: seq<Key>, now: int, next: Client, n: nat)
    requires Ordered(c.outbox) && ReconcileLive(env, c, entities, now) == Ok((next, n))
    requires forall k :: k in entities ==> k in c.rows && k.kind != AiAction
    ensures next == c.(outbox := next.outbox, drawn := next.drawn) && Ordered(next.outbox)
    ensures forall k :: Basis(next, k) == if k in entities then Some(c.rows[k]) else Basis(c, k)
    ensures n == 0 <==> next == c
    ensures n == 0 <==> forall k :: k in entities ==> Basis(c, k) == Some(c.rows[k])
  {
    hide Newest, MaxVersion, Ordered, Basis;
    if entities != [] {
      var rest := entities[..|entities| - 1];
      var key := entities[|entities| - 1];
      var before := ReconcileLive(env, c, rest, now).value;
      assert entities == rest + [key];
      LiveEffect(env, c, rest, now, before.0, before.1);
      if Basis(c, key) != Some(c.rows[key]) {
        var r := Enqueue(env, before.0, key, None, now).value;
        EnqueueEffect(env, before.0, key, None, now, r.0, r.1);
        EnqueueGrows(env, before.0, key, None, now, r.0, r.1);
        EnqueueOnly(env, c, rest, now, before.0, before.1);
      }
    }
  }

  lemma EnqueueGrows(env: Env, c: Client, key: Key, deletedAt: Option<int>, now: int, next: Client, queued: bool)
    requires Enqueue(env, c, key, deletedAt, now) == Ok((next, queued))
    ensures |next.outbox| == |c.outbox| + if queued then 1 else 0
  {
  }

  lemma {:induction false} EnqueueOnly(env: Env, c: Client, entities: seq<Key>, now: int, next: Client, n: nat)
    requires ReconcileLive(env, c, entities, now) == Ok((next, n))
    ensures |next.outbox| == |c.outbox| + n
  {
    hide Newest, MaxVersion, Basis, Enqueue;
    if entities != [] {
      var before := ReconcileLive(env, c, entities[..|entities| - 1], now).value;
      EnqueueOnly(env, c, entities[..|entities| - 1], now, before.0, before.1);
      var key := entities[|entities| - 1];
      if Build(before.0.rows, key).Built? && Basis(c, key) != Some(before.0.rows[key]) {
        var r := Enqueue(env, before.0, key, None, now).value;
        EnqueueGrows(env, before.0, key, None, now, r.0, r.1);
      }
    }
  }

  /** Whether the second sweep queues a tombstone for this key. */
  predicate Swept(c: Client, rows: map<Key, Doc>, entities: seq<Key>, key: Key, now: int) {
    key !in entities && !TombstoneQueued(c, key) && GoneLocally(rows, key, now).Some?
  }

  lemma {:induction false} GoneEffect(env: Env, c: Client, start: Client, entities: seq<Key>, keys: seq<Key>, now: int,
                                      next: Client, n: nat)
    requires Ordered(start.outbox) && ReconcileGone(env, c, start, entities, keys, now) == Ok((next, n))
    ensures next == start.(outbox := next.outbox, drawn := next.drawn) && Ordered(next.outbox)
    ensures |next.outbox| == |start.outbox| + n
    ensures n == 0 ==> next == start
    ensures forall k :: Basis(next, k)
                     == if k in keys && Swept(c, start.rows, entities, k, now) then None else Basis(start, k)
    ensures n == 0 <==> forall k :: k in keys ==> !Swept(c, start.rows, entities, k, now)
  {
    hide Newest, MaxVersion, Ordered, Basis, TombstoneQueued, GoneLocally;
    if keys != [] {
      var rest := keys[..|keys| - 1];
      var key := keys[|keys| - 1];
      var before := ReconcileGone(env, c, start, entities, rest, now).value;
      assert keys == rest + [key];
      GoneEffect(env, c, start, entities, rest, now, before.0, before.1);
      if Swept(c, start.rows, entities, key, now) {
        var at := GoneLocally(start.rows, key, now);
        var r := Enqueue(env, before.0, key, at, now).value;
        EnqueueEffect(env, before.0, key, at, now, r.0, r.1);
        EnqueueGrows(env, before.0, key, at, now, r.0, r.1);
      }
    }
  }

  /** After the pass an entity is at its basis exactly when the walk visited it, or it was at its
      basis already, or it is gone and its shadow base still holds a document. What stays off: an
      entity deleted before any of its content was accepted, and the dependents of a recycled snippet. */
  lemma ReconcileRestores(env: Env, c: Client, entities: seq<Key>, keys: seq<Key>, now: int, next: Client, n: nat,
                          k: Key)
    requires Ordered(c.outbox) && Lists(c, entities, keys)
    requires Reconcile(env, c, entities, keys, now) == Ok((next, n))
    ensures Ordered(next.outbox) && next == c.(outbox := next.outbox, drawn := next.drawn)
    ensures BasisAt(next, k)
       <==> k in entities || BasisAt(c, k)
            || (k in c.shadows && c.shadows[k].doc.Some? && View(c, k) == None && k.kind != AiAction)
  {
    hide MaxVersion, Ordered;
    var live := ReconcileLive(env, c, entities, now).value;
    LiveEffect(env, c, entities, now, live.0, live.1);
    var gone := ReconcileGone(env, c, live.0, entities, keys, now).value;
    GoneEffect(env, c, live.0, entities, keys, now, gone.0, gone.1);
    assert View(next, k) == View(c, k);
    GoneMeansUnseen(c, k, now);
  }

  lemma GoneMeansUnseen(c: Client, k: Key, now: int)
    ensures GoneLocally(c.rows, k, now).Some? <==> View(c, k) == None && k.kind != AiAction
    ensures TombstoneQueued(c, k) ==> Basis(c, k) == None
    ensures Basis(c, k) == None && k in c.shadows && c.shadows[k].doc.Some? ==> TombstoneQueued(c, k)
  {
  }

  /** An entity at its basis is left alone by both sweeps. */
  lemma NothingToQueue(c: Client, entities: seq<Key>, keys: seq<Key>, now: int, k: Key)
    requires Lists(c, entities, keys)
    requires k in entities || (k in keys && GoneLocally(c.rows, k, now).Some?) ==> BasisAt(c, k)
    ensures k in entities ==> Basis(c, k) == Some(c.rows[k])
    ensures k in keys ==> !Swept(c, c.rows, entities, k, now)
  {
    hide MaxVersion;
    GoneMeansUnseen(c, k, now);
  }

  /** The pass queues nothing exactly when every visited entity and every gone one is at its basis;
      in particular an untouched library queues nothing. */
  lemma UntouchedQueuesNothing(env: Env, c: Client, entities: seq<Key>, keys: seq<Key>, now: int, next: Client, n: nat)
    requires Ordered(c.outbox) && Lists(c, entities, keys)
    requires Reconcile(env, c, entities, keys, now) == Ok((next, n))
    ensures n == 0 <==> next == c
    ensures n == 0 <==> forall k :: k in entities || (k in keys && GoneLocally(c.rows, k, now).Some?) ==> BasisAt(c, k)
  {
    hide Newest, MaxVersion, Ordered, Basis, GoneLocally, TombstoneQueued, View;
    var live := ReconcileLive(env, c, entities, now).value;
    LiveBuilt(c, entities, keys);
    LiveEffect(env, c, entities, now, live.0, live.1);
    EnqueueOnly(env, c, entities, now, live.0, live.1);
    var gone := ReconcileGone(env, c, live.0, entities, keys, now).value;
    GoneEffect(env, c, live.0, entities, keys, now, gone.0, gone.1);
    if forall k :: k in entities || (k in keys && GoneLocally(c.rows, k, now).Some?) ==> BasisAt(c, k) {
      forall k ensures k in entities ==> Basis(c, k) == Some(c.rows[k])
        ensures k in keys ==> !Swept(c, c.rows, entities, k, now) {
        NothingToQueue(c, entities, keys, now, k);
      }
    }
    if n == 0 {
      forall k | k in entities || (k in keys && GoneLocally(c.rows, k, now).Some?) ensures BasisAt(c, k) {
        IdleAtBasis(c, entities, keys, now, k);
      }
    }
  }

  lemma LiveBuilt(c: Client, entities: seq<Key>, keys: seq<Key>)
    requires Lists(c, entities, keys)
    ensures forall k :: k in entities ==> k in c.rows && k.kind != AiAction
  {
  }

  lemma IdleAtBasis(c: Client, entities: seq<Key>, keys: seq<Key>, now: int, k: Key)
    requires Lists(c, entities, keys)
    requires k in entities || (k in keys && GoneLocally(c.rows, k, now).Some?)
    requires k in entities ==> Basis(c, k) == Some(c.rows[k])
    requires k in keys ==> !Swept(c, c.rows, entities, k, now)
    ensures BasisAt(c, k)
  {
    hide MaxVersion;
    GoneMeansUnseen(c, k, now);
  }

  /** Running the pass again, with nothing pushed in between, queues nothing. */
  lemma SecondReconcileIdle(env: Env, c: Client, entities: seq<Key>, keys: seq<Key>, now: int, next: Client, n: nat,
                            later: int)
    requires Ordered(c.outbox) && Lists(c, entities, keys)
    requires Reconcile(env, c, entities, keys, now) == Ok((next, n))
    requires Reconcile(env, next, entities, keys, later).Ok?
    ensures Reconcile(env, next, entities, keys, later) == Ok((next, 0))
  {
    hide Newest, MaxVersion, Ordered, Basis, GoneLocally, TombstoneQueued, View, ReconcileLive, ReconcileGone;
    ReconcileRestores(env, c, entities, keys, now, next, n, Key(Snippet, ""));
    forall k ensures k in entities || (k in keys && GoneLocally(next.rows, k, later).Some?) ==> BasisAt(next, k)
    {
      ReconcileRestores(env, c, entities, keys, now, next, n, k);
      GoneMeansUnseen(next, k, later);
      ViewUnmoved(c, next, k);
    }
    var again := Reconcile(env, next, entities, keys, later).value;
    UntouchedQueuesNothing(env, next, entities, keys, later, again.0, again.1);
  }

  lemma ViewUnmoved(c: Client, next: Client, k: Key)
    requires next.rows == c.rows
    ensures View(next, k) == View(c, k)
  {
  }
}
