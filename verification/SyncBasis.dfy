/** The basis invariant: what a device shows for an entity is the document of its newest unsent
    record, or its shadow document when nothing is unsent. Which step keeps it, and which does not. */
module SyncBasis {
  import opened Wrappers
  import opened Merge
  import opened SyncModel
  import opened SyncOutbox
  import opened SyncCascade

  // ----- sealing -----

  /** Appending a record newer than everything of its entity makes it that entity's basis. */
  lemma AppendBasis(c: Client, q: Queued, drawn: nat)
    requires Ordered(c.outbox) && q.stage == Pending
    requires MaxVersion(c.outbox, q.wire.key) < q.wire.version
    requires forall r :: r in c.outbox ==> r.wire.id != q.wire.id
    ensures var next := c.(outbox := c.outbox + [q], drawn := drawn);
            && Ordered(next.outbox)
            && Basis(next, q.wire.key) == BodyDoc(q.wire.body)
            && (forall k :: k != q.wire.key ==> Basis(next, k) == Basis(c, k))
  {
    OrderedAppend(c.outbox, q);
    NewestAppend(c.outbox, q, q.wire.key, QUEUED);
    forall k | k != q.wire.key ensures Newest(c.outbox + [q], k, QUEUED) == Newest(c.outbox, k, QUEUED) {
      NewestAppend(c.outbox, q, k, QUEUED);
    }
  }

  /** What sealing one change does: it becomes the basis of its entity and touches nothing else. */
  ghost predicate Sealed(c: Client, next: Client, key: Key, doc: Option<Doc>) {
    && next == c.(outbox := next.outbox, drawn := next.drawn)
    && Ordered(next.outbox)
    && Basis(next, key) == doc
    && (forall k :: k != key ==> Basis(next, k) == Basis(c, k))
  }

  lemma EnqueueEffect(env: Env, c: Client, key: Key, deletedAt: Option<int>, now: int, next: Client, queued: bool)
    requires Ordered(c.outbox)
    requires Enqueue(env, c, key, deletedAt, now) == Ok((next, queued))
    ensures queued <==> deletedAt.Some? || Build(c.rows, key).Built?
    ensures if queued then Sealed(c, next, key, if deletedAt.Some? then None else Some(c.rows[key])) else next == c
  {
    hide Newest, MaxVersion, Ordered;
    var body := SealedBody(env, c, key, deletedAt).value;
    if body.Some? {
      var q := Queued(Wire(env.uuid(c.drawn), key, NextVersion(c, key), body.value, now, env.device), Pending, None);
      AppendBasis(c, q, c.drawn + 1);
    }
  }

  /** The tables after one row was stored or deleted. */
  function Written(rows: map<Key, Doc>, key: Key, row: Option<Doc>): map<Key, Doc> {
    if row.Some? then rows[key := row.value] else Removed(rows, key)
  }

  /** The other entities such a write moves. */
  function Displaced(rows: map<Key, Doc>, key: Key, row: Option<Doc>): set<Key> {
    if row.Some? then {} else Uprooted(rows, key)
  }

  /** One local write use case: the row changes and the change of this one entity is announced in one
      transaction; what the schema takes along is not announced. */
  function WriteLocally(env: Env, c: Client, key: Key, row: Option<Doc>, deletedAt: Option<int>, now: int)
    : Result<(Client, bool), SyncError>
  {
    Enqueue(env, c.(rows := Written(c.rows, key, row)), key, deletedAt, now)
  }

  lemma WrittenMoves(c: Client, key: Key, row: Option<Doc>)
    ensures var next := c.(rows := Written(c.rows, key, row));
            && View(next, key) == (if row.Some? && Live(key, row.value) then row else None)
            && (forall k :: k != key ==> (View(next, k) == View(c, k) <==> k !in Displaced(c.rows, key, row)))
  {
    hide Removed, Uprooted;
    forall k | k != key
      ensures View(c.(rows := Written(c.rows, key, row)), k) == View(c, k) <==> k !in Displaced(c.rows, key, row)
    {
      RemovalMoves(c, key, k);
    }
    RemovalMoves(c, key, key);
  }

  lemma OtherTablesBasis(c: Client, next: Client)
    requires next.outbox == c.outbox && next.shadows == c.shadows
    ensures forall k :: Basis(next, k) == Basis(c, k)
  {
    hide Newest;
  }

  /** A sealed write keeps the basis exactly when the announcement says what happened to the row:
      a deletion for a row that is gone or recycled, a change for a row outside the bin. Of the other
      entities it takes exactly those off their basis that the deletion moves. */
  lemma WriteKeepsBasis(env: Env, c: Client, key: Key, row: Option<Doc>, deletedAt: Option<int>, now: int, next: Client,
                        queued: bool)
    requires Ordered(c.outbox)
    requires WriteLocally(env, c, key, row, deletedAt, now) == Ok((next, queued))
    ensures Ordered(next.outbox)
    ensures queued ==> (BasisAt(next, key) <==> (deletedAt.Some? <==> !(row.Some? && Live(key, row.value))))
    ensures forall k :: k != key && k !in Displaced(c.rows, key, row) ==> (BasisAt(next, k) <==> BasisAt(c, k))
    ensures forall k :: k != key && BasisAt(c, k) ==> (BasisAt(next, k) <==> k !in Displaced(c.rows, key, row))
  {
    hide Newest, MaxVersion, Ordered, Enqueue, Basis, Written, Displaced;
    var rows := Written(c.rows, key, row);
    WrittenMoves(c, key, row);
    OtherTablesBasis(c, c.(rows := rows));
    EnqueueEffect(env, c.(rows := rows), key, deletedAt, now, next, queued);
    assert forall k :: View(next, k) == View(c.(rows := rows), k);
    assert queued && deletedAt.None?
           ==> key in rows && View(next, key) == (if Live(key, rows[key]) then Some(rows[key]) else None);
  }

  // ----- settling the shadow -----

  /** What the entity's basis is once its conflict is dropped and the record is its shadow base. */
  function AfterHead(c: Client, w: Wire): Option<Doc> {
    match Newest(c.outbox, w.key, {Pending})
    case Some(q) => BodyDoc(q.wire.body)
    case None => BodyDoc(w.body)
  }

  /** Adopting the server head leaves only what is pending unsent for the entity. */
  lemma SettleEffect(c: Client, w: Wire, next: Client)
    requires Ordered(c.outbox) && Settle(c, w) == Ok(next)
    ensures next == c.(shadows := c.shadows[w.key := Shadow(w.version, BodyDoc(w.body))], outbox := next.outbox)
    ensures Ordered(next.outbox) && !Holds(next.outbox, w.key, Conflicted)
    ensures Basis(next, w.key) == AfterHead(c, w)
    ensures forall k :: k != w.key ==> Basis(next, k) == Basis(c, k)
  {
    OrderedClear(c.outbox, w.key);
    ClearDropsConflicts(c.outbox, w.key);
    NewestClear(c.outbox, w.key, w.key, QUEUED);
    assert QUEUED - {Conflicted} == {Pending};
    forall k | k != w.key ensures Basis(next, k) == Basis(c, k) {
      NewestClear(c.outbox, w.key, k, QUEUED);
    }
  }

  // ----- merging -----

  /** A snippet document that is itself in the recycle bin. */
  predicate BinnedContent(w: Wire) {
    w.body.Content? && !Live(w.key, w.body.doc)
  }

  /** What the record shows once it is the row: nothing for a deletion or a recycled document. */
  function Shown(w: Wire): Option<Doc> {
    if BinnedContent(w) then None else BodyDoc(w.body)
  }

  /** The state the merge resolves: nothing pending for the entity, its conflict the newest record. */
  ghost predicate AtConflict(c: Client, w: Wire, head: Queued) {
    && Ordered(c.outbox)
    && Newest(c.outbox, w.key, {Conflicted}) == Some(head)
    && !Holds(c.outbox, w.key, Pending)
  }

  lemma ConflictIsBasis(c: Client, w: Wire, head: Queued)
    requires AtConflict(c, w, head)
    ensures Basis(c, w.key) == BodyDoc(head.wire.body)
  {
    forall r | r in c.outbox && r.wire.key == w.key && r.stage in QUEUED ensures r.wire.version <= head.wire.version {
      assert r.stage != Pending;
    }
    NewestIs(c.outbox, w.key, QUEUED, head);
  }

  /** The other entities a record moves when its deletion cascades. */
  function Fallout(rows: map<Key, Doc>, w: Wire): set<Key> {
    if w.body.Tombstone? && w.key.kind != Snippet then Uprooted(rows, w.key) else {}
  }

  /** What every successful resolution leaves behind, whatever the two sides were: the server head
      as shadow base, no conflict, and no other entity moved except a new conflict copy and exactly
      what an incoming deletion takes along. */
  ghost predicate Resolved(c: Client, next: Client, w: Wire, copy: Option<string>) {
    && next == c.(rows := next.rows, outbox := next.outbox, drawn := next.drawn,
                  shadows := c.shadows[w.key := Shadow(w.version, BodyDoc(w.body))])
    && Ordered(next.outbox)
    && !Holds(next.outbox, w.key, Conflicted)
    && (forall k :: k != w.key && !IsCopy(copy, k)
          ==> Basis(next, k) == Basis(c, k) && (View(next, k) == View(c, k) <==> k !in Fallout(c.rows, w)))
    && (forall k :: k != w.key && IsCopy(copy, k) ==> BasisAt(next, k))
  }

  predicate IsCopy(copy: Option<string>, key: Key) {
    copy.Some? && key == Key(Snippet, copy.value)
  }

  /** Adopting the server head with nothing to send afterwards. */
  lemma SettledResolved(c: Client, w: Wire, rows: map<Key, Doc>, next: Client)
    requires Ordered(c.outbox) && Settle(c.(rows := rows), w) == Ok(next)
    requires forall k :: k != w.key ==> (View(c.(rows := rows), k) == View(c, k) <==> k !in Fallout(c.rows, w))
    ensures Resolved(c, next, w, None)
    ensures Basis(next, w.key) == AfterHead(c, w)
    ensures next.rows == rows
  {
    hide Fallout;
    OtherTablesBasis(c, c.(rows := rows));
    SettleEffect(c.(rows := rows), w, next);
    assert forall k :: View(next, k) == View(c.(rows := rows), k);
  }

  /** Adopting the server head and sealing the agreed outcome past it. */
  lemma SettleAndSeal(env: Env, c: Client, w: Wire, settled: Client, deletedAt: Option<int>, now: int, next: Client,
                      queued: bool)
    requires Ordered(c.outbox) && Settle(c, w) == Ok(settled)
    requires Enqueue(env, settled, w.key, deletedAt, now) == Ok((next, queued))
    requires deletedAt.Some? || Build(c.rows, w.key).Built?
    ensures next == c.(outbox := next.outbox, drawn := next.drawn,
                       shadows := c.shadows[w.key := Shadow(w.version, BodyDoc(w.body))])
    ensures Ordered(next.outbox) && !Holds(next.outbox, w.key, Conflicted)
    ensures Basis(next, w.key) == (if deletedAt.Some? then None else Some(c.rows[w.key]))
    ensures forall k :: k != w.key ==> Basis(next, k) == Basis(c, k)
  {
    SettleEffect(c, w, settled);
    EnqueueEffect(env, settled, w.key, deletedAt, now, next, queued);
    assert next.outbox[..|settled.outbox|] == settled.outbox;
  }

  /** Local deletion against remote edit: the deletion is what stays, on screen and in the queue. */
  lemma DeletionResolved(env: Env, c: Client, w: Wire, doc: Doc, at: int, now: int, next: Client)
    requires Ordered(c.outbox) && w.body == Content(doc)
    requires KeepDeletion(env, c, w, doc, at, now) == Ok(next)
    ensures Resolved(c, next, w, None)
    ensures Basis(next, w.key) == None
    ensures View(next, w.key) == None <==> w.key.kind == Snippet || w.key !in c.rows
  {
    hide Newest, MaxVersion, Ordered, Basis, Enqueue, Settle, Holds;
    var rows :=
      if w.key.kind == Snippet then SoftDelete(ApplyDocument(env, c.rows, w.key, doc).value, w.key, at).value
      else c.rows;
    OtherTablesBasis(c, c.(rows := rows));
    var settled := Settle(c.(rows := rows), w).value;
    SettleAndSeal(env, c.(rows := rows), w, settled, Some(at), now, next,
                  Enqueue(env, settled, w.key, Some(at), now).value.1);
  }

  lemma CopyEffect(env: Env, c: Client, key: Key, localEntity: Doc, now: int, next: Client, copyId: string)
    requires Ordered(c.outbox) && CreateCopy(env, c, key, localEntity, now) == Ok((next, copyId))
    ensures next == c.(rows := next.rows, outbox := next.outbox, drawn := next.drawn)
    ensures Ordered(next.outbox) && copyId == env.uuid(c.drawn)
    ensures BasisAt(next, Key(Snippet, copyId)) && View(next, Key(Snippet, copyId)).Some?
    ensures forall k :: k != Key(Snippet, copyId) ==> Basis(next, k) == Basis(c, k)
    ensures Key(Snippet, copyId) in next.rows
            && next.rows == c.rows[Key(Snippet, copyId) := next.rows[Key(Snippet, copyId)]]
  {
    hide Newest, MaxVersion, Ordered, Basis, ConflictCopy, Enqueue;
    var copyKey := Key(Snippet, env.uuid(c.drawn));
    var folder := if key.kind == Snippet && key in c.rows then Lookup(c.rows[key], "folder_id") else Null;
    var copy := ConflictCopy(localEntity, folder, env.uuid(c.drawn), env.deviceName, now).value;
    var stored := c.(rows := c.rows[copyKey := copy], drawn := c.drawn + 1);
    OtherTablesBasis(c, stored);
    EnqueueEffect(env, stored, copyKey, None, now, next, Enqueue(env, stored, copyKey, None, now).value.1);
  }

  /** The state a three-way merge settles: the merged row and, after a body conflict, the copy. */
  lemma MergedState(env: Env, c: Client, w: Wire, local: Doc, outcome: Outcome, now: int, makeCopy: bool,
                    copied: (Client, Option<string>))
    requires Ordered(c.outbox)
    requires if outcome.bodyConflict && makeCopy
             then CreateCopy(env, c.(rows := c.rows[w.key := outcome.doc]), w.key, local, now).Ok?
                  && copied == (var r := CreateCopy(env, c.(rows := c.rows[w.key := outcome.doc]), w.key, local,
                                                    now).value;
                                (r.0, Some(r.1)))
             else copied == (c.(rows := c.rows[w.key := outcome.doc]), None)
    ensures copied.0 == c.(rows := copied.0.rows, outbox := copied.0.outbox, drawn := copied.0.drawn)
    ensures Ordered(copied.0.outbox)
    ensures w.key in copied.0.rows
    ensures copied.1 == if outcome.bodyConflict && makeCopy then Some(env.uuid(c.drawn)) else None
    ensures Live(w.key, copied.0.rows[w.key]) <==> Live(w.key, outcome.doc) || IsCopy(copied.1, w.key)
    ensures forall k :: k != w.key && !IsCopy(copied.1, k)
                        ==> View(copied.0, k) == View(c, k) && Basis(copied.0, k) == Basis(c, k)
    ensures forall k :: k != w.key && IsCopy(copied.1, k) ==> BasisAt(copied.0, k)
  {
    var rows := c.rows[w.key := outcome.doc];
    OtherTablesBasis(c, c.(rows := rows));
    if outcome.bodyConflict && makeCopy {
      CopyEffect(env, c.(rows := rows), w.key, local, now, copied.0, copied.1.value);
    }
  }

  /** The merged deletion mark is unset, or the copy takes the entity's own place, which fresh ids rule out. */
  predicate MergedLive(env: Env, c: Client, w: Wire, doc: Doc, local: Doc, localUpdatedAt: int, makeCopy: bool) {
    var base := BaseDoc(if w.key in c.shadows then c.shadows[w.key].doc else None);
    var localWins := LocalWins(Side(local, localUpdatedAt, env.device), Side(doc, w.updatedAt, w.device));
    w.key.kind == Snippet
    ==> !PlainField(base, local, doc, localWins, "deleted_at").Num?
        || (BodyConflict(base, local, doc) && makeCopy && w.key.id == env.uuid(c.drawn))
  }

  /** Edit against edit: the merged document is what stays, on screen and in the queue. It is on screen
      exactly when its deletion mark merged to none. */
  lemma EditsResolved(env: Env, c: Client, w: Wire, doc: Doc, local: Doc, localUpdatedAt: int, now: int, makeCopy: bool,
                      next: Client, copy: Option<string>)
    requires Ordered(c.outbox) && w.body == Content(doc)
    requires MergeEdits(env, c, w, doc, local, localUpdatedAt, now, makeCopy) == Ok((next, copy))
    ensures Resolved(c, next, w, copy)
    ensures w.key in next.rows && Basis(next, w.key) == Some(next.rows[w.key])
    ensures BasisAt(next, w.key) <==> MergedLive(env, c, w, doc, local, localUpdatedAt, makeCopy)
  {
    hide Newest, MaxVersion, Ordered, Merged, Basis, Holds, Enqueue, Settle, CreateCopy, BodyConflict, PlainField,
         LocalWins;
    var base := if w.key in c.shadows then c.shadows[w.key].doc else None;
    var (mine, theirs) := (Side(local, localUpdatedAt, env.device), Side(doc, w.updatedAt, w.device));
    var outcome := Merged(w.key.kind == Snippet, base, mine, theirs).value;
    MergedPlain(w.key.kind == Snippet, base, mine, theirs, "deleted_at");
    var applied := c.(rows := c.rows[w.key := outcome.doc]);
    var copied :=
      if outcome.bodyConflict && makeCopy
      then var r := CreateCopy(env, applied, w.key, local, now).value; (r.0, Some(r.1))
      else (applied, None);
    MergedState(env, c, w, local, outcome, now, makeCopy, copied);
    var settled := Settle(copied.0, w).value;
    SettleAndSeal(env, copied.0, w, settled, None, now, next, Enqueue(env, settled, w.key, None, now).value.1);
  }

  /** The tombstone's effect on the rows: the entity is off the screen, with what the deletion takes along. */
  lemma TombstoneRow(env: Env, c: Client, w: Wire, at: int, rows: map<Key, Doc>)
    requires w.body.Tombstone? && ApplyTombstone(env, c.rows, w.key, at) == Ok(rows)
    ensures View(c.(rows := rows), w.key) == None
    ensures forall k :: k != w.key ==> (View(c.(rows := rows), k) == View(c, k) <==> k !in Fallout(c.rows, w))
  {
    hide Removed, Uprooted;
    if w.key.kind != Snippet {
      forall k ensures k != w.key ==> (View(c.(rows := rows), k) == View(c, k) <==> k !in Fallout(c.rows, w)) {
        RemovalMoves(c, w.key, k);
      }
      RemovalMoves(c, w.key, w.key);
    }
  }

  /** When a resolution leaves the entity at its basis, told from the state before it. */
  predicate MergeLands(env: Env, c: Client, w: Wire, head: Queued, makeCopy: bool) {
    match (w.body, head.wire.body)
    case (Tombstone(_), _) => AfterHead(c, w) == None
    case (Content(doc), Tombstone(_)) => w.key.kind == Snippet || w.key !in c.rows
    case (Content(doc), Content(_)) =>
      if w.key in c.rows then MergedLive(env, c, w, doc, c.rows[w.key], head.wire.updatedAt, makeCopy)
      else Shown(w) == AfterHead(c, w)
  }

  /** Every outcome of conflict resolution, and exactly when it leaves the entity at its basis. */
  lemma MergeResolves(env: Env, c: Client, w: Wire, head: Queued, now: int, makeCopy: bool, next: Client,
                      copy: Option<string>)
    requires Ordered(c.outbox) && MergeConflicted(env, c, w, head, now, makeCopy) == Ok((next, copy))
    ensures Resolved(c, next, w, copy)
    ensures BasisAt(next, w.key) <==> MergeLands(env, c, w, head, makeCopy)
  {
    hide Newest, MaxVersion, MergeEdits, KeepDeletion, Enqueue, MergedLive, AfterHead, Basis, ApplyTombstone, Ordered,
         Holds;
    match (w.body, head.wire.body)
    case (Tombstone(at), _) =>
      var rows := ApplyTombstone(env, c.rows, w.key, at).value;
      TombstoneRow(env, c, w, at, rows);
      SettledResolved(c, w, rows, next);
    case (Content(doc), Tombstone(at)) =>
      DeletionResolved(env, c, w, doc, at, now, next);
    case (Content(doc), Content(_)) =>
      match Build(c.rows, w.key)
      case Missing =>
        SettledResolved(c, w, c.rows[w.key := doc], next);
      case Built(local) =>
        EditsResolved(env, c, w, doc, local, head.wire.updatedAt, now, makeCopy, next, copy);
  }

  /** From an entity at its basis with nothing pending, any record but a recycled document lands well. */
  lemma ConflictLands(env: Env, c: Client, w: Wire, head: Queued, makeCopy: bool)
    requires AtConflict(c, w, head) && BasisAt(c, w.key) && !BinnedContent(w)
    ensures MergeLands(env, c, w, head, makeCopy)
  {
    ConflictIsBasis(c, w, head);
  }
}
