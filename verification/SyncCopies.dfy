/** What becomes of the local edit when two edits meet: where its body is afterwards, in the tables and in the
    queue (crates/sync/src/engine.rs, crates/sync/src/merge.rs). */
module SyncCopies {
  import opened Wrappers
  import opened Merge
  import opened SyncModel
  import opened SyncBasis
  import opened SyncCascade

  function RowDoc(c: Client, key: Key): Doc {
    if key in c.rows then c.rows[key] else map[]
  }

  /** The last state the device and the server agreed on. */
  function Agreed(c: Client, key: Key): Option<Doc> {
    if key in c.shadows then c.shadows[key].doc else None
  }

  /** This document of the entity is on its way to the server. */
  ghost predicate Announced(outbox: seq<Queued>, key: Key, doc: Doc) {
    exists q :: q in outbox && q.stage == Pending && q.wire.key == key && q.wire.body == Content(doc)
  }

  /** The row is in the tables and on its way. */
  ghost predicate Kept(c: Client, key: Key) {
    key in c.rows && Announced(c.outbox, key, c.rows[key])
  }

  lemma EnqueueAnnounces(env: Env, c: Client, key: Key, now: int, next: Client, queued: bool)
    requires Enqueue(env, c, key, None, now) == Ok((next, queued)) && Build(c.rows, key).Built?
    ensures next.rows == c.rows && c.outbox <= next.outbox && Kept(next, key)
  {
    hide NextVersion;
    assert next.outbox[|c.outbox|].wire.body == Content(c.rows[key]);
  }

  /** The parts of making a copy: the document, the tables with it, and its record. */
  lemma CopyParts(env: Env, c: Client, key: Key, localEntity: Doc, now: int, next: Client, copyId: string,
                  folder: Value)
    returns (copy: Doc, stored: Client, queued: bool)
    requires CreateCopy(env, c, key, localEntity, now) == Ok((next, copyId)) && key.kind == Snippet
    requires folder == Lookup(RowDoc(c, key), "folder_id")
    ensures ConflictCopy(localEntity, folder, copyId, env.deviceName, now) == Ok(copy)
    ensures stored == c.(rows := c.rows[Key(Snippet, copyId) := copy], drawn := c.drawn + 1)
    ensures Enqueue(env, stored, Key(Snippet, copyId), None, now) == Ok((next, queued))
  {
    hide Enqueue, ConflictCopy;
    copy := ConflictCopy(localEntity, folder, copyId, env.deviceName, now).value;
    stored := c.(rows := c.rows[Key(Snippet, copyId) := copy], drawn := c.drawn + 1);
    queued := Enqueue(env, stored, Key(Snippet, copyId), None, now).value.1;
  }

  /** The copy: a row of its own that holds the local body, names its source, stands in the folder of the
      entity's own row and is queued like any new snippet. */
  lemma CopyKept(env: Env, c: Client, key: Key, localEntity: Doc, now: int, next: Client, copyId: string)
    requires CreateCopy(env, c, key, localEntity, now) == Ok((next, copyId)) && key.kind == Snippet
    ensures Kept(next, Key(Snippet, copyId)) && c.outbox <= next.outbox && c.rows.Keys <= next.rows.Keys
    ensures forall k :: k != Key(Snippet, copyId)
                        ==> RowDoc(next, k) == RowDoc(c, k) && (k in c.rows <==> k in next.rows)
    ensures SameBody(RowDoc(next, Key(Snippet, copyId)), localEntity)
    ensures Lookup(RowDoc(next, Key(Snippet, copyId)), "conflict_of") == Lookup(localEntity, "id")
    ensures Lookup(RowDoc(next, Key(Snippet, copyId)), "folder_id") == Lookup(RowDoc(c, key), "folder_id")
  {
    hide CreateCopy, Enqueue, ConflictCopy, SameBody, Lookup, Kept;
    var folder := Lookup(RowDoc(c, key), "folder_id");
    var copy, stored, queued := CopyParts(env, c, key, localEntity, now, next, copyId, folder);
    CopyKeepsLocalBody(localEntity, folder, copyId, env.deviceName, now, copy);
    CopyStartsAnew(localEntity, folder, copyId, env.deviceName, now, copy);
    EnqueueAnnounces(env, stored, Key(Snippet, copyId), now, next, queued);
  }

  /** The result of two meeting edits: the row is their three-way merge over the agreed state, the local side
      under the clock of its unsent record, and a copy is made exactly after a body conflict. */
  ghost predicate MeetsAs(env: Env, c: Client, w: Wire, head: Queued, makeCopy: bool, next: Client,
                          copy: Option<string>, out: Outcome)
  {
    && w.body.Content?
    && Merged(w.key.kind == Snippet, Agreed(c, w.key), Side(RowDoc(c, w.key), head.wire.updatedAt, env.device),
              Side(w.body.doc, w.updatedAt, w.device)) == Ok(out)
    && (copy.Some? <==> out.bodyConflict && makeCopy)
    && (!IsCopy(copy, w.key) ==> RowDoc(next, w.key) == out.doc && Kept(next, w.key))
  }

  /** What holds of a copy: it keeps the local body. */
  ghost predicate CopyHolds(c: Client, w: Wire, next: Client, copyId: string, out: Outcome) {
    var copy := RowDoc(next, Key(Snippet, copyId));
    && Kept(next, Key(Snippet, copyId))
    && SameBody(copy, RowDoc(c, w.key))
    && Lookup(copy, "conflict_of") == Lookup(RowDoc(c, w.key), "id")
    && Lookup(copy, "folder_id") == Lookup(out.doc, "folder_id")
  }

  /** Adopting the server head drops the conflict and nothing that is pending. */
  lemma SettleKeeps(c: Client, w: Wire, next: Client, key: Key)
    requires Settle(c, w) == Ok(next)
    ensures next.rows == c.rows && (Kept(c, key) ==> Kept(next, key))
  {
    if Kept(c, key) {
      var q :| q in c.outbox && q.stage == Pending && q.wire.key == key && q.wire.body == Content(c.rows[key]);
      assert q in next.outbox;
    }
  }

  lemma LongerKeeps(c: Client, next: Client, key: Key)
    requires Kept(c, key) && c.outbox <= next.outbox && next.rows == c.rows
    ensures Kept(next, key)
  {
    var q :| q in c.outbox && q.stage == Pending && q.wire.key == key && q.wire.body == Content(c.rows[key]);
    assert q in next.outbox;
  }

  lemma EditsMeet(env: Env, c: Client, w: Wire, head: Queued, now: int, makeCopy: bool, next: Client,
                  copy: Option<string>) returns (out: Outcome)
    requires w.body.Content? && head.wire.body.Content? && w.key in c.rows
    requires MergeConflicted(env, c, w, head, now, makeCopy) == Ok((next, copy))
    ensures MeetsAs(env, c, w, head, makeCopy, next, copy, out)
    ensures copy.Some? && w.key.kind == Snippet ==> CopyHolds(c, w, next, copy.value, out) || IsCopy(copy, w.key)
  {
    hide Merged, Settle, Enqueue, CreateCopy, SameBody, Kept;
    var mine := c.rows[w.key];
    out := Merged(w.key.kind == Snippet, Agreed(c, w.key), Side(mine, head.wire.updatedAt, env.device),
                  Side(w.body.doc, w.updatedAt, w.device)).value;
    var applied := c.(rows := c.rows[w.key := out.doc]);
    var copied := applied;
    if out.bodyConflict && makeCopy {
      var made := CreateCopy(env, applied, w.key, mine, now).value;
      copied := made.0;
      if w.key.kind == Snippet {
        CopyKept(env, applied, w.key, mine, now, copied, made.1);
      } else {
        OnlySnippetsConflict(w, c, head, env, out);
      }
    }
    var settled := Settle(copied, w).value;
    SettleKeeps(copied, w, settled, if copy.Some? then Key(Snippet, copy.value) else w.key);
    assert w.key in copied.rows;
    EnqueueAnnounces(env, settled, w.key, now, next, Enqueue(env, settled, w.key, None, now).value.1);
    if copy.Some? {
      LongerKeeps(settled, next, Key(Snippet, copy.value));
    }
  }

  lemma OnlySnippetsConflict(w: Wire, c: Client, head: Queued, env: Env, out: Outcome)
    requires w.body.Content?
    requires Merged(w.key.kind == Snippet, Agreed(c, w.key), Side(RowDoc(c, w.key), head.wire.updatedAt, env.device),
                    Side(w.body.doc, w.updatedAt, w.device)) == Ok(out)
    ensures out.bodyConflict ==> w.key.kind == Snippet
  {
  }

  /** The two edits of the snippet whose landing is looked at: what the device held and what arrived. */
  predicate EditsOf(c: Client, w: Wire, mine: Doc, theirs: Doc) {
    && w.key.kind == Snippet && w.key in c.rows && c.rows[w.key] == mine && w.body == Content(theirs)
    && var head := Newest(c.outbox, w.key, {Conflicted});
    head.Some? && head.value.wire.body.Content?
  }

  /** The user's edit is never lost when two edits of a snippet meet, by a page or by a retry. If the local body
      was edited, it is afterwards still the entity's own, or that of a new snippet that names the entity as its
      source and stands in the same folder; either way its row is queued for the server. The copy is made
      exactly when the other side edited the body too, and differently; then its body is the entity's. */
  lemma LocalBodyKept(env: Env, c: Client, w: Wire, now: int, next: Client, copy: Option<string>, mine: Doc,
                      theirs: Doc)
    requires Land(env, c, w, now, true) == Ok((next, MergedIn(copy)))
    requires EditsOf(c, w, mine, theirs) && !IsCopy(copy, w.key)
    requires !SameBody(mine, BaseDoc(Agreed(c, w.key)))
    ensures Kept(next, w.key)
    ensures copy.Some? <==> !SameBody(theirs, BaseDoc(Agreed(c, w.key))) && !SameBody(theirs, mine)
    ensures copy.None? ==> SameBody(RowDoc(next, w.key), mine)
    ensures copy.Some?
            ==> var copied := Key(Snippet, copy.value);
                && SameBody(RowDoc(next, w.key), theirs)
                && Kept(next, copied) && SameBody(RowDoc(next, copied), mine)
                && Lookup(RowDoc(next, copied), "conflict_of") == Lookup(mine, "id")
                && Lookup(RowDoc(next, copied), "folder_id") == Lookup(RowDoc(next, w.key), "folder_id")
  {
    hide Newest, MergeConflicted, Merged, SameBody, Lookup;
    var head := Newest(c.outbox, w.key, {Conflicted}).value;
    var merged := MergeConflicted(env, c, w, head, now, true).value.0;
    var out := EditsMeet(env, c, w, head, now, true, merged, copy);
    var local := Side(mine, head.wire.updatedAt, env.device);
    BodyBlockWhole(Agreed(c, w.key), local, Side(theirs, w.updatedAt, w.device), out);
    LocalBodyNeverLost(Agreed(c, w.key), local, Side(theirs, w.updatedAt, w.device), out);
    SameBodyTurns(mine, theirs);
  }

  lemma SameBodyTurns(a: Doc, b: Doc)
    ensures SameBody(a, b) <==> SameBody(b, a)
  {
  }

  /** An edit of the other side alone brings its body in and makes no copy. */
  lemma RemoteBodyAdopted(env: Env, c: Client, w: Wire, now: int, next: Client, copy: Option<string>, mine: Doc,
                          theirs: Doc)
    requires Land(env, c, w, now, true) == Ok((next, MergedIn(copy)))
    requires EditsOf(c, w, mine, theirs) && SameBody(mine, BaseDoc(Agreed(c, w.key)))
    ensures copy.None? && Kept(next, w.key) && SameBody(RowDoc(next, w.key), theirs)
  {
    hide Newest, MergeConflicted, Merged, SameBody;
    var head := Newest(c.outbox, w.key, {Conflicted}).value;
    var merged := MergeConflicted(env, c, w, head, now, true).value.0;
    var out := EditsMeet(env, c, w, head, now, true, merged, copy);
    var local := Side(mine, head.wire.updatedAt, env.device);
    BodyBlockWhole(Agreed(c, w.key), local, Side(theirs, w.updatedAt, w.device), out);
  }

  /** This deletion of the entity is on its way to the server. */
  ghost predicate DeletionAnnounced(outbox: seq<Queued>, key: Key, at: int) {
    exists q :: q in outbox && q.stage == Pending && q.wire.key == key && q.wire.body == Tombstone(at)
  }

  /** An edit that meets a deletion is in the recycle bin afterwards, whichever side deleted: the row is the
      edited document and nothing but its deletion mark differs. A local deletion goes out once more. */
  lemma EditReachesBin(env: Env, c: Client, w: Wire, now: int, makeCopy: bool, next: Client, fate: Fate, head: Queued)
    requires Land(env, c, w, now, makeCopy) == Ok((next, fate)) && w.key.kind == Snippet
    requires Newest(c.outbox, w.key, {Conflicted}) == Some(head)
    ensures w.body.Tombstone? && w.key in c.rows
            ==> RowDoc(next, w.key) == if Lookup(RowDoc(c, w.key), "deleted_at").Num? then RowDoc(c, w.key)
                                       else RowDoc(c, w.key)["deleted_at" := Num(w.body.at)]
    ensures w.body.Content? && head.wire.body.Tombstone?
            ==> RowDoc(next, w.key) == w.body.doc["deleted_at" := Num(head.wire.body.at)]
                && DeletionAnnounced(next.outbox, w.key, head.wire.body.at)
  {
    hide Newest, NextVersion, MergeEdits, Settle, DeletionAnnounced;
    match (w.body, head.wire.body)
    case (Tombstone(at), _) =>
      var rows := ApplyTombstone(env, c.rows, w.key, at).value;
      SettleKeeps(c.(rows := rows), w, Settle(c.(rows := rows), w).value, w.key);
    case (Content(doc), Tombstone(at)) =>
      var rows := SoftDelete(ApplyDocument(env, c.rows, w.key, doc).value, w.key, at).value;
      var settled := Settle(c.(rows := rows), w).value;
      SettleKeeps(c.(rows := rows), w, settled, w.key);
      var sealed := Enqueue(env, settled, w.key, Some(at), now).value.0;
      DeletionSealed(env, settled, w.key, at, now, sealed, Enqueue(env, settled, w.key, Some(at), now).value.1);
    case _ =>
  }

  lemma DeletionSealed(env: Env, c: Client, key: Key, at: int, now: int, next: Client, queued: bool)
    requires Enqueue(env, c, key, Some(at), now) == Ok((next, queued))
    ensures next.rows == c.rows && DeletionAnnounced(next.outbox, key, at)
  {
    hide NextVersion;
    assert next.outbox[|c.outbox|].wire.body == Tombstone(at);
  }

  /** Without a conflict the arriving document is the row; a deletion takes any other row away, and marks a
      snippet as deleted at the time the record says, unless it was in the bin already or is not there. */
  lemma PlainRow(env: Env, c: Client, w: Wire, now: int, makeCopy: bool, next: Client, fate: Fate)
    requires Land(env, c, w, now, makeCopy) == Ok((next, fate)) && Newest(c.outbox, w.key, {Conflicted}).None?
    ensures fate == AppliedPlain && next.outbox == c.outbox
    ensures w.body.Content? ==> next.rows == c.rows[w.key := w.body.doc]
    ensures w.body.Tombstone? && w.key.kind != Snippet ==> w.key !in next.rows
    ensures w.body.Tombstone? && w.key.kind == Snippet
            ==> next.rows == if w.key !in c.rows || Lookup(c.rows[w.key], "deleted_at").Num? then c.rows
                             else c.rows[w.key := c.rows[w.key]["deleted_at" := Num(w.body.at)]]
  {
    hide Newest, Removed;
    RemovalMoves(c, w.key, w.key);
  }
}
