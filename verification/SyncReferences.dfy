/** Where the references in the tables come from when a pulled record lands. */
module SyncReferences {
  import opened Wrappers
  import opened Merge
  import opened SyncModel
  import opened SyncCascade

  /** A reference of the record's own entity, in its row or in the arriving document. */
  ghost predicate OwnReference(rows: map<Key, Doc>, w: Wire, r: Key) {
    || (w.key in rows && r in References(w.key, rows[w.key]))
    || (w.body.Content? && r in References(w.key, w.body.doc))
  }

  /** A reference that was there, that the arriving document brings, or that a conflict copy repeats. */
  ghost predicate Stems(env: Env, c: Client, w: Wire, k: Key, r: Key) {
    || (k in c.rows && r in References(k, c.rows[k]))
    || (k == w.key && OwnReference(c.rows, w, r))
    || (k == Key(Snippet, env.uuid(c.drawn)) && OwnReference(c.rows, w, r))
  }

  ghost predicate AllStem(env: Env, c: Client, w: Wire, rows: map<Key, Doc>) {
    forall k, r :: k in rows && r in References(k, rows[k]) && r.kind != Snippet ==> Stems(env, c, w, k, r)
  }

  lemma BinnedRefs(key: Key, doc: Doc, at: int)
    ensures References(key, Binned(doc, at)) == References(key, doc)
  {
    assert forall f :: f != "deleted_at" ==> Lookup(Binned(doc, at), f) == Lookup(doc, f);
  }

  lemma TombstoneStems(env: Env, c: Client, w: Wire, at: int, rows: map<Key, Doc>)
    requires ApplyTombstone(env, c.rows, w.key, at) == Ok(rows)
    ensures AllStem(env, c, w, rows)
  {
    hide References, Owners, Unlinked, Felled, Binned;
    if w.key.kind == Snippet {
      if w.key in c.rows {
        BinnedRefs(w.key, c.rows[w.key], at);
      }
    } else if w.key in c.rows {
      FelledLeast(c.rows, {w.key});
      forall k | k in rows ensures References(k, rows[k]) <= References(k, c.rows[k]) {
        UnlinkedRefs(k, c.rows[k], Felled(c.rows, {w.key}));
      }
    }
  }

  lemma LinksUngrouped()
    ensures "parent_id" !in GroupFields() && "snippet_id" !in GroupFields() && "tag_id" !in GroupFields()
    ensures "folder_id" !in GroupFields() && "conflict_of" !in GroupFields()
  {
  }

  lemma FieldFromSide(snippet: bool, base: Option<Doc>, local: Side, remote: Side, field: string)
    requires Merged(snippet, base, local, remote).Ok? && field !in GroupFields()
    ensures Lookup(Merged(snippet, base, local, remote).value.doc, field) == Lookup(local.doc, field)
         || Lookup(Merged(snippet, base, local, remote).value.doc, field) == Lookup(remote.doc, field)
  {
    hide Merged, PlainField, GroupFields, LocalWins;
    MergedPlain(snippet, base, local, remote, field);
    PlainFromSide(BaseDoc(base), local.doc, remote.doc, LocalWins(local, remote), field);
  }

  /** The merged links are one side's or the other's, field by field. */
  lemma MergedRefs(w: Wire, base: Option<Doc>, local: Side, remote: Side)
    requires Merged(w.key.kind == Snippet, base, local, remote).Ok?
    ensures References(w.key, Merged(w.key.kind == Snippet, base, local, remote).value.doc)
         <= References(w.key, local.doc) + References(w.key, remote.doc)
  {
    hide Merged, GroupFields, Lookup;
    var snippet := w.key.kind == Snippet;
    LinksUngrouped();
    FieldFromSide(snippet, base, local, remote, "parent_id");
    FieldFromSide(snippet, base, local, remote, "snippet_id");
    FieldFromSide(snippet, base, local, remote, "tag_id");
    FieldFromSide(snippet, base, local, remote, "folder_id");
    FieldFromSide(snippet, base, local, remote, "conflict_of");
  }

  lemma PlainFromSide(base: Doc, local: Doc, remote: Doc, localWins: bool, field: string)
    ensures PlainField(base, local, remote, localWins, field) == Lookup(local, field)
         || PlainField(base, local, remote, localWins, field) == Lookup(remote, field)
  {
  }

  /** A conflict copy lies in its source's folder and refers to nothing else but its source. */
  lemma CopyRefs(local: Doc, folder: Value, copyId: string, deviceName: string, now: int, r: Key)
    requires ConflictCopy(local, folder, copyId, deviceName, now).Ok?
    requires r.kind != Snippet
             && r in References(Key(Snippet, copyId), ConflictCopy(local, folder, copyId, deviceName, now).value)
    ensures folder == Str(r.id) && r.kind == Folder
  {
    assert Lookup(ConflictCopy(local, folder, copyId, deviceName, now).value, "folder_id") == folder;
  }

  lemma CopyStems(env: Env, c: Client, w: Wire, merged: Doc, local: Doc, now: int, next: Client)
    requires w.key.kind == Snippet
    requires forall r :: r in References(w.key, merged) ==> OwnReference(c.rows, w, r)
    requires CreateCopy(env, c.(rows := c.rows[w.key := merged]), w.key, local, now).Ok?
    requires next == CreateCopy(env, c.(rows := c.rows[w.key := merged]), w.key, local, now).value.0
    ensures AllStem(env, c, w, next.rows)
  {
    hide ConflictCopy, Enqueue, Owners;
    var copyKey := Key(Snippet, env.uuid(c.drawn));
    var folder := Lookup(merged, "folder_id");
    var copy := ConflictCopy(local, folder, env.uuid(c.drawn), env.deviceName, now).value;
    EnqueueKeepsRows(env, c.(rows := c.rows[w.key := merged][copyKey := copy], drawn := c.drawn + 1), copyKey, None,
                     now);
    forall r | r in References(copyKey, copy) && r.kind != Snippet ensures OwnReference(c.rows, w, r) {
      CopyRefs(local, folder, env.uuid(c.drawn), env.deviceName, now, r);
      assert r in Named(Folder, merged, "folder_id");
    }
  }

  lemma EnqueueKeepsRows(env: Env, c: Client, key: Key, deletedAt: Option<int>, now: int)
    ensures match Enqueue(env, c, key, deletedAt, now) case Ok(r) => r.0.rows == c.rows case Err(_) => true
  {
    hide NextVersion;
  }

  lemma EditsStem(env: Env, c: Client, w: Wire, doc: Doc, localUpdatedAt: int, now: int, makeCopy: bool, next: Client,
                  copy: Option<string>)
    requires w.body == Content(doc) && w.key in c.rows
    requires MergeEdits(env, c, w, doc, c.rows[w.key], localUpdatedAt, now, makeCopy) == Ok((next, copy))
    ensures AllStem(env, c, w, next.rows)
  {
    hide Merged, References, CreateCopy, Enqueue, Settle;
    var base := if w.key in c.shadows then c.shadows[w.key].doc else None;
    var (mine, theirs) := (Side(c.rows[w.key], localUpdatedAt, env.device), Side(doc, w.updatedAt, w.device));
    var outcome := Merged(w.key.kind == Snippet, base, mine, theirs).value;
    MergedRefs(w, base, mine, theirs);
    var applied := c.(rows := c.rows[w.key := outcome.doc]);
    var copied := applied;
    if outcome.bodyConflict && makeCopy {
      copied := CreateCopy(env, applied, w.key, c.rows[w.key], now).value.0;
      MergedConflict(w.key.kind == Snippet, base, mine, theirs);
      CopyStems(env, c, w, outcome.doc, c.rows[w.key], now, copied);
    }
    var settled := Settle(copied, w).value;
    SettleKeepsRows(copied, w, settled);
    EnqueueKeepsRows(env, settled, w.key, None, now);
  }

  lemma MergedConflict(snippet: bool, base: Option<Doc>, local: Side, remote: Side)
    requires Merged(snippet, base, local, remote).Ok? && Merged(snippet, base, local, remote).value.bodyConflict
    ensures snippet
  {
  }

  lemma SettleKeepsRows(c: Client, w: Wire, next: Client)
    requires Settle(c, w) == Ok(next)
    ensures next.rows == c.rows
  {
  }

  /** Every resolution, and with it every landing, takes its references from there. */
  lemma MergeStems(env: Env, c: Client, w: Wire, head: Queued, now: int, makeCopy: bool, next: Client,
                   copy: Option<string>)
    requires MergeConflicted(env, c, w, head, now, makeCopy) == Ok((next, copy))
    ensures AllStem(env, c, w, next.rows)
  {
    hide References, MergeEdits, ApplyTombstone, Enqueue, Settle, Binned;
    match (w.body, head.wire.body)
    case (Tombstone(at), _) =>
      var rows := ApplyTombstone(env, c.rows, w.key, at).value;
      TombstoneStems(env, c, w, at, rows);
      SettleKeepsRows(c.(rows := rows), w, next);
    case (Content(doc), Tombstone(at)) =>
      BinnedRefs(w.key, doc, at);
      var rows :=
        if w.key.kind == Snippet then SoftDelete(ApplyDocument(env, c.rows, w.key, doc).value, w.key, at).value
        else c.rows;
      var settled := Settle(c.(rows := rows), w).value;
      SettleKeepsRows(c.(rows := rows), w, settled);
      EnqueueKeepsRows(env, settled, w.key, Some(at), now);
    case (Content(doc), Content(_)) =>
      match Build(c.rows, w.key)
      case Missing => SettleKeepsRows(c.(rows := c.rows[w.key := doc]), w, next);
      case Built(local) => EditsStem(env, c, w, doc, head.wire.updatedAt, now, makeCopy, next, copy);
  }

  lemma LandStems(env: Env, c: Client, w: Wire, now: int, makeCopy: bool, next: Client, fate: Fate)
    requires Land(env, c, w, now, makeCopy) == Ok((next, fate))
    ensures AllStem(env, c, w, next.rows)
  {
    hide Newest, References, MergeConflicted, ApplyTombstone, AllStem;
    match Newest(c.outbox, w.key, {Conflicted})
    case Some(head) =>
      var r := MergeConflicted(env, c, w, head, now, makeCopy).value;
      MergeStems(env, c, w, head, now, makeCopy, r.0, r.1);
    case None =>
      match w.body
      case Tombstone(at) => TombstoneStems(env, c, w, at, next.rows);
      case Content(doc) => DocumentStems(env, c, w, doc);
  }

  lemma DocumentStems(env: Env, c: Client, w: Wire, doc: Doc)
    requires w.body == Content(doc)
    ensures AllStem(env, c, w, c.rows[w.key := doc])
  {
  }
}
