/** What else goes when a row is deleted: the foreign keys of the entity tables
    (crates/core/migrations/0001_initial_schema.up.sql, crates/core/migrations/0006_conflict_marker.up.sql). */
module SyncCascade {
  import opened Wrappers
  import opened Merge
  import opened SyncModel

  // ----- the rows that go along -----

  /** No row outside the set has an owner in it. */
  ghost predicate ClosedUnder(rows: map<Key, Doc>, all: set<Key>) {
    forall k :: k in rows && k !in all ==> Owners(k, rows[k]) * all == {}
  }

  /** The cascade takes the least set that holds the deleted rows and all that rows in it own. */
  lemma {:induction false} FelledLeast(rows: map<Key, Doc>, gone: set<Key>)
    ensures gone <= Felled(rows, gone) <= gone + rows.Keys
    ensures ClosedUnder(rows, Felled(rows, gone))
    ensures forall k :: k in Felled(rows, gone) - gone ==> k in rows && Owners(k, rows[k]) * Felled(rows, gone) != {}
    ensures forall all: set<Key> :: gone <= all && ClosedUnder(rows, all) ==> Felled(rows, gone) <= all
    decreases rows.Keys - gone
  {
    var more := set k | k in rows && k !in gone && Owners(k, rows[k]) * gone != {};
    if more == {} {
      forall k | k in rows && k !in gone ensures Owners(k, rows[k]) * gone == {} {
        assert k !in more;
      }
    } else {
      FelledLeast(rows, gone + more);
      forall k | k in more ensures Owners(k, rows[k]) * Felled(rows, gone) != {} {
        var owner :| owner in Owners(k, rows[k]) * gone;
        assert owner in Owners(k, rows[k]) * Felled(rows, gone);
      }
      forall all: set<Key> | gone <= all && ClosedUnder(rows, all) ensures Felled(rows, gone) <= all {
        forall k | k in more ensures k in all {
          var owner :| owner in Owners(k, rows[k]) * gone;
          assert owner in Owners(k, rows[k]) * all;
        }
      }
    }
  }

  /** The other entities a deletion moves on screen: shown rows it takes along or unlinks. */
  function Uprooted(rows: map<Key, Doc>, key: Key): set<Key> {
    if key !in rows then {}
    else
      var gone := Felled(rows, {key});
      set k | k in rows && k != key && Live(k, rows[k]) && (k in gone || Unlinked(k, rows[k], gone) != rows[k])
  }

  lemma UnlinkKeepsLive(key: Key, doc: Doc, gone: set<Key>)
    ensures Live(key, Unlinked(key, doc, gone)) <==> Live(key, doc)
  {
    assert forall d: Doc :: Lookup(d["folder_id" := Null], "deleted_at") == Lookup(d, "deleted_at");
    assert forall d: Doc :: Lookup(d["conflict_of" := Null], "deleted_at") == Lookup(d, "deleted_at");
  }

  /** A deletion moves exactly those entities and the deleted one itself. */
  lemma RemovalMoves(c: Client, key: Key, k: Key)
    ensures key !in Removed(c.rows, key)
    ensures k != key ==> (View(c.(rows := Removed(c.rows, key)), k) == View(c, k) <==> k !in Uprooted(c.rows, key))
  {
    hide Felled, Unlinked;
    if key in c.rows {
      FelledLeast(c.rows, {key});
      if k in c.rows {
        UnlinkKeepsLive(k, c.rows[k], Felled(c.rows, {key}));
      }
    }
  }

  /** Everything a row refers to. */
  function References(key: Key, doc: Doc): set<Key> {
    Owners(key, doc)
    + (if key.kind == Snippet then Named(Folder, doc, "folder_id") + Named(Snippet, doc, "conflict_of") else {})
  }

  /** Every reference resolves, as the foreign keys demand. */
  ghost predicate Intact(rows: map<Key, Doc>) {
    forall k, r :: k in rows && r in References(k, rows[k]) ==> r in rows
  }

  lemma UnlinkedRefs(key: Key, doc: Doc, gone: set<Key>)
    requires Owners(key, doc) * gone == {}
    ensures References(key, Unlinked(key, doc, gone)) <= References(key, doc) - gone
  {
    if key.kind == Snippet {
      var first := Cleared(doc, "folder_id", Folder, gone);
      assert Lookup(first, "conflict_of") == Lookup(doc, "conflict_of");
      var second := Cleared(first, "conflict_of", Snippet, gone);
      assert Lookup(second, "folder_id") == Lookup(first, "folder_id");
    }
  }

  /** A deletion leaves no dangling reference behind. */
  lemma RemovalKeepsIntact(rows: map<Key, Doc>, key: Key)
    requires Intact(rows)
    ensures Intact(Removed(rows, key))
  {
    hide Felled, Unlinked, References, Owners;
    if key in rows {
      var gone := Felled(rows, {key});
      FelledLeast(rows, {key});
      var next := Removed(rows, key);
      forall k, r | k in next && r in References(k, next[k]) ensures r in next {
        UnlinkedRefs(k, rows[k], gone);
      }
    }
  }

  // ----- which kinds a deletion can reach -----

  /** The kinds whose entities the deletion of this kind of row can move. */
  function Reach(kind: Kind): set<Kind> {
    match kind
    case Folder => {Folder, Snippet}
    case Tag => {SnippetTag}
    case Snippet => {Snippet, SnippetTag, TemplateField, AppRule}
    case _ => {}
  }

  /** What rows of these kinds own is of these kinds. */
  predicate OwnsWithin(kinds: set<Kind>) {
    && (Snippet in kinds ==> {SnippetTag, TemplateField, AppRule} <= kinds)
    && (Tag in kinds ==> SnippetTag in kinds)
  }

  lemma {:induction false} FelledReach(rows: map<Key, Doc>, gone: set<Key>, kinds: set<Kind>)
    requires OwnsWithin(kinds) && forall k :: k in gone ==> k.kind in kinds
    ensures forall k :: k in Felled(rows, gone) ==> k.kind in kinds
    decreases rows.Keys - gone
  {
    var more := set k | k in rows && k !in gone && Owners(k, rows[k]) * gone != {};
    if more != {} {
      forall k | k in more ensures k.kind in kinds {
        var owner :| owner in Owners(k, rows[k]) * gone;
      }
      FelledReach(rows, gone + more, kinds);
    }
  }

  /** Deleting a folder moves folders and snippets, a tag its links, a snippet its copies and what hangs
      off it; deleting anything else moves nothing. */
  lemma UprootedReach(rows: map<Key, Doc>, key: Key)
    ensures forall k :: k in Uprooted(rows, key) ==> k.kind in Reach(key.kind)
  {
    hide Felled;
    if key in rows {
      var kinds :=
        match key.kind
        case Tag => {Tag, SnippetTag}
        case Snippet => {Snippet, SnippetTag, TemplateField, AppRule}
        case other => {other};
      var gone := Felled(rows, {key});
      FelledReach(rows, {key}, kinds);
      FelledLeast(rows, {key});
      forall k | k in Uprooted(rows, key) ensures k.kind in Reach(key.kind) {
        if k in gone {
          var owner :| owner in Owners(k, rows[k]) * gone;
        } else {
          assert k.kind == Snippet && exists r :: r in gone && (r.kind == Folder || r.kind == Snippet);
        }
      }
    }
  }
}
