/** The write use cases of the library (crates/host-service/src/service.rs): what each does to the tables and
    which snippets it re-indexes, and whether that keeps the index a mirror. */
module LibraryUse {
  import opened Wrappers
  import opened Segment
  import opened SearchIndex

  // ----- the folder tree -----

  /** The root is reached from a folder by so many parent steps at most. */
  predicate Under(folders: map<Id, Folder>, id: Id, root: Id, steps: nat)
    decreases steps
  {
    id == root
    || (steps > 0 && id in folders && folders[id].parent.Some?
        && Under(folders, folders[id].parent.value, root, steps - 1))
  }

  ghost predicate InSubtree(folders: map<Id, Folder>, id: Id, root: Id) {
    exists steps: nat :: Under(folders, id, root, steps)
  }

  /** Parents rank below their children, so no chain of parents runs in a circle. */
  ghost predicate Ranked(folders: map<Id, Folder>, rank: Id -> nat) {
    forall id :: id in folders && folders[id].parent.Some? ==> rank(folders[id].parent.value) < rank(id)
  }

  ghost predicate Forest(folders: map<Id, Folder>) {
    exists rank: Id -> nat :: Ranked(folders, rank)
  }

  lemma {:induction false} UnderRank(folders: map<Id, Folder>, rank: Id -> nat, id: Id, root: Id, steps: nat)
    requires Ranked(folders, rank) && Under(folders, id, root, steps)
    ensures rank(root) <= rank(id)
    decreases steps
  {
    if id != root {
      UnderRank(folders, rank, folders[id].parent.value, root, steps - 1);
    }
  }

  /** A child of something in the subtree is in the subtree, and is not its root. */
  lemma ChildUnder(folders: map<Id, Folder>, id: Id, root: Id)
    requires Forest(folders) && id in folders && folders[id].parent.Some?
             && InSubtree(folders, folders[id].parent.value, root)
    ensures InSubtree(folders, id, root) && id != root
  {
    var rank: Id -> nat :| Ranked(folders, rank);
    var parent := folders[id].parent.value;
    var steps: nat :| Under(folders, parent, root, steps);
    UnderRank(folders, rank, parent, root, steps);
    assert Under(folders, id, root, steps + 1);
  }

  /** Whatever holds the root and every child of a member holds the subtree. */
  lemma {:induction false} ClosedHolds(folders: map<Id, Folder>, members: set<Id>, id: Id, root: Id, steps: nat)
    requires root in members && Under(folders, id, root, steps)
    requires forall x :: x in folders && folders[x].parent.Some? && folders[x].parent.value in members ==> x in members
    ensures id in members
    decreases steps
  {
    if id != root {
      ClosedHolds(folders, members, folders[id].parent.value, root, steps - 1);
    }
  }

  // ----- table writes -----

  function PutSnippet(lib: Library, id: Id, row: SnippetRow): Library {
    lib.(snippets := lib.snippets[id := row], order := if id in lib.snippets then lib.order else lib.order + [id])
  }

  function Filtered(ids: seq<Id>, gone: set<Id>): (kept: seq<Id>)
    ensures forall id :: id in kept <==> id in ids && id !in gone
    ensures Distinct(ids) ==> Distinct(kept)
  {
    if ids == [] then []
    else
      var rest, last := Filtered(ids[..|ids| - 1], gone), ids[|ids| - 1];
      assert ids == ids[..|ids| - 1] + [last];
      assert forall i :: 0 <= i < |rest| ==> rest[i] in rest;
      rest + if last in gone then [] else [last]
  }

  function DropSnippets(lib: Library, gone: set<Id>): Library {
    lib.(snippets := lib.snippets - gone, order := Filtered(lib.order, gone), links := lib.links - gone)
  }

  predicate FolderKnown(lib: Library, folderId: Option<Id>) {
    folderId.Some? ==> folderId.value in lib.folders
  }

  predicate TriggerTaken(lib: Library, trigger: Option<string>, except: Option<Id>) {
    trigger.Some? && exists id :: id in lib.snippets && LiveIn(lib, id) && lib.snippets[id].trigger == trigger
                                  && Some(id) != except
  }

  /** Rewrites every row of a batch. */
  function Rewritten(snippets: map<Id, SnippetRow>, ids: set<Id>, f: SnippetRow -> SnippetRow): map<Id, SnippetRow> {
    map id | id in snippets :: if id in ids then f(snippets[id]) else snippets[id]
  }

  function Linked(lib: Library, ids: set<Id>, tag: Id): map<Id, seq<Id>> {
    map id | id in lib.links.Keys + (ids * lib.snippets.Keys) ::
      if id in ids && tag !in TagIds(lib, id) then TagIds(lib, id) + [tag] else TagIds(lib, id)
  }

  function WithoutTag(ids: seq<Id>, tag: Id): seq<Id> {
    Filtered(ids, {tag})
  }

  // ----- the use cases -----

  datatype Keep = KeepSource | KeepCopy | KeepBoth

  datatype UseCase =
    | Create(id: Id, row: SnippetRow)
    | Update(id: Id, row: SnippetRow)
    | VaultCreate(id: Id, row: SnippetRow)
    | VaultUpdate(id: Id, row: SnippetRow)
    | HistoryRestore(id: Id, title: string, body: Option<string>)
    | Trash(id: Id)
    | RestoreFromTrash(id: Id)
    | DeleteForever(id: Id)
    | PurgeTrash(expired: set<Id>)
    | BatchMove(ids: seq<Id>, folderId: Option<Id>)
    | BatchAddTag(ids: seq<Id>, tag: Id)
    | BatchTrash(ids: seq<Id>)
    | Import(entries: seq<(Id, SnippetRow)>)
    | RestoreBackup(content: Library)
    | ConvertToSensitive(id: Id)
    | ResetVault
    | ResolveConflict(copy: Id, keep: Keep)
    | FolderCreate(id: Id, folder: Folder)
    | FolderUpdate(id: Id, folder: Folder)
    | FolderDelete(id: Id)
    | TagCreate(id: Id, name: string)
    | TagRename(id: Id, name: string)
    | TagDelete(id: Id)

  /** What a create or an edit makes of its input: a plain or a vault row, outside or inside the bin as it
      was, in the conflict pair it was in. The vault keeps no readable body. */
  function Entered(row: SnippetRow, sensitive: bool, before: Option<SnippetRow>): SnippetRow {
    row.(content := if sensitive then None else row.content, sensitive := sensitive,
         trashed := before.Some? && before.value.trashed,
         conflictOf := if before.Some? then before.value.conflictOf else None)
  }

  /** Imports skip entries whose trigger is in use; an id or folder error fails the batch. */
  function Imported(lib: Library, entries: seq<(Id, SnippetRow)>): Option<(Library, seq<Id>)> {
    if entries == [] then Some((lib, []))
    else
      match Imported(lib, entries[..|entries| - 1])
      case None => None
      case Some(before) =>
        var (id, row) := entries[|entries| - 1];
        if TriggerTaken(before.0, row.trigger, None) then Some(before)
        else if id in before.0.snippets || !FolderKnown(before.0, row.folderId) then None
        else Some((PutSnippet(before.0, id, row.(trashed := false)), before.1 + [id]))
  }

  /** Everything a backup holds, inserted beside the folders and tags already there. */
  function Restored(lib: Library, content: Library): Library {
    Library(content.snippets, content.order, lib.folders + content.folders, lib.folderOrder + content.folderOrder,
            lib.tags + content.tags, content.links)
  }

  function Expired(lib: Library, ids: set<Id>): set<Id> {
    set id | id in ids && id in lib.snippets && lib.snippets[id].trashed
  }

  function SensitiveIds(lib: Library): set<Id> {
    set id | id in lib.snippets && lib.snippets[id].sensitive
  }

  /** The conflict copy gives its body to the source, then both the copy's marker and, unless both stay,
      the copy itself go; a copy already in the recycle bin fails that second step alone. */
  function Resolved(lib: Library, copy: Id, keep: Keep): Option<(Library, seq<Id>)> {
    if copy !in lib.snippets || lib.snippets[copy].conflictOf.None?
      || lib.snippets[copy].conflictOf.value !in lib.snippets then None
    else
      var source := lib.snippets[copy].conflictOf.value;
      var first := if keep.KeepCopy?
        then PutSnippet(lib, source, lib.snippets[source].(content := lib.snippets[copy].content)) else lib;
      var done := if keep.KeepCopy? then [source] else [];
      if !keep.KeepBoth? && first.snippets[copy].trashed then Some((first, done))
      else
        var row := first.snippets[copy];
        Some((PutSnippet(first, copy, row.(conflictOf := None, trashed := row.trashed || !keep.KeepBoth?)),
              done + [copy]))
  }

  ghost function Pruned(lib: Library, root: Id): Library {
    var gone := set id | id in lib.folders && InSubtree(lib.folders, id, root);
    PruneFolders(lib, gone)
  }

  /** Removes folders; the snippets in them become unfiled. */
  function PruneFolders(lib: Library, gone: set<Id>): Library {
    lib.(folders := lib.folders - gone, folderOrder := Filtered(lib.folderOrder, gone),
         snippets := map id | id in lib.snippets ::
           if lib.snippets[id].folderId.Some? && lib.snippets[id].folderId.value in gone
           then lib.snippets[id].(folderId := None) else lib.snippets[id])
  }

  predicate InAll(lib: Library, ids: seq<Id>) {
    forall i :: 0 <= i < |ids| ==> ids[i] in lib.snippets
  }

  function IdSet(ids: seq<Id>): set<Id> {
    set id | id in ids
  }

  /** The library after a use case, or None when it is refused and changes nothing. */
  ghost function Outcome(lib: Library, u: UseCase): Option<Library> {
    match u
    case Create(id, row) =>
      if id in lib.snippets || !FolderKnown(lib, row.folderId) || TriggerTaken(lib, row.trigger, None) then None
      else Some(PutSnippet(lib, id, Entered(row, false, None)))
    case Update(id, row) =>
      if id !in lib.snippets || lib.snippets[id].sensitive || !FolderKnown(lib, row.folderId)
         || TriggerTaken(lib, row.trigger, Some(id)) then None
      else Some(PutSnippet(lib, id, Entered(row, false, Some(lib.snippets[id]))))
    case VaultCreate(id, row) =>
      if id in lib.snippets || !FolderKnown(lib, row.folderId) || TriggerTaken(lib, row.trigger, None) then None
      else Some(PutSnippet(lib, id, Entered(row, true, None)))
    case VaultUpdate(id, row) =>
      if id !in lib.snippets || !lib.snippets[id].sensitive || !FolderKnown(lib, row.folderId)
         || TriggerTaken(lib, row.trigger, Some(id)) then None
      else Some(PutSnippet(lib, id, Entered(row, true, Some(lib.snippets[id]))))
    case HistoryRestore(id, title, body) =>
      if id !in lib.snippets || (lib.snippets[id].sensitive && body.Some?) then None
      else Some(PutSnippet(lib, id, lib.snippets[id].(title := title, content := body)))
    case Trash(id) =>
      if !LiveIn(lib, id) then None else Some(PutSnippet(lib, id, lib.snippets[id].(trashed := true)))
    case RestoreFromTrash(id) =>
      if id !in lib.snippets || !lib.snippets[id].trashed then None
      else Some(PutSnippet(lib, id, lib.snippets[id].(trashed := false)))
    case DeleteForever(id) => if id !in lib.snippets then None else Some(DropSnippets(lib, {id}))
    case PurgeTrash(expired) => Some(DropSnippets(lib, Expired(lib, expired)))
    case BatchMove(ids, folderId) =>
      if ids == [] || !InAll(lib, ids) || !FolderKnown(lib, folderId) then None
      else Some(lib.(snippets := Rewritten(lib.snippets, IdSet(ids), (row: SnippetRow) => row.(folderId := folderId))))
    case BatchAddTag(ids, tag) =>
      if ids == [] || !InAll(lib, ids) || tag !in lib.tags then None
      else Some(lib.(links := Linked(lib, IdSet(ids), tag)))
    case BatchTrash(ids) =>
      if ids == [] || !Distinct(ids) || !InAll(lib, ids) || exists i :: 0 <= i < |ids| && !LiveIn(lib, ids[i]) then None
      else Some(lib.(snippets := Rewritten(lib.snippets, IdSet(ids), (row: SnippetRow) => row.(trashed := true))))
    case Import(entries) => if Imported(lib, entries).None? then None else Some(Imported(lib, entries).value.0)
    case RestoreBackup(content) =>
      if lib.snippets != map[] || lib.folders.Keys * content.folders.Keys != {}
         || lib.tags.Keys * content.tags.Keys != {} || !Valid(Restored(lib, content)) then None
      else Some(Restored(lib, content))
    case ConvertToSensitive(id) =>
      if id !in lib.snippets || lib.snippets[id].sensitive then None
      else Some(PutSnippet(lib, id, lib.snippets[id].(content := None, sensitive := true)))
    case ResetVault => Some(DropSnippets(lib, SensitiveIds(lib)))
    case ResolveConflict(copy, keep) =>
      if Resolved(lib, copy, keep).None? then None
      else Some(Resolved(lib, copy, keep).value.0)
    case FolderCreate(id, folder) =>
      if id in lib.folders || !FolderKnown(lib, folder.parent) then None
      else Some(lib.(folders := lib.folders[id := folder], folderOrder := lib.folderOrder + [id]))
    case FolderUpdate(id, folder) =>
      if id !in lib.folders || !FolderKnown(lib, folder.parent)
         || (folder.parent.Some? && InSubtree(lib.folders, folder.parent.value, id)) then None
      else Some(lib.(folders := lib.folders[id := folder]))
    case FolderDelete(id) => if id !in lib.folders then None else Some(Pruned(lib, id))
    case TagCreate(id, name) =>
      if id in lib.tags || (exists t :: t in lib.tags && lib.tags[t] == name) then None
      else Some(lib.(tags := lib.tags[id := name]))
    case TagRename(id, name) =>
      if id !in lib.tags || (exists t :: t in lib.tags && t != id && lib.tags[t] == name) then None
      else Some(lib.(tags := lib.tags[id := name]))
    case TagDelete(id) =>
      if id !in lib.tags then None
      else Some(lib.(tags := lib.tags - {id}, links := map s | s in lib.links :: WithoutTag(lib.links[s], id)))
  }

  /** The snippets outside the recycle bin in a folder, in table order. */
  function Members(lib: Library, order: seq<Id>, folder: Id): (ids: seq<Id>)
    ensures forall id :: id in ids <==> id in order && LiveIn(lib, id) && lib.snippets[id].folderId == Some(folder)
  {
    if order == [] then []
    else
      var last := order[|order| - 1];
      assert order == order[..|order| - 1] + [last];
      Members(lib, order[..|order| - 1], folder)
      + if LiveIn(lib, last) && lib.snippets[last].folderId == Some(folder) then [last] else []
  }

  /** Ids that are exactly the live snippets of a folder subtree. */
  ghost predicate SubtreeMembers(lib: Library, root: Id, ids: seq<Id>) {
    forall id :: id in ids <==> LiveIn(lib, id) && lib.snippets[id].folderId.Some?
                                && InSubtree(lib.folders, lib.snippets[id].folderId.value, root)
  }

  /** What each use case re-indexes once it has committed. */
  ghost predicate Touches(lib: Library, u: UseCase, next: Library, ids: seq<Id>) {
    match u
    case Create(id, _) => ids == [id]
    case Update(id, _) => ids == [id]
    case VaultCreate(id, _) => ids == [id]
    case VaultUpdate(id, _) => ids == [id]
    case HistoryRestore(id, _, _) => ids == [id]
    case Trash(id) => ids == [id]
    case RestoreFromTrash(id) => ids == [id]
    case DeleteForever(id) => ids == [id]
    case PurgeTrash(_) => ids == []
    case BatchMove(batch, _) => ids == batch
    case BatchAddTag(batch, _) => ids == batch
    case BatchTrash(batch) => ids == batch
    case Import(entries) => Imported(lib, entries).Some? && ids == Imported(lib, entries).value.1
    case RestoreBackup(_) => forall id :: id in ids <==> LiveIn(next, id)
    case ConvertToSensitive(id) => ids == [id]
    case ResetVault => IdSet(ids) == SensitiveIds(lib)
    case ResolveConflict(copy, keep) => Resolved(lib, copy, keep).Some? && ids == Resolved(lib, copy, keep).value.1
    case FolderUpdate(id, folder) =>
      ids == if id in lib.folders && lib.folders[id].name != folder.name then Members(next, next.order, id) else []
    case FolderDelete(id) => SubtreeMembers(lib, id, ids)
    case _ => ids == []
  }

  // ----- what a use case leaves alone -----

  lemma SameEntry(lib: Library, next: Library, id: Id)
    requires id in lib.snippets <==> id in next.snippets
    requires id in lib.snippets ==> next.snippets[id] == lib.snippets[id]
    requires LiveIn(lib, id) ==> FolderName(next, next.snippets[id]) == FolderName(lib, lib.snippets[id])
    requires TagIds(next, id) == TagIds(lib, id) && next.tags == lib.tags
    ensures Entry(next, id) == Entry(lib, id)
  {
    hide TagNames, IndexText;
  }

  /** Writing one row, dropping rows or rewriting a batch changes no other entry. */
  lemma PutOthers(lib: Library, id: Id, row: SnippetRow, x: Id)
    requires x != id
    ensures Entry(PutSnippet(lib, id, row), x) == Entry(lib, x)
  {
    hide Entry;
    SameEntry(lib, PutSnippet(lib, id, row), x);
  }

  lemma DropOthers(lib: Library, gone: set<Id>, x: Id)
    requires x in gone ==> !LiveIn(lib, x)
    ensures Entry(DropSnippets(lib, gone), x) == Entry(lib, x)
  {
    hide Entry;
    if x in gone {
      NoEntry(lib, x);
      NoEntry(DropSnippets(lib, gone), x);
    } else {
      SameEntry(lib, DropSnippets(lib, gone), x);
    }
  }

  lemma RewriteOthers(lib: Library, ids: set<Id>, f: SnippetRow -> SnippetRow, x: Id)
    requires x !in ids
    ensures Entry(lib.(snippets := Rewritten(lib.snippets, ids, f)), x) == Entry(lib, x)
  {
    hide Entry;
    SameEntry(lib, lib.(snippets := Rewritten(lib.snippets, ids, f)), x);
  }

  lemma NoEntry(lib: Library, id: Id)
    requires !LiveIn(lib, id)
    ensures Entry(lib, id) == None
  {
  }

  lemma TagUseCase(lib: Library, u: UseCase, next: Library, ids: seq<Id>, id: Id)
    requires Valid(lib) && Outcome(lib, u) == Some(next) && Touches(lib, u, next, ids) && id !in ids
    requires u.BatchAddTag? || u.TagCreate?
    ensures Entry(next, id) == Entry(lib, id)
  {
    hide Entry, Distinct, TagNames;
    if u.BatchAddTag? {
      SameEntry(lib, next, id);
    } else {
      NewTagUnseen(lib.tags, TagIds(lib, id), u.id, u.name);
      SameTags(lib, next, id);
    }
  }

  lemma {:induction false} NewTagUnseen(tags: map<Id, string>, ids: seq<Id>, tag: Id, name: string)
    requires tag !in ids
    ensures TagNames(tags[tag := name], ids) == TagNames(tags, ids)
  {
    hide IndexText;
    if ids != [] {
      assert ids == ids[..|ids| - 1] + [ids[|ids| - 1]];
      NewTagUnseen(tags, ids[..|ids| - 1], tag, name);
    }
  }

  lemma SameTags(lib: Library, next: Library, id: Id)
    requires next.snippets == lib.snippets && next.folders == lib.folders
    requires multiset(TagNames(next.tags, TagIds(next, id))) == multiset(TagNames(lib.tags, TagIds(lib, id)))
    ensures Entry(next, id) == Entry(lib, id)
  {
    hide TagNames, IndexText;
  }

  lemma {:induction false} ImportUseCase(lib: Library, entries: seq<(Id, SnippetRow)>, next: Library, ids: seq<Id>,
                                         id: Id)
    requires Imported(lib, entries) == Some((next, ids)) && id !in ids
    ensures Entry(next, id) == Entry(lib, id)
  {
    hide Entry;
    if entries != [] {
      var before := Imported(lib, entries[..|entries| - 1]).value;
      ImportUseCase(lib, entries[..|entries| - 1], before.0, before.1, id);
      SameEntry(before.0, next, id);
    }
  }

  lemma ResolveUseCase(lib: Library, copy: Id, keep: Keep, next: Library, ids: seq<Id>, id: Id)
    requires Resolved(lib, copy, keep) == Some((next, ids)) && id !in ids
    ensures Entry(next, id) == Entry(lib, id)
  {
    hide Entry;
    SameEntry(lib, next, id);
  }

  /** A folder's name reaches the entries of its own snippets only. */
  lemma FolderUseCase(lib: Library, u: UseCase, next: Library, ids: seq<Id>, id: Id)
    requires Valid(lib) && Outcome(lib, u) == Some(next) && Touches(lib, u, next, ids) && id !in ids
    requires u.FolderCreate? || u.FolderUpdate? || u.FolderDelete?
    ensures Entry(next, id) == Entry(lib, id)
  {
    hide Entry, Distinct, InSubtree;
    if LiveIn(lib, id) {
      assert id in lib.order;
      var row := lib.snippets[id];
      if u.FolderDelete? && row.folderId.Some? {
        assert !InSubtree(lib.folders, row.folderId.value, u.id);
      }
      SameEntry(lib, next, id);
    } else {
      NoEntry(lib, id);
      NoEntry(next, id);
    }
  }

  // ----- the tag use cases that re-index nothing -----

  function OneName(tags: map<Id, string>, tag: Id): multiset<string> {
    if tag in tags then multiset{IndexText(tags[tag])} else multiset{}
  }

  lemma NamesSnoc(tags: map<Id, string>, front: seq<Id>, last: Id)
    ensures multiset(TagNames(tags, front + [last])) == multiset(TagNames(tags, front)) + OneName(tags, last)
  {
    hide IndexText;
    assert (front + [last])[..|front|] == front;
  }

  lemma SwapBeside(names: multiset<string>, a: string, b: string, more: multiset<string>)
    requires names[a] > 0
    ensures (names + more)[a] > 0
            && names + more - multiset{a} + multiset{b} == names - multiset{a} + multiset{b} + more
  {
  }

  lemma SwapNew(names: multiset<string>, a: string, b: string)
    ensures (names + multiset{a})[a] > 0 && names + multiset{a} - multiset{a} + multiset{b} == names + multiset{b}
  {
  }

  /** Renaming a tag swaps one name in the bag of any snippet that carries it. */
  lemma {:induction false} RenamedNames(tags: map<Id, string>, ids: seq<Id>, tag: Id, name: string)
    requires Distinct(ids) && tag in tags
    ensures var (before, after) := (multiset(TagNames(tags, ids)), multiset(TagNames(tags[tag := name], ids)));
            if tag in ids then before[IndexText(tags[tag])] > 0
                               && after == before - multiset{IndexText(tags[tag])} + multiset{IndexText(name)}
            else after == before
  {
    if ids != [] {
      hide IndexText, TagNames;
      var (front, last) := (ids[..|ids| - 1], ids[|ids| - 1]);
      assert ids == front + [last];
      RenamedNames(tags, front, tag, name);
      NamesSnoc(tags, front, last);
      NamesSnoc(tags[tag := name], front, last);
      var (a, b) := (IndexText(tags[tag]), IndexText(name));
      if last == tag {
        SwapNew(multiset(TagNames(tags, front)), a, b);
      } else if tag in front {
        SwapBeside(multiset(TagNames(tags, front)), a, b, OneName(tags, last));
      }
    }
  }

  lemma {:induction false} DeletedNames(tags: map<Id, string>, ids: seq<Id>, tag: Id)
    requires Distinct(ids) && forall t :: t in ids ==> t in tags
    ensures |TagNames(tags, ids)| == |ids|
    ensures tag in ids ==> |WithoutTag(ids, tag)| < |ids|
    ensures tag !in ids ==> WithoutTag(ids, tag) == ids && TagNames(tags - {tag}, ids) == TagNames(tags, ids)
  {
    hide IndexText;
    if ids != [] {
      var n := |ids| - 1;
      assert ids == ids[..n] + [ids[n]];
      DeletedNames(tags, ids[..n], tag);
      FilteredLength(ids[..n], {tag});
    }
  }

  lemma {:induction false} FilteredLength(ids: seq<Id>, gone: set<Id>)
    ensures |Filtered(ids, gone)| <= |ids|
  {
    if ids != [] {
      FilteredLength(ids[..|ids| - 1], gone);
    }
  }

  /** Some snippet outside the recycle bin carries the tag. */
  predicate TagInUse(lib: Library, tag: Id) {
    exists id :: id in lib.links && LiveIn(lib, id) && tag in lib.links[id]
  }

  lemma EntryTags(lib: Library, id: Id)
    requires LiveIn(lib, id)
    ensures Entry(lib, id).value.tags == multiset(TagNames(lib.tags, TagIds(lib, id)))
  {
  }

  lemma RenameSeen(lib: Library, tag: Id, name: string, next: Library, id: Id)
    requires Valid(lib) && tag in lib.tags && next == lib.(tags := lib.tags[tag := name])
    requires id in lib.links && LiveIn(lib, id) && tag in lib.links[id] && IndexText(name) != IndexText(lib.tags[tag])
    ensures Entry(next, id) != Entry(lib, id)
  {
    hide IndexText, TagNames, Entry;
    RenamedNames(lib.tags, lib.links[id], tag, name);
    EntryTags(lib, id);
    EntryTags(next, id);
    var (before, after) := (multiset(TagNames(lib.tags, lib.links[id])), multiset(TagNames(next.tags, lib.links[id])));
    assert after[IndexText(lib.tags[tag])] == before[IndexText(lib.tags[tag])] - 1;
  }

  lemma RenameUnseen(lib: Library, tag: Id, name: string, next: Library, id: Id)
    requires Valid(lib) && tag in lib.tags && next == lib.(tags := lib.tags[tag := name])
    requires !TagInUse(lib, tag) || IndexText(name) == IndexText(lib.tags[tag])
    ensures Entry(next, id) == Entry(lib, id)
  {
    hide IndexText, TagNames, Entry;
    if LiveIn(lib, id) {
      RenamedNames(lib.tags, TagIds(lib, id), tag, name);
      SameTags(lib, next, id);
    } else {
      NoEntry(lib, id);
      NoEntry(next, id);
    }
  }

  /** Renaming a tag leaves every entry as it was exactly when the tag is on no live snippet or the new
      name is indexed like the old one. */
  lemma RenameKeepsEntries(lib: Library, tag: Id, name: string, next: Library)
    requires Valid(lib) && Outcome(lib, TagRename(tag, name)) == Some(next)
    ensures (forall id :: Entry(next, id) == Entry(lib, id))
            <==> !TagInUse(lib, tag) || IndexText(name) == IndexText(lib.tags[tag])
  {
    hide IndexText, TagNames, Entry, Valid;
    if TagInUse(lib, tag) && IndexText(name) != IndexText(lib.tags[tag]) {
      var id :| id in lib.links && LiveIn(lib, id) && tag in lib.links[id];
      RenameSeen(lib, tag, name, next, id);
    } else {
      forall id ensures Entry(next, id) == Entry(lib, id) {
        RenameUnseen(lib, tag, name, next, id);
      }
    }
  }

  /** Deleting a tag leaves every entry as it was exactly when it is on no live snippet. */
  lemma TagDeleteKeepsEntries(lib: Library, tag: Id, next: Library)
    requires Valid(lib) && Outcome(lib, TagDelete(tag)) == Some(next)
    ensures (forall id :: Entry(next, id) == Entry(lib, id)) <==> !TagInUse(lib, tag)
  {
    hide IndexText, TagNames, Entry, Filtered;
    if TagInUse(lib, tag) {
      var id :| id in lib.links && LiveIn(lib, id) && tag in lib.links[id];
      DeletedNames(lib.tags, lib.links[id], tag);
      EntryTags(lib, id);
      EntryTags(next, id);
      var (before, after) := (TagNames(lib.tags, lib.links[id]), TagNames(next.tags, TagIds(next, id)));
      assert |multiset(after)| == |after| < |before| == |multiset(before)|;
      assert Entry(next, id) != Entry(lib, id);
    } else {
      forall id ensures Entry(next, id) == Entry(lib, id) {
        if LiveIn(lib, id) {
          DeletedNames(lib.tags, TagIds(lib, id), tag);
          SameTags(lib, next, id);
        } else {
          NoEntry(lib, id);
          NoEntry(next, id);
        }
      }
    }
  }

  // ----- the step relation -----

  /** A use case whose own re-indexing is enough. */
  predicate Harmless(lib: Library, u: UseCase) {
    match u
    case TagRename(tag, name) => tag in lib.tags ==> !TagInUse(lib, tag) || IndexText(name) == IndexText(lib.tags[tag])
    case TagDelete(tag) => !TagInUse(lib, tag)
    case _ => true
  }

  /** After a use case the index is a mirror again exactly when the use case is harmless: all are, but
      for renaming or deleting a tag that a live snippet carries. */
  lemma UseCaseMirrors(lib: Library, u: UseCase, next: Library, ids: seq<Id>, fts: seq<FtsRow>)
    requires Valid(lib) && Mirrors(lib, fts) && Outcome(lib, u) == Some(next) && Touches(lib, u, next, ids)
    ensures Mirrors(next, SyncedAll(next, fts, ids)) <==> Harmless(lib, u)
  {
    hide Entry, SyncedAll, Valid, TagInUse, IndexText, Mirrors;
    TouchedSuffices(lib, next, fts, ids);
    match u {
      case TagRename(tag, name) => RenameKeepsEntries(lib, tag, name, next);
      case TagDelete(tag) => TagDeleteKeepsEntries(lib, tag, next);
      case _ =>
        forall id | id !in ids ensures Entry(next, id) == Entry(lib, id) {
          OthersKept(lib, u, next, ids, id);
        }
    }
  }

  /** A snippet with a tag on it. */
  function Tagged(): Library {
    Library(map["s" := SnippetRow("note", Some("body"), None, None, None, None, false, false, None)], ["s"],
            map[], [], map["t" := "old"], map["s" := ["t"]])
  }

  lemma TaggedValid()
    ensures Valid(Tagged()) && TagInUse(Tagged(), "t") && IndexText("old") != IndexText("new")
  {
    hide IndexText;
    assert "s" in Tagged().links && LiveIn(Tagged(), "s") && "t" in Tagged().links["s"];
    assert IndexText("old")[0] == 'o' && IndexText("new")[0] == 'n';
  }

  /** Renaming that tag, or deleting it, leaves a freshly rebuilt index stale. */
  lemma TagChangeGoesStale(u: UseCase, next: Library)
    requires u == TagRename("t", "new") || u == TagDelete("t")
    requires next == (if u.TagRename? then Tagged().(tags := map["t" := "new"])
                      else Tagged().(tags := map[], links := map["s" := []]))
    ensures Valid(Tagged()) && Outcome(Tagged(), u) == Some(next) && Touches(Tagged(), u, next, [])
    ensures var fts := Rebuilt(Tagged(), Tagged().order);
            Mirrors(Tagged(), fts) && !Mirrors(next, SyncedAll(next, fts, []))
  {
    hide Mirrors, Rebuilt, Valid, TagInUse, SyncedAll, IndexText;
    TaggedValid();
    RebuildMirrors(Tagged());
    TagChanged(u, next);
    UseCaseMirrors(Tagged(), u, next, [], Rebuilt(Tagged(), Tagged().order));
  }

  lemma TagChanged(u: UseCase, next: Library)
    requires u == TagRename("t", "new") || u == TagDelete("t")
    requires next == (if u.TagRename? then Tagged().(tags := map["t" := "new"])
                      else Tagged().(tags := map[], links := map["s" := []]))
    ensures Outcome(Tagged(), u) == Some(next) && Touches(Tagged(), u, next, [])
  {
    if u.TagDelete? {
      assert ["t"][..0] == [] && WithoutTag(["t"], "t") == [];
      assert Tagged().tags - {"t"} == map[];
      assert (map s | s in Tagged().links :: WithoutTag(Tagged().links[s], "t")) == map["s" := []];
    } else {
      assert Tagged().tags["t" := "new"] == map["t" := "new"];
    }
  }

  lemma OthersKept(lib: Library, u: UseCase, next: Library, ids: seq<Id>, id: Id)
    requires Valid(lib) && Outcome(lib, u) == Some(next) && Touches(lib, u, next, ids) && id !in ids
    requires !u.TagRename? && !u.TagDelete?
    ensures Entry(next, id) == Entry(lib, id)
  {
    hide Valid, Entry, PutSnippet, DropSnippets, Rewritten, Imported, Resolved, Members;
    match u {
      case Create(key, row) => PutOthers(lib, key, Entered(row, false, None), id);
      case Update(key, row) => PutOthers(lib, key, Entered(row, false, Some(lib.snippets[key])), id);
      case VaultCreate(key, row) => PutOthers(lib, key, Entered(row, true, None), id);
      case VaultUpdate(key, row) => PutOthers(lib, key, Entered(row, true, Some(lib.snippets[key])), id);
      case HistoryRestore(key, title, body) =>
        PutOthers(lib, key, lib.snippets[key].(title := title, content := body), id);
      case Trash(key) => PutOthers(lib, key, lib.snippets[key].(trashed := true), id);
      case RestoreFromTrash(key) => PutOthers(lib, key, lib.snippets[key].(trashed := false), id);
      case ConvertToSensitive(key) => PutOthers(lib, key, lib.snippets[key].(content := None, sensitive := true), id);
      case DeleteForever(key) => DropOthers(lib, {key}, id);
      case PurgeTrash(expired) => DropOthers(lib, Expired(lib, expired), id);
      case RestoreBackup(_) =>
        NoEntry(lib, id);
        NoEntry(next, id);
      case ResetVault =>
        assert id !in IdSet(ids);
        DropOthers(lib, SensitiveIds(lib), id);
      case BatchMove(batch, folderId) =>
        RewriteOthers(lib, IdSet(batch), (row: SnippetRow) => row.(folderId := folderId), id);
      case BatchTrash(batch) => RewriteOthers(lib, IdSet(batch), (row: SnippetRow) => row.(trashed := true), id);
      case Import(entries) => ImportUseCase(lib, entries, next, ids, id);
      case ResolveConflict(copy, keep) => ResolveUseCase(lib, copy, keep, next, ids, id);
      case BatchAddTag(_, _) => TagUseCase(lib, u, next, ids, id);
      case TagCreate(_, _) => TagUseCase(lib, u, next, ids, id);
      case _ => FolderUseCase(lib, u, next, ids, id);
    }
  }

  // ----- keys and references -----

  lemma {:induction false} FilteredLists(ids: seq<Id>, keys: set<Id>, gone: set<Id>)
    requires Lists(ids, keys)
    ensures Lists(Filtered(ids, gone), keys - gone)
  {
  }

  lemma PutKeepsValid(lib: Library, id: Id, row: SnippetRow)
    requires Valid(lib) && FolderKnown(lib, row.folderId)
    ensures Valid(PutSnippet(lib, id, row))
  {
    var next := PutSnippet(lib, id, row);
    assert forall i :: 0 <= i < |lib.order| ==> lib.order[i] in lib.order;
    assert id !in lib.snippets ==> next.order == lib.order + [id];
  }

  lemma DropKeepsValid(lib: Library, gone: set<Id>)
    requires Valid(lib)
    ensures Valid(DropSnippets(lib, gone))
  {
    FilteredLists(lib.order, lib.snippets.Keys, gone);
    assert (lib.snippets - gone).Keys == lib.snippets.Keys - gone;
  }

  lemma RewriteKeepsValid(lib: Library, ids: set<Id>, f: SnippetRow -> SnippetRow)
    requires Valid(lib) && forall id :: id in lib.snippets ==> FolderKnown(lib, f(lib.snippets[id]).folderId)
    ensures Valid(lib.(snippets := Rewritten(lib.snippets, ids, f)))
  {
    assert Rewritten(lib.snippets, ids, f).Keys == lib.snippets.Keys;
  }

  lemma {:induction false} ImportKeepsValid(lib: Library, entries: seq<(Id, SnippetRow)>)
    requires Valid(lib) && Imported(lib, entries).Some?
    ensures Valid(Imported(lib, entries).value.0)
  {
    hide Valid, PutSnippet;
    if entries != [] {
      ImportKeepsValid(lib, entries[..|entries| - 1]);
      var before := Imported(lib, entries[..|entries| - 1]).value.0;
      var (id, row) := entries[|entries| - 1];
      if FolderKnown(before, row.folderId) {
        PutKeepsValid(before, id, row.(trashed := false));
      }
    }
  }

  lemma RowFolder(lib: Library, id: Id)
    requires Valid(lib) && id in lib.snippets
    ensures FolderKnown(lib, lib.snippets[id].folderId)
  {
  }

  lemma ResolveKeepsValid(lib: Library, copy: Id, keep: Keep)
    requires Valid(lib) && Resolved(lib, copy, keep).Some?
    ensures Valid(Resolved(lib, copy, keep).value.0)
  {
    hide Valid, FolderKnown;
    var source := lib.snippets[copy].conflictOf.value;
    RowFolder(lib, source);
    var first := if keep.KeepCopy?
      then PutSnippet(lib, source, lib.snippets[source].(content := lib.snippets[copy].content)) else lib;
    if keep.KeepCopy? {
      PutKeepsValid(lib, source, lib.snippets[source].(content := lib.snippets[copy].content));
    }
    RowFolder(first, copy);
    var row := first.snippets[copy];
    PutKeepsValid(first, copy, row.(conflictOf := None, trashed := row.trashed || !keep.KeepBoth?));
  }

  lemma LinkKeepsValid(lib: Library, ids: set<Id>, tag: Id)
    requires Valid(lib) && tag in lib.tags
    ensures Valid(lib.(links := Linked(lib, ids, tag)))
  {
  }

  lemma PruneKeepsValid(lib: Library, gone: set<Id>)
    requires Valid(lib) && gone <= lib.folders.Keys
    ensures Valid(PruneFolders(lib, gone))
  {
    FilteredLists(lib.folderOrder, lib.folders.Keys, gone);
    assert (lib.folders - gone).Keys == lib.folders.Keys - gone;
    assert PruneFolders(lib, gone).snippets.Keys == lib.snippets.Keys;
  }

  lemma TagTablesKeepValid(lib: Library, u: UseCase, next: Library)
    requires Valid(lib) && Outcome(lib, u) == Some(next)
    requires u.TagCreate? || u.TagRename? || u.TagDelete?
    ensures Valid(next)
  {
    hide Lists, InSubtree;
  }

  lemma FolderTablesKeepValid(lib: Library, u: UseCase, next: Library)
    requires Valid(lib) && Outcome(lib, u) == Some(next)
    requires u.FolderCreate? || u.FolderUpdate?
    ensures Valid(next)
  {
    hide InSubtree;
    if u.FolderCreate? {
      ListedOnce(lib.folderOrder, lib.folders.Keys, u.id);
    } else {
      assert next.folders.Keys == lib.folders.Keys;
    }
  }

  lemma ListedOnce(ids: seq<Id>, keys: set<Id>, id: Id)
    requires Lists(ids, keys) && id !in keys
    ensures Lists(ids + [id], keys + {id})
  {
    assert forall i :: 0 <= i < |ids| ==> ids[i] in ids;
  }

  lemma OutcomeKeepsValid(lib: Library, u: UseCase, next: Library)
    requires Valid(lib) && Outcome(lib, u) == Some(next)
    ensures Valid(next)
  {
    hide Valid, PutSnippet, DropSnippets, PruneFolders, Imported, Resolved, Linked, Rewritten, FolderKnown, InSubtree;
    match u {
      case Create(id, row) => PutKeepsValid(lib, id, Entered(row, false, None));
      case Update(id, row) => PutKeepsValid(lib, id, Entered(row, false, Some(lib.snippets[id])));
      case VaultCreate(id, row) => PutKeepsValid(lib, id, Entered(row, true, None));
      case VaultUpdate(id, row) => PutKeepsValid(lib, id, Entered(row, true, Some(lib.snippets[id])));
      case HistoryRestore(id, title, body) =>
        RowFolder(lib, id);
        PutKeepsValid(lib, id, lib.snippets[id].(title := title, content := body));
      case Trash(id) =>
        RowFolder(lib, id);
        PutKeepsValid(lib, id, lib.snippets[id].(trashed := true));
      case RestoreFromTrash(id) =>
        RowFolder(lib, id);
        PutKeepsValid(lib, id, lib.snippets[id].(trashed := false));
      case ConvertToSensitive(id) =>
        RowFolder(lib, id);
        PutKeepsValid(lib, id, lib.snippets[id].(content := None, sensitive := true));
      case DeleteForever(id) => DropKeepsValid(lib, {id});
      case PurgeTrash(expired) => DropKeepsValid(lib, Expired(lib, expired));
      case ResetVault => DropKeepsValid(lib, SensitiveIds(lib));
      case BatchMove(ids, folderId) =>
        RewriteKeepsValid(lib, IdSet(ids), (row: SnippetRow) => row.(folderId := folderId));
      case BatchTrash(ids) =>
        forall id | id in lib.snippets ensures FolderKnown(lib, lib.snippets[id].folderId) {
          RowFolder(lib, id);
        }
        RewriteKeepsValid(lib, IdSet(ids), (row: SnippetRow) => row.(trashed := true));
      case BatchAddTag(ids, tag) => LinkKeepsValid(lib, IdSet(ids), tag);
      case Import(entries) => ImportKeepsValid(lib, entries);
      case RestoreBackup(_) => assert Valid(next);
      case ResolveConflict(copy, keep) => ResolveKeepsValid(lib, copy, keep);
      case FolderDelete(id) => PruneKeepsValid(lib, set f | f in lib.folders && InSubtree(lib.folders, f, id));
      case FolderCreate(_, _) => FolderTablesKeepValid(lib, u, next);
      case FolderUpdate(_, _) => FolderTablesKeepValid(lib, u, next);
      case _ => TagTablesKeepValid(lib, u, next);
    }
  }

  /** Moving a folder never ties the tree into a circle, because a new parent below the folder is refused. */
  lemma UpdateKeepsForest(lib: Library, id: Id, folder: Folder, next: Library)
    requires Forest(lib.folders) && Outcome(lib, FolderUpdate(id, folder)) == Some(next)
    ensures Forest(next.folders)
  {
    var old' := lib.folders;
    var rank: Id -> nat :| Ranked(old', rank);
    var lift := if folder.parent.Some? then rank(folder.parent.value) + 1 else 0;
    var below := set f | f in old' && InSubtree(old', f, id);
    var rank' := (f: Id) => if f in below then rank(f) + lift else rank(f);
    forall f | f in next.folders && next.folders[f].parent.Some?
      ensures rank'(next.folders[f].parent.value) < rank'(f)
    {
      var parent := next.folders[f].parent.value;
      if f == id {
        assert Under(old', id, id, 0);
        assert parent !in below;
      } else if parent in below {
        ChildUnder(old', f, id);
      } else if f in below {
        var steps: nat :| Under(old', f, id, steps);
        assert Under(old', parent, id, steps - 1);
        UnderKnown(old', parent, id, steps - 1);
      }
    }
    assert Ranked(next.folders, rank');
  }

  lemma UnderKnown(folders: map<Id, Folder>, id: Id, root: Id, steps: nat)
    requires Under(folders, id, root, steps) && root in folders
    ensures id in folders
  {
  }

  // ----- runs -----

  /** Use cases one after the other: a refused one changes nothing, the others write and re-index. */
  ghost predicate Run(libs: seq<Library>, tables: seq<seq<FtsRow>>, uses: seq<UseCase>) {
    && |libs| == |tables| == |uses| + 1
    && forall n :: 0 <= n < |uses| ==> Stepped(libs[n], tables[n], uses[n], libs[n + 1], tables[n + 1])
  }

  ghost predicate Stepped(lib: Library, fts: seq<FtsRow>, u: UseCase, next: Library, after: seq<FtsRow>) {
    if Outcome(lib, u).None? then next == lib && after == fts
    else Outcome(lib, u) == Some(next) && exists ids :: Touches(lib, u, next, ids) && after == SyncedAll(next, fts, ids)
  }

  /** Over every run of harmless use cases the maintained index stays what a full rebuild would give. */
  lemma {:induction false} RunsMirror(libs: seq<Library>, tables: seq<seq<FtsRow>>, uses: seq<UseCase>, n: nat)
    requires Run(libs, tables, uses) && n <= |uses|
    requires Valid(libs[0]) && Mirrors(libs[0], tables[0])
    requires forall k :: 0 <= k < n ==> Harmless(libs[k], uses[k])
    ensures Valid(libs[n]) && Mirrors(libs[n], tables[n])
    ensures multiset(tables[n]) == multiset(Rebuilt(libs[n], libs[n].order))
  {
    hide Valid, Mirrors, Outcome, Touches, SyncedAll, Rebuilt, Harmless;
    if n > 0 {
      RunsMirror(libs, tables, uses, n - 1);
      var (lib, fts, u) := (libs[n - 1], tables[n - 1], uses[n - 1]);
      assert Stepped(lib, fts, u, libs[n], tables[n]);
      if Outcome(lib, u).Some? {
        var ids :| Touches(lib, u, libs[n], ids) && tables[n] == SyncedAll(libs[n], fts, ids);
        OutcomeKeepsValid(lib, u, libs[n]);
        UseCaseMirrors(lib, u, libs[n], ids, fts);
      }
    }
    MirrorsIsRebuild(libs[n], tables[n]);
  }

  // ----- what the user sees of a use case -----

  /** A search can come upon the snippet. */
  predicate Found(fts: seq<FtsRow>, id: Id) {
    exists i :: 0 <= i < |fts| && fts[i].id == id
  }

  predicate Reads(lib: Library, id: Id, title: string, content: Option<string>) {
    id in lib.snippets && lib.snippets[id].title == title && lib.snippets[id].content == content
  }

  /** The snippet keeps its words. */
  predicate SameWords(lib: Library, next: Library, id: Id) {
    id in lib.snippets && Reads(next, id, lib.snippets[id].title, lib.snippets[id].content)
  }

  /** Which snippets a search can come upon after a use case, and with which words. Trashed, deleted and reset
      snippets are gone from it, restored ones are back, and no use case hides any other. */
  ghost predicate Seen(lib: Library, u: UseCase, next: Library, after: seq<FtsRow>) {
    match u
    case Create(id, row) => Found(after, id) && Reads(next, id, row.title, row.content)
    case Update(id, row) => (Found(after, id) <==> LiveIn(lib, id)) && Reads(next, id, row.title, row.content)
    case VaultCreate(id, row) => Found(after, id) && Reads(next, id, row.title, None)
    case VaultUpdate(id, row) => (Found(after, id) <==> LiveIn(lib, id)) && Reads(next, id, row.title, None)
    case HistoryRestore(id, title, body) => (Found(after, id) <==> LiveIn(lib, id)) && Reads(next, id, title, body)
    case ConvertToSensitive(id) =>
      (Found(after, id) <==> LiveIn(lib, id)) && id in lib.snippets && Reads(next, id, lib.snippets[id].title, None)
    case Trash(id) => !Found(after, id) && SameWords(lib, next, id)
    case RestoreFromTrash(id) => Found(after, id) && SameWords(lib, next, id)
    case DeleteForever(id) => !Found(after, id) && id !in next.snippets
    case BatchTrash(batch) =>
      forall id :: (Found(after, id) <==> LiveIn(lib, id) && id !in batch) && (id in batch ==> SameWords(lib, next, id))
    case ResetVault => forall id :: Found(after, id) <==> LiveIn(lib, id) && !lib.snippets[id].sensitive
    case RestoreBackup(content) => forall id :: Found(after, id) <==> LiveIn(content, id)
    case Import(entries) =>
      Imported(lib, entries).Some?
      && forall id :: Found(after, id) <==> LiveIn(lib, id) || id in Imported(lib, entries).value.1
    case ResolveConflict(copy, keep) =>
      && copy in lib.snippets && lib.snippets[copy].conflictOf.Some?
      && lib.snippets[copy].conflictOf.value in lib.snippets
      && var source := lib.snippets[copy].conflictOf.value;
      && (Found(after, copy) <==> LiveIn(lib, copy) && keep.KeepBoth?)
      && (keep.KeepCopy? ==> Reads(next, source, lib.snippets[source].title, lib.snippets[copy].content))
      && (!keep.KeepCopy? ==> SameWords(lib, next, source))
      && forall id :: id != copy ==> (Found(after, id) <==> LiveIn(lib, id))
    case _ => forall id :: (Found(after, id) <==> LiveIn(lib, id)) && (LiveIn(lib, id) ==> SameWords(lib, next, id))
  }

  predicate InFolder(lib: Library, id: Id, folderId: Option<Id>) {
    id in lib.snippets && lib.snippets[id].folderId == folderId
  }

  /** Where the snippets are filed after a use case that files them, and under which names: exactly the named
      snippets move or get the tag, deleting a folder unfiles exactly the snippets of its subtree, and a
      renamed folder or tag has its new name. */
  ghost predicate Filed(lib: Library, u: UseCase, next: Library) {
    match u
    case BatchMove(batch, folderId) =>
      forall id :: id in lib.snippets
                   ==> InFolder(next, id, if id in batch then folderId else lib.snippets[id].folderId)
    case BatchAddTag(batch, tag) =>
      forall id :: id in lib.snippets
                   ==> forall t :: t in TagIds(next, id) <==> t in TagIds(lib, id) || (t == tag && id in batch)
    case FolderDelete(root) =>
      forall id :: id in lib.snippets
                   ==> var folder := lib.snippets[id].folderId;
                       InFolder(next, id, if folder.Some? && folder.value in lib.folders
                                             && InSubtree(lib.folders, folder.value, root) then None else folder)
    case FolderUpdate(id, folder) => next.folders == lib.folders[id := folder]
    case TagRename(id, name) => next.tags == lib.tags[id := name] && next.links == lib.links
    case TagDelete(id) =>
      id !in next.tags && forall s, t :: s in lib.links ==> (t in TagIds(next, s) <==> t in TagIds(lib, s) && t != id)
    case _ => true
  }

  lemma UseCaseFiles(lib: Library, u: UseCase, next: Library)
    requires Outcome(lib, u) == Some(next)
    ensures Filed(lib, u, next)
  {
    hide FolderKnown, InSubtree, Valid, PutSnippet, DropSnippets, Imported, Resolved;
  }

  lemma FoundLive(lib: Library, fts: seq<FtsRow>, id: Id)
    requires Mirrors(lib, fts)
    ensures Found(fts, id) <==> LiveIn(lib, id)
  {
    hide Entry, OneRowEach;
    if Lookup(fts, id).Some? {
      var i :| 0 <= i < |fts| && fts[i] == Lookup(fts, id).value;
    }
    assert Lookup(fts, id) == Entry(lib, id);
    assert forall i :: 0 <= i < |fts| ==> fts[i] in fts;
  }

  lemma {:induction false} ImportedLive(lib: Library, entries: seq<(Id, SnippetRow)>, id: Id)
    requires Imported(lib, entries).Some?
    ensures LiveIn(Imported(lib, entries).value.0, id) <==> LiveIn(lib, id) || id in Imported(lib, entries).value.1
  {
    hide TriggerTaken, FolderKnown;
    if entries != [] {
      ImportedLive(lib, entries[..|entries| - 1], id);
    }
  }

  lemma ImportSeen(lib: Library, entries: seq<(Id, SnippetRow)>, next: Library, after: seq<FtsRow>)
    requires Outcome(lib, Import(entries)) == Some(next) && forall id :: Found(after, id) <==> LiveIn(next, id)
    ensures Seen(lib, Import(entries), next, after)
  {
    hide Found, Imported;
    forall id ensures LiveIn(next, id) <==> LiveIn(lib, id) || id in Imported(lib, entries).value.1 {
      ImportedLive(lib, entries, id);
    }
  }

  lemma OneSnippetSeen(lib: Library, u: UseCase, next: Library, after: seq<FtsRow>)
    requires Outcome(lib, u) == Some(next) && forall id :: Found(after, id) <==> LiveIn(next, id)
    requires u.Create? || u.Update? || u.VaultCreate? || u.VaultUpdate? || u.HistoryRestore? || u.ConvertToSensitive?
             || u.Trash? || u.RestoreFromTrash? || u.DeleteForever?
    ensures Seen(lib, u, next, after)
  {
    hide Found, TriggerTaken, FolderKnown;
  }

  lemma ConflictSeen(lib: Library, copy: Id, keep: Keep, next: Library, after: seq<FtsRow>)
    requires Outcome(lib, ResolveConflict(copy, keep)) == Some(next)
    requires forall id :: Found(after, id) <==> LiveIn(next, id)
    ensures Seen(lib, ResolveConflict(copy, keep), next, after)
  {
    hide Found;
  }

  lemma ManySeen(lib: Library, u: UseCase, next: Library, after: seq<FtsRow>)
    requires Outcome(lib, u) == Some(next) && forall id :: Found(after, id) <==> LiveIn(next, id)
    requires u.BatchTrash? || u.BatchMove? || u.BatchAddTag? || u.PurgeTrash? || u.ResetVault? || u.RestoreBackup?
    ensures Seen(lib, u, next, after)
  {
    hide Found, FolderKnown, InSubtree, Valid, Filtered;
  }

  lemma TablesSeen(lib: Library, u: UseCase, next: Library, after: seq<FtsRow>)
    requires Outcome(lib, u) == Some(next) && forall id :: Found(after, id) <==> LiveIn(next, id)
    requires u.FolderDelete? || u.FolderCreate? || u.FolderUpdate? || u.TagCreate? || u.TagRename? || u.TagDelete?
    ensures Seen(lib, u, next, after)
  {
    hide Found, FolderKnown, InSubtree, Filtered;
  }

  lemma UseCaseSeen(lib: Library, u: UseCase, next: Library, after: seq<FtsRow>)
    requires Valid(lib) && Outcome(lib, u) == Some(next) && Mirrors(next, after)
    ensures Seen(lib, u, next, after)
  {
    hide Outcome, Mirrors, Found, Valid;
    forall id ensures Found(after, id) <==> LiveIn(next, id) {
      FoundLive(next, after, id);
    }
    match u
    case Import(entries) => ImportSeen(lib, entries, next, after);
    case ResolveConflict(copy, keep) => ConflictSeen(lib, copy, keep, next, after);
    case BatchTrash(_) => ManySeen(lib, u, next, after);
    case BatchMove(_, _) => ManySeen(lib, u, next, after);
    case BatchAddTag(_, _) => ManySeen(lib, u, next, after);
    case PurgeTrash(_) => ManySeen(lib, u, next, after);
    case ResetVault => ManySeen(lib, u, next, after);
    case RestoreBackup(_) => ManySeen(lib, u, next, after);
    case FolderDelete(_) => TablesSeen(lib, u, next, after);
    case FolderCreate(_, _) => TablesSeen(lib, u, next, after);
    case FolderUpdate(_, _) => TablesSeen(lib, u, next, after);
    case TagCreate(_, _) => TablesSeen(lib, u, next, after);
    case TagRename(_, _) => TablesSeen(lib, u, next, after);
    case TagDelete(_) => TablesSeen(lib, u, next, after);
    case _ => OneSnippetSeen(lib, u, next, after);
  }

  // ----- the host -----

  const MAX_PAGE: nat := 500

  /** Bounded pages of a listing until a short one ends it. */
  method DrainPages(listing: seq<Id>) returns (all: seq<Id>)
    ensures all == listing
  {
    all := [];
    var offset := 0;
    while true
      invariant offset <= |listing| && all == listing[..offset]
      decreases |listing| - offset
    {
      var end := if offset + MAX_PAGE <= |listing| then offset + MAX_PAGE else |listing|;
      var page := listing[offset..end];
      all := all + page;
      if |page| < MAX_PAGE {
        return;
      }
      offset := offset + MAX_PAGE;
    }
  }

  function Children(folders: map<Id, Folder>, order: seq<Id>, parent: Id): (ids: seq<Id>)
    ensures forall id :: id in ids <==> id in order && id in folders && folders[id].parent == Some(parent)
    ensures Distinct(order) ==> Distinct(ids)
  {
    if order == [] then []
    else
      var last := order[|order| - 1];
      var rest := Children(folders, order[..|order| - 1], parent);
      assert order == order[..|order| - 1] + [last];
      assert forall i :: 0 <= i < |rest| ==> rest[i] in rest;
      rest + if last in folders && folders[last].parent == Some(parent) then [last] else []
  }

  class Host {
    var lib: Library
    var fts: seq<FtsRow>

    constructor ()
      ensures lib == Library(map[], [], map[], [], map[], map[]) && fts == [] && Valid(lib) && Mirrors(lib, fts)
    {
      lib := Library(map[], [], map[], [], map[], map[]);
      fts := [];
    }

    method SyncSnippet(id: Id)
      modifies this`fts
      ensures fts == Synced(lib, old(fts), id)
      ensures old(OneRowEach(fts)) ==> OneRowEach(fts) && Searchable(lib, fts, id)
    {
      hide Entry, Lookup, Searchable, Without, OneRowEach;
      var source := Entry(lib, id);
      fts := Without(fts, id);
      if source.Some? {
        fts := fts + [source.value];
      } else {
        assert Without(old(fts), id) + EntryRows(lib, id) == fts;
      }
      if old(OneRowEach(fts)) {
        SyncEffect(lib, old(fts), id, id);
        SyncedSearchable(lib, old(fts), id);
      }
    }

    method ReindexSnippets(ids: seq<Id>)
      modifies this`fts
      ensures fts == SyncedAll(lib, old(fts), ids)
    {
      for i := 0 to |ids|
        invariant fts == SyncedAll(lib, old(fts), ids[..i])
      {
        hide Synced;
        assert ids[..i + 1][..i] == ids[..i];
        SyncSnippet(ids[i]);
      }
      assert ids[..|ids|] == ids;
    }

    /** Clears the table and indexes every live snippet again. */
    method Rebuild() returns (count: nat)
      requires Valid(lib)
      modifies this`fts
      ensures Mirrors(lib, fts) && count == |fts|
      ensures forall id :: Searchable(lib, fts, id)
    {
      hide Entry, Valid, Mirrors, Searchable;
      fts := [];
      count := 0;
      for i := 0 to |lib.order|
        invariant fts == Rebuilt(lib, lib.order[..i]) && count == |fts|
      {
        assert lib.order[..i + 1][..i] == lib.order[..i];
        var source := Entry(lib, lib.order[i]);
        if source.Some? {
          fts := fts + [source.value];
          count := count + 1;
        }
      }
      assert lib.order[..|lib.order|] == lib.order;
      RebuildMirrors(lib);
      MirrorsSearchable(lib, fts);
    }

    /** Walks a folder subtree with a stack, collecting folders and the snippets in them. The tree has
        no circles, so every folder is visited once and the walk ends. */
    method SubtreeIds(root: Id) returns (ids: seq<Id>, folders: set<Id>)
      requires Valid(lib) && Forest(lib.folders)
      ensures SubtreeMembers(lib, root, ids)
      ensures forall id :: id in folders <==> id == root || (id in lib.folders && InSubtree(lib.folders, id, root))
    {
      hide Forest, InSubtree, Members, Children, Walking;
      var queue := [root];
      ids, folders := [], {};
      WalkStarts(lib.folders, root);
      while queue != []
        invariant Walking(lib.folders, folders, queue, root)
        invariant forall id :: id in ids
                               <==> LiveIn(lib, id) && lib.snippets[id].folderId.Some?
                                    && lib.snippets[id].folderId.value in folders
        decreases lib.folders.Keys + {root} - folders
      {
        var current := queue[|queue| - 1];
        var waiting := queue[..|queue| - 1];
        assert queue == waiting + [current];
        var children := Children(lib.folders, lib.folderOrder, current);
        WalkGoesOn(lib.folders, folders, waiting, current, root, children);
        queue := waiting + children;
        var members := DrainPages(Members(lib, lib.order, current));
        ids := ids + members;
        folders := folders + {current};
      }
      WalkEnds(lib.folders, folders, root);
      RootUnder(lib.folders, root);
    }

    /** A rename re-indexes the folder's own snippets, page by page; nothing else needs it. */
    method FolderUpdate(id: Id, folder: Folder) returns (ok: bool)
      requires Valid(lib) && Forest(lib.folders)
      modifies this
      ensures ok <==> Outcome(old(lib), UseCase.FolderUpdate(id, folder)).Some?
      ensures ok ==> Outcome(old(lib), UseCase.FolderUpdate(id, folder)) == Some(lib)
      ensures old(Mirrors(lib, fts)) ==> Mirrors(lib, fts)
      ensures Valid(lib) && Forest(lib.folders) && (!ok ==> lib == old(lib) && fts == old(fts))
    {
      hide InSubtree, Mirrors, Valid, Forest;
      if id !in lib.folders || !FolderKnown(lib, folder.parent) {
        return false;
      }
      if folder.parent.Some? {
        var _, below := SubtreeIds(id);
        if folder.parent.value in below {
          RootUnder(lib.folders, id);
          return false;
        }
      }
      var renamed := lib.folders[id].name != folder.name;
      ghost var before := lib;
      lib := lib.(folders := lib.folders[id := folder]);
      var u := UseCase.FolderUpdate(id, folder);
      assert Outcome(before, u) == Some(lib);
      var touched: seq<Id> := [];
      if renamed {
        touched := DrainPages(Members(lib, lib.order, id));
      }
      ReindexSnippets(touched);
      OutcomeKeepsValid(before, u, lib);
      UpdateKeepsForest(before, id, folder, lib);
      if old(Mirrors(lib, fts)) {
        UseCaseMirrors(before, u, lib, touched, old(fts));
      }
      ok := true;
    }

    /** The snippets of the subtree are collected before the folders cascade away, and re-indexed after. */
    method FolderDelete(id: Id) returns (ok: bool)
      requires Valid(lib) && Forest(lib.folders)
      modifies this
      ensures ok <==> id in old(lib).folders
      ensures ok ==> Outcome(old(lib), UseCase.FolderDelete(id)) == Some(lib)
      ensures old(Mirrors(lib, fts)) ==> Mirrors(lib, fts)
      ensures Valid(lib) && (!ok ==> lib == old(lib) && fts == old(fts))
    {
      hide InSubtree, Mirrors, Valid, Forest, SubtreeMembers, PruneFolders;
      if id !in lib.folders {
        return false;
      }
      var affected, gone := SubtreeIds(id);
      RootUnder(lib.folders, id);
      ghost var before := lib;
      var u := UseCase.FolderDelete(id);
      assert gone == set f | f in lib.folders && InSubtree(lib.folders, f, id);
      lib := PruneFolders(lib, gone);
      assert Outcome(before, u) == Some(lib);
      ReindexSnippets(affected);
      OutcomeKeepsValid(before, u, lib);
      if old(Mirrors(lib, fts)) {
        UseCaseMirrors(before, u, lib, affected, old(fts));
      }
      ok := true;
    }
  }

  lemma RootUnder(folders: map<Id, Folder>, root: Id)
    ensures InSubtree(folders, root, root)
  {
    assert Under(folders, root, root, 0);
  }

  /** A visited or waiting folder: the root, or a child of a visited one. */
  ghost predicate Reached(folders: map<Id, Folder>, visited: set<Id>, id: Id, root: Id) {
    InSubtree(folders, id, root)
      && (id == root || (id in folders && folders[id].parent.Some? && folders[id].parent.value in visited))
  }

  /** The children of a folder visited for the first time have been neither visited nor queued. */
  lemma NewChildren(folders: map<Id, Folder>, visited: set<Id>, waiting: seq<Id>, current: Id, root: Id,
                    children: seq<Id>)
    requires Forest(folders) && Distinct(waiting + [current]) && Distinct(children) && current !in visited
    requires InSubtree(folders, current, root)
    requires forall id :: id in waiting + [current] ==> id !in visited && Reached(folders, visited, id, root)
    requires forall id :: id in visited ==> Reached(folders, visited, id, root)
    requires forall id :: id in children ==> id in folders && folders[id].parent == Some(current)
    ensures Distinct(waiting + children)
    ensures forall id :: id in children
                         ==> id !in visited + {current} && Reached(folders, visited + {current}, id, root)
  {
    hide InSubtree;
    assert forall id :: id in waiting ==> id in waiting + [current];
    forall id | id in children
      ensures id !in visited + {current} && id !in waiting && Reached(folders, visited + {current}, id, root)
    {
      ChildUnder(folders, id, root);
      ParentDiffers(folders, id);
    }
    var queue := waiting + [current];
    assert forall i :: 0 <= i < |waiting| ==> waiting[i] == queue[i];
    assert forall i :: 0 <= i < |waiting| ==> waiting[i] in waiting;
    assert forall i :: 0 <= i < |children| ==> children[i] in children;
  }

  lemma ParentDiffers(folders: map<Id, Folder>, id: Id)
    requires Forest(folders) && id in folders
    ensures folders[id].parent != Some(id)
  {
    var rank: Id -> nat :| Ranked(folders, rank);
  }

  /** The walk so far: what is waiting is new and distinct, and every child of a visited folder is
      visited or waiting. */
  ghost predicate Walking(folders: map<Id, Folder>, visited: set<Id>, queue: seq<Id>, root: Id) {
    && Distinct(queue)
    && (forall id :: id in queue ==> id !in visited && Reached(folders, visited, id, root))
    && (forall id :: id in visited ==> Reached(folders, visited, id, root))
    && (root in visited || root in queue)
    && (forall id :: id in folders && folders[id].parent.Some? && folders[id].parent.value in visited
                     ==> id in visited || id in queue)
  }

  lemma WalkStarts(folders: map<Id, Folder>, root: Id)
    ensures Walking(folders, {}, [root], root)
  {
    RootUnder(folders, root);
  }

  lemma WalkGoesOn(folders: map<Id, Folder>, visited: set<Id>, waiting: seq<Id>, current: Id, root: Id,
                   children: seq<Id>)
    requires Forest(folders) && Walking(folders, visited, waiting + [current], root) && Distinct(children)
    requires forall id :: id in children <==> id in folders && folders[id].parent == Some(current)
    ensures Walking(folders, visited + {current}, waiting + children, root)
    ensures current !in visited && (current == root || current in folders)
  {
    hide InSubtree, Distinct;
    assert current in waiting + [current];
    NewChildren(folders, visited, waiting, current, root, children);
    forall id | id in waiting ensures id !in visited + {current} {
      assert id in waiting + [current];
      CurrentIsNew(waiting, current);
    }
  }

  lemma CurrentIsNew(waiting: seq<Id>, current: Id)
    requires Distinct(waiting + [current])
    ensures current !in waiting
  {
    var queue := waiting + [current];
    assert forall i :: 0 <= i < |waiting| ==> queue[i] == waiting[i] && queue[i] != queue[|waiting|];
  }

  lemma WalkEnds(folders: map<Id, Folder>, visited: set<Id>, root: Id)
    requires Walking(folders, visited, [], root)
    ensures forall id :: InSubtree(folders, id, root) <==> id in visited
    ensures forall id :: id in visited ==> id == root || id in folders
  {
    forall id | InSubtree(folders, id, root) ensures id in visited {
      var steps: nat :| Under(folders, id, root, steps);
      ClosedHolds(folders, visited, id, root, steps);
    }
  }
}
