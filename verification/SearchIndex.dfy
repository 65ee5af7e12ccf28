/** The full-text index beside the library it mirrors (crates/search/src/index.rs), and the use cases that
    write the library and then re-index what they touched (crates/host-service/src/service.rs). */
module SearchIndex {
  import opened Wrappers
  import opened Segment

  type Id = string

  // ----- the library -----

  datatype SnippetRow = SnippetRow(
    title: string,
    content: Option<string>,
    description: Option<string>,
    folderId: Option<Id>,
    trigger: Option<string>,
    language: Option<string>,
    sensitive: bool,
    trashed: bool,
    conflictOf: Option<Id>)

  datatype Folder = Folder(parent: Option<Id>, name: string)

  /** The tables the index reads; `order` lists the snippet rows and `folderOrder` the folder rows. */
  datatype Library = Library(
    snippets: map<Id, SnippetRow>,
    order: seq<Id>,
    folders: map<Id, Folder>,
    folderOrder: seq<Id>,
    tags: map<Id, string>,
    links: map<Id, seq<Id>>)

  predicate Distinct(ids: seq<Id>) {
    forall i, j :: 0 <= i < j < |ids| ==> ids[i] != ids[j]
  }

  ghost predicate Lists(ids: seq<Id>, keys: set<Id>) {
    Distinct(ids) && forall id :: id in ids <==> id in keys
  }

  /** Keys are unique and references resolve, as the schema demands. */
  ghost predicate Valid(lib: Library) {
    && Lists(lib.order, lib.snippets.Keys) && Lists(lib.folderOrder, lib.folders.Keys)
    && (forall id :: id in lib.snippets && lib.snippets[id].folderId.Some?
                     ==> lib.snippets[id].folderId.value in lib.folders)
    && (forall id :: id in lib.links ==> id in lib.snippets && Distinct(lib.links[id])
                                         && forall t :: t in lib.links[id] ==> t in lib.tags)
  }

  predicate LiveIn(lib: Library, id: Id) {
    id in lib.snippets && !lib.snippets[id].trashed
  }

  // ----- what is indexed -----

  /** One index row; the concatenated tag names are a bag, their order being up to the database. */
  datatype FtsRow = FtsRow(
    id: Id,
    title: string,
    content: string,
    description: string,
    tags: multiset<string>,
    folderName: string,
    trigger: string,
    language: string)

  function IndexOpt(value: Option<string>): string {
    if value.Some? then IndexText(value.value) else []
  }

  function TagNames(tags: map<Id, string>, ids: seq<Id>): (names: seq<string>)
    ensures |names| <= |ids|
  {
    if ids == [] then []
    else
      var last := ids[|ids| - 1];
      TagNames(tags, ids[..|ids| - 1]) + if last in tags then [IndexText(tags[last])] else []
  }

  function TagIds(lib: Library, id: Id): seq<Id> {
    if id in lib.links then lib.links[id] else []
  }

  function FolderName(lib: Library, row: SnippetRow): Option<string> {
    if row.folderId.Some? && row.folderId.value in lib.folders then Some(lib.folders[row.folderId.value].name) else None
  }

  /** The columns a sensitive snippet leaves empty. */
  function Shown(row: SnippetRow, value: Option<string>): string {
    if row.sensitive then [] else IndexOpt(value)
  }

  /** The index row a snippet should have: none when it is missing or in the recycle bin. */
  function Entry(lib: Library, id: Id): (entry: Option<FtsRow>)
    ensures entry.Some? <==> LiveIn(lib, id)
    ensures entry.Some? ==> entry.value.id == id
  {
    if !LiveIn(lib, id) then None
    else
      var row := lib.snippets[id];
      Some(FtsRow(id, IndexText(row.title), Shown(row, row.content), IndexOpt(row.description),
                  multiset(TagNames(lib.tags, TagIds(lib, id))), Shown(row, FolderName(lib, row)),
                  Shown(row, row.trigger), Shown(row, row.language)))
  }

  /** What a sensitive snippet's body, trigger, folder and language are never reaches its index row: two
      libraries that differ in nothing else index it alike. */
  lemma SensitiveStaysOut(lib: Library, id: Id, content: Option<string>, trigger: Option<string>,
                          language: Option<string>, folderId: Option<Id>)
    requires id in lib.snippets && lib.snippets[id].sensitive
    ensures var row := lib.snippets[id].(content := content, trigger := trigger, language := language,
                                         folderId := folderId);
            Entry(lib.(snippets := lib.snippets[id := row]), id) == Entry(lib, id)
    ensures Entry(lib, id).Some?
            ==> var e := Entry(lib, id).value; e.content == e.trigger == e.language == e.folderName == []
  {
    hide TagNames, IndexText;
  }

  // ----- the index table -----

  function Without(fts: seq<FtsRow>, id: Id): seq<FtsRow> {
    if fts == [] then []
    else Without(fts[..|fts| - 1], id) + if fts[|fts| - 1].id == id then [] else [fts[|fts| - 1]]
  }

  function EntryRows(lib: Library, id: Id): seq<FtsRow> {
    if Entry(lib, id).Some? then [Entry(lib, id).value] else []
  }

  /** Delete the snippet's rows, then insert what it should have. */
  function Synced(lib: Library, fts: seq<FtsRow>, id: Id): seq<FtsRow> {
    Without(fts, id) + EntryRows(lib, id)
  }

  function SyncedAll(lib: Library, fts: seq<FtsRow>, ids: seq<Id>): seq<FtsRow> {
    if ids == [] then fts else Synced(lib, SyncedAll(lib, fts, ids[..|ids| - 1]), ids[|ids| - 1])
  }

  /** One row per live snippet, in table order. */
  function Rebuilt(lib: Library, ids: seq<Id>): seq<FtsRow> {
    if ids == [] then [] else Rebuilt(lib, ids[..|ids| - 1]) + EntryRows(lib, ids[|ids| - 1])
  }

  predicate OneRowEach(fts: seq<FtsRow>) {
    forall i, j :: 0 <= i < j < |fts| ==> fts[i].id != fts[j].id
  }

  /** The row the index holds for a snippet. */
  function Lookup(fts: seq<FtsRow>, id: Id): (found: Option<FtsRow>)
    ensures found.Some? ==> found.value in fts && found.value.id == id
    ensures found.None? ==> forall row :: row in fts ==> row.id != id
  {
    if fts == [] then None
    else if fts[|fts| - 1].id == id then Some(fts[|fts| - 1])
    else Lookup(fts[..|fts| - 1], id)
  }

  /** The index says of every snippet what the library says. */
  ghost predicate Mirrors(lib: Library, fts: seq<FtsRow>) {
    OneRowEach(fts) && forall id :: Lookup(fts, id) == Entry(lib, id)
  }

  lemma LookupSnoc(front: seq<FtsRow>, last: FtsRow, x: Id)
    ensures Lookup(front + [last], x) == if last.id == x then Some(last) else Lookup(front, x)
    ensures Lookup(front + [], x) == Lookup(front, x)
  {
    assert (front + [last])[..|front|] == front && front + [] == front;
  }

  lemma {:induction false} WithoutLookup(fts: seq<FtsRow>, id: Id, x: Id)
    ensures Lookup(Without(fts, id), x) == if x == id then None else Lookup(fts, x)
  {
    if fts != [] {
      WithoutLookup(fts[..|fts| - 1], id, x);
      hide Lookup;
      var front, last := fts[..|fts| - 1], fts[|fts| - 1];
      assert fts == front + [last];
      LookupSnoc(front, last, x);
      LookupSnoc(Without(front, id), last, x);
    }
  }

  lemma {:induction false} WithoutDistinct(fts: seq<FtsRow>, id: Id)
    requires OneRowEach(fts)
    ensures OneRowEach(Without(fts, id))
    ensures forall row :: row in Without(fts, id) ==> row in fts && row.id != id
  {
    if fts != [] {
      var n := |fts| - 1;
      WithoutDistinct(fts[..n], id);
      var front := Without(fts[..n], id);
      assert fts == fts[..n] + [fts[n]];
      forall row | row in front ensures row in fts && row.id != fts[n].id {
        var j :| 0 <= j < n && fts[j] == row;
      }
      assert forall i :: 0 <= i < |front| ==> front[i] in front;
      assert forall row :: row in Without(fts, id) ==> row in front || (row == fts[n] && row.id != id);
    }
  }

  lemma SyncEffect(lib: Library, fts: seq<FtsRow>, id: Id, x: Id)
    requires OneRowEach(fts)
    ensures OneRowEach(Synced(lib, fts, id))
    ensures Lookup(Synced(lib, fts, id), x) == if x == id then Entry(lib, id) else Lookup(fts, x)
  {
    hide Entry;
    WithoutDistinct(fts, id);
    WithoutLookup(fts, id, x);
    hide Lookup;
    if Entry(lib, id).Some? {
      EntryOwn(lib, id);
      LookupSnoc(Without(fts, id), Entry(lib, id).value, x);
    } else {
      assert Without(fts, id) + [] == Without(fts, id);
    }
  }

  lemma EntryOwn(lib: Library, id: Id)
    ensures Entry(lib, id).Some? ==> Entry(lib, id).value.id == id
  {
  }

  lemma {:induction false} SyncAllEffect(lib: Library, fts: seq<FtsRow>, ids: seq<Id>, x: Id)
    requires OneRowEach(fts)
    ensures OneRowEach(SyncedAll(lib, fts, ids))
    ensures Lookup(SyncedAll(lib, fts, ids), x) == if x in ids then Entry(lib, x) else Lookup(fts, x)
  {
    hide Entry, Synced;
    if ids != [] {
      var rest, last := ids[..|ids| - 1], ids[|ids| - 1];
      assert ids == rest + [last];
      SyncAllEffect(lib, fts, rest, x);
      SyncEffect(lib, SyncedAll(lib, fts, rest), last, x);
    }
  }

  /** Re-indexing the touched snippets after a write is enough exactly when no other snippet's entry
      changed. */
  lemma TouchedSuffices(lib: Library, next: Library, fts: seq<FtsRow>, ids: seq<Id>)
    requires Mirrors(lib, fts)
    ensures Mirrors(next, SyncedAll(next, fts, ids)) <==> forall id :: id !in ids ==> Entry(next, id) == Entry(lib, id)
  {
    hide Entry, Lookup, SyncedAll;
    SyncAllEffect(next, fts, ids, []);
    forall x ensures Lookup(SyncedAll(next, fts, ids), x) == if x in ids then Entry(next, x) else Entry(lib, x) {
      SyncAllEffect(next, fts, ids, x);
    }
  }

  // ----- the rebuild -----

  lemma {:induction false} RebuiltLookup(lib: Library, ids: seq<Id>, x: Id)
    requires Distinct(ids)
    ensures OneRowEach(Rebuilt(lib, ids)) && forall row :: row in Rebuilt(lib, ids) ==> row.id in ids
    ensures Lookup(Rebuilt(lib, ids), x) == if x in ids then Entry(lib, x) else None
  {
    hide Entry;
    if ids != [] {
      var rest, last := ids[..|ids| - 1], ids[|ids| - 1];
      assert ids == rest + [last];
      RebuiltLookup(lib, rest, x);
      EntryOwn(lib, last);
      hide Lookup;
      if Entry(lib, last).Some? {
        LookupSnoc(Rebuilt(lib, rest), Entry(lib, last).value, x);
      } else {
        assert Rebuilt(lib, rest) + [] == Rebuilt(lib, rest);
      }
    }
  }

  lemma RebuildMirrors(lib: Library)
    requires Valid(lib)
    ensures Mirrors(lib, Rebuilt(lib, lib.order))
  {
    hide Lookup, Rebuilt;
    forall id ensures Lookup(Rebuilt(lib, lib.order), id) == Entry(lib, id) {
      RebuiltLookup(lib, lib.order, id);
    }
    RebuiltLookup(lib, lib.order, []);
  }

  lemma {:induction false} LookupMember(fts: seq<FtsRow>, row: FtsRow)
    requires OneRowEach(fts)
    ensures row in fts <==> Lookup(fts, row.id) == Some(row)
  {
    if fts != [] {
      LookupMember(fts[..|fts| - 1], row);
      assert fts == fts[..|fts| - 1] + [fts[|fts| - 1]];
    }
  }

  lemma {:induction false} AtMostOnce(fts: seq<FtsRow>, row: FtsRow)
    requires OneRowEach(fts)
    ensures multiset(fts)[row] == if row in fts then 1 else 0
  {
    if fts != [] {
      var n := |fts| - 1;
      assert fts == fts[..n] + [fts[n]];
      AtMostOnce(fts[..n], row);
    }
  }

  /** Mirroring is being a rebuild: the index mirrors the library exactly when it holds the rows a full
      rebuild would write, each as often. */
  lemma MirrorsIsRebuild(lib: Library, fts: seq<FtsRow>)
    requires Valid(lib)
    ensures Mirrors(lib, fts) <==> multiset(fts) == multiset(Rebuilt(lib, lib.order))
  {
    hide Lookup, Entry, Rebuilt, Valid;
    var full := Rebuilt(lib, lib.order);
    RebuildMirrors(lib);
    if Mirrors(lib, fts) {
      forall row ensures multiset(fts)[row] == multiset(full)[row] {
        LookupMember(fts, row);
        LookupMember(full, row);
        AtMostOnce(fts, row);
        AtMostOnce(full, row);
      }
    }
    if multiset(fts) == multiset(full) {
      SameRows(fts, full);
      forall id ensures Lookup(fts, id) == Lookup(full, id) {
        SameLookup(fts, full, id);
      }
    }
  }

  lemma SameRows(fts: seq<FtsRow>, full: seq<FtsRow>)
    requires OneRowEach(full) && multiset(fts) == multiset(full)
    ensures OneRowEach(fts)
  {
    forall i, j | 0 <= i < j < |fts| ensures fts[i].id != fts[j].id {
      assert fts[i] in multiset(full) && fts[j] in multiset(full);
      AtMostOnce(full, fts[i]);
      if fts[i] == fts[j] {
        TwiceCounts(fts, i, j);
      }
    }
  }

  lemma TwiceCounts(fts: seq<FtsRow>, i: nat, j: nat)
    requires i < j < |fts| && fts[i] == fts[j]
    ensures multiset(fts)[fts[i]] >= 2
  {
    assert fts == fts[..j] + ([fts[j]] + fts[j + 1..]);
    assert fts[..j][i] in multiset(fts[..j]);
  }

  lemma SameLookup(fts: seq<FtsRow>, full: seq<FtsRow>, id: Id)
    requires OneRowEach(fts) && OneRowEach(full) && multiset(fts) == multiset(full)
    ensures Lookup(fts, id) == Lookup(full, id)
  {
    hide Lookup;
    forall row ensures row in fts <==> row in full {
      assert row in fts <==> row in multiset(fts);
    }
    if Lookup(fts, id).Some? {
      LookupMember(full, Lookup(fts, id).value);
    }
  }

  // ----- what a search finds -----

  /** The text holds the query, white space between its characters aside. */
  ghost predicate Contains(text: string, query: string) {
    exists a, m, b :: text == a + m + b && Strip(m) == query
  }

  ghost predicate ContainsOpt(text: Option<string>, query: string) {
    text.Some? && Contains(text.value, query)
  }

  /** The words the query is cut into stand next to each other in the column. */
  ghost predicate Hits(query: string, column: string) {
    PhraseIn(Tokens(IndexText(query)), Tokens(column))
  }

  predicate HanQuery(query: string) {
    query != [] && AllHan(query)
  }

  /** The index row of a snippet answers a query by the snippet's own words: every column by the text it was
      made from, tags name by name, and of a sensitive snippet only title, description and tags. */
  ghost predicate Finds(lib: Library, id: Id, entry: FtsRow, query: string)
    requires id in lib.snippets
  {
    var row := lib.snippets[id];
    var folder :=
      if row.folderId.Some? && row.folderId.value in lib.folders then Some(lib.folders[row.folderId.value].name)
      else None;
    && (Hits(query, entry.title) <==> Contains(row.title, query))
    && (Hits(query, entry.description) <==> ContainsOpt(row.description, query))
    && (Hits(query, entry.content) <==> !row.sensitive && ContainsOpt(row.content, query))
    && (Hits(query, entry.trigger) <==> !row.sensitive && ContainsOpt(row.trigger, query))
    && (Hits(query, entry.language) <==> !row.sensitive && ContainsOpt(row.language, query))
    && (Hits(query, entry.folderName) <==> !row.sensitive && ContainsOpt(folder, query))
    && ((exists name :: name in entry.tags && Hits(query, name))
        <==> exists t :: id in lib.links && t in lib.links[id] && t in lib.tags && Contains(lib.tags[t], query))
  }

  lemma ColumnFinds(text: string, query: string)
    requires HanQuery(query)
    ensures Hits(query, IndexText(text)) <==> Contains(text, query)
  {
    hide IndexText, Tokens, Strip;
    HanPhraseFound(text, query);
  }

  lemma EmptyColumn(query: string)
    requires HanQuery(query)
    ensures !Hits(query, [])
  {
    hide Strip;
    ColumnFinds([], query);
    assert IndexText([]) == [];
    if a, m, b :| [] == a + m + b && Strip(m) == query {
      assert |m| == 0;
      StripNothing();
    }
  }

  lemma StripNothing()
    ensures Strip([]) == []
  {
  }

  lemma OptFinds(value: Option<string>, query: string)
    requires HanQuery(query)
    ensures Hits(query, IndexOpt(value)) <==> ContainsOpt(value, query)
  {
    hide Hits, Contains, IndexText;
    if value.Some? {
      ColumnFinds(value.value, query);
    } else {
      EmptyColumn(query);
    }
  }

  lemma {:induction false} TagsFind(tags: map<Id, string>, ids: seq<Id>, query: string)
    requires HanQuery(query)
    ensures (exists name :: name in TagNames(tags, ids) && Hits(query, name))
       <==> exists t :: t in ids && t in tags && Contains(tags[t], query)
  {
    hide Hits, Contains, IndexText;
    if ids != [] {
      var (front, last) := (ids[..|ids| - 1], ids[|ids| - 1]);
      assert ids == front + [last];
      TagsFind(tags, front, query);
      if last in tags {
        ColumnFinds(tags[last], query);
        assert IndexText(tags[last]) in TagNames(tags, ids);
        assert forall name :: name in TagNames(tags, front) ==> name in TagNames(tags, ids);
      }
    }
  }

  lemma EntryFinds(lib: Library, id: Id, query: string)
    requires LiveIn(lib, id) && HanQuery(query)
    ensures Finds(lib, id, Entry(lib, id).value, query)
  {
    hide Hits, Contains, IndexText, TagNames, IndexOpt;
    var row := lib.snippets[id];
    ColumnFinds(row.title, query);
    OptFinds(row.description, query);
    OptFinds(row.content, query);
    OptFinds(row.trigger, query);
    OptFinds(row.language, query);
    OptFinds(FolderName(lib, row), query);
    EmptyColumn(query);
    TagsFind(lib.tags, TagIds(lib, id), query);
    var names := TagNames(lib.tags, TagIds(lib, id));
    assert forall name :: name in names <==> name in multiset(names);
  }

  /** What the table answers for one snippet: nothing when it is missing or in the recycle bin, and otherwise
      the row it holds finds the snippet by its words. */
  ghost predicate Searchable(lib: Library, fts: seq<FtsRow>, id: Id) {
    if LiveIn(lib, id)
    then Lookup(fts, id).Some? && forall query :: HanQuery(query) ==> Finds(lib, id, Lookup(fts, id).value, query)
    else forall row :: row in fts ==> row.id != id
  }

  lemma EntrySearchable(lib: Library, fts: seq<FtsRow>, id: Id)
    requires Lookup(fts, id) == Entry(lib, id)
    ensures Searchable(lib, fts, id)
  {
    hide Entry, Lookup, Finds;
    if LiveIn(lib, id) {
      forall query | HanQuery(query) ensures Finds(lib, id, Entry(lib, id).value, query) {
        EntryFinds(lib, id, query);
      }
    }
  }

  /** A snippet that was synchronised is searchable, and so is every snippet of an index that mirrors the
      library, as a rebuilt one does. */
  lemma SyncedSearchable(lib: Library, fts: seq<FtsRow>, id: Id)
    requires OneRowEach(fts)
    ensures Searchable(lib, Synced(lib, fts, id), id)
  {
    hide Entry, Lookup, Synced, Searchable;
    SyncEffect(lib, fts, id, id);
    EntrySearchable(lib, Synced(lib, fts, id), id);
  }

  lemma MirrorsSearchable(lib: Library, fts: seq<FtsRow>)
    requires Mirrors(lib, fts)
    ensures forall id :: Searchable(lib, fts, id)
  {
    hide Entry, Lookup, Searchable;
    forall id ensures Searchable(lib, fts, id) {
      EntrySearchable(lib, fts, id);
    }
  }
}
