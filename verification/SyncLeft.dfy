/** Entities left off their basis with nothing more to do about it: what a deleted folder unlinks, what the
    catch-up pass does not see, and an announced edit of a recycled snippet. */
module SyncLeft {
  import opened Wrappers
  import opened Merge
  import opened SyncModel
  import opened SyncOutbox
  import opened SyncCascade
  import opened SyncBasis
  import opened SyncRuns
  import opened SyncReconcile
  import opened SyncTrace
  import opened SyncSystem
  import opened SyncConverge
  import opened SyncMoves
  import opened SyncSamples
  import opened SyncStory
  import Server = SyncServer

  const FOLDER: Doc := FolderDoc("f", "Inbox", 0, 100)
  const FILED: Doc := SnippetDoc("s", "note", Str("f"), 1, 200)

  // ----- a folder deleted with a snippet in it -----

  const FOLDER_MADE: Wire := Wire(DrawnId("A", 0), INBOX, 1, Content(FOLDER), 100, "A")
  const SNIPPET_FILED: Wire := Wire(DrawnId("A", 1), NOTE, 1, Content(FILED), 200, "A")
  const FOLDER_GONE: Wire := Wire(DrawnId("A", 2), INBOX, 2, Tombstone(300), 300, "A")

  function Unfiled(): Doc {
    FILED["folder_id" := Null]
  }

  const SENT2: seq<Queued> := [Sent(FOLDER_MADE, 1)] + [Sent(SNIPPET_FILED, 2)]

  function FolderA(): Client {
    Client(map[INBOX := FOLDER], [Sent(FOLDER_MADE, 1)], map[INBOX := Shadow(1, Some(FOLDER))], [], 0, 1)
  }

  function FiledA(): Client {
    Client(map[INBOX := FOLDER, NOTE := FILED], SENT2,
           map[INBOX := Shadow(1, Some(FOLDER)), NOTE := Shadow(1, Some(FILED))], [], 0, 2)
  }

  function DeletingA(): Client {
    FiledA().(rows := map[NOTE := Unfiled()], outbox := SENT2 + [Queued(FOLDER_GONE, Pending, None)], drawn := 3)
  }

  function DeletedA(): Client {
    DeletingA().(outbox := SENT2 + [Sent(FOLDER_GONE, 3)],
                 shadows := map[INBOX := Shadow(2, None), NOTE := Shadow(1, Some(FILED))])
  }

  const LOG: seq<Wire> := [FOLDER_MADE, SNIPPET_FILED, FOLDER_GONE]

  lemma FolderHeads()
    ensures Server.HeadVersion([FOLDER_MADE], NOTE) == 0 && Server.HeadVersion([FOLDER_MADE, SNIPPET_FILED], INBOX) == 1
  {
    hide FolderDoc, SnippetDoc, DrawnId, Server.HeadVersion;
    NothingYet(INBOX);
    NothingYet(NOTE);
    Server.HeadOfAppend([], FOLDER_MADE, NOTE);
    Server.HeadOfAppend([], FOLDER_MADE, INBOX);
    Server.HeadOfAppend([FOLDER_MADE], SNIPPET_FILED, INBOX);
    assert [] + [FOLDER_MADE] == [FOLDER_MADE] && [FOLDER_MADE] + [SNIPPET_FILED] == [FOLDER_MADE, SNIPPET_FILED];
  }

  lemma FolderVersions()
    ensures MaxVersion([Sent(FOLDER_MADE, 1)], NOTE) == 0 && MaxVersion(SENT2, INBOX) == 1
  {
    hide FolderDoc, SnippetDoc, DrawnId, MaxVersion;
    NothingYet(INBOX);
    NothingYet(NOTE);
    MaxAppend([], Sent(FOLDER_MADE, 1), NOTE);
    MaxAppend([], Sent(FOLDER_MADE, 1), INBOX);
    MaxAppend([Sent(FOLDER_MADE, 1)], Sent(SNIPPET_FILED, 2), INBOX);
    assert [] + [Sent(FOLDER_MADE, 1)] == [Sent(FOLDER_MADE, 1)];
  }

  lemma FolderMade() returns (moves: seq<Move>)
    ensures Tells(moves, [FOLDER_MADE], FolderA(), EmptyClient())
  {
    hide Tells, FolderDoc, Complete, DrawnId;
    Opening();
    var none := EmptyClient();
    FolderAccepted("Inbox", 0, 100);
    moves := Writing([], [], none, none, true, INBOX, Some(FOLDER), None, 100);
    var a := Client(map[INBOX := FOLDER], [Queued(FOLDER_MADE, Pending, None)], map[], [], 0, 1);
    assert AfterWrite(none, INBOX, Some(FOLDER), FOLDER_MADE) == a;
    moves := Pushing(moves, [], a, none, true, [], FOLDER_MADE);
    assert AfterPush(a, [], FOLDER_MADE, 1) == FolderA();
    assert [] + [FOLDER_MADE] == [FOLDER_MADE];
  }

  lemma SnippetFiled() returns (moves: seq<Move>)
    ensures Tells(moves, [FOLDER_MADE, SNIPPET_FILED], FiledA(), EmptyClient())
  {
    hide Tells, FolderDoc, SnippetDoc, Complete, DrawnId, Server.HeadVersion, MaxVersion;
    moves := FolderMade();
    FolderHeads();
    FolderVersions();
    SnippetAccepted("note", Str("f"), 1, 200);
    moves := Writing(moves, [FOLDER_MADE], FolderA(), EmptyClient(), true, NOTE, Some(FILED), None, 200);
    var a := FiledA().(outbox := [Sent(FOLDER_MADE, 1)] + [Queued(SNIPPET_FILED, Pending, None)],
                       shadows := FolderA().shadows);
    assert AfterWrite(FolderA(), NOTE, Some(FILED), SNIPPET_FILED) == a;
    moves := Pushing(moves, [FOLDER_MADE], a, EmptyClient(), true, [Sent(FOLDER_MADE, 1)], SNIPPET_FILED);
    assert AfterPush(a, [Sent(FOLDER_MADE, 1)], SNIPPET_FILED, 2) == FiledA();
    assert [FOLDER_MADE] + [SNIPPET_FILED] == [FOLDER_MADE, SNIPPET_FILED];
  }

  lemma FolderTakesItself(rows: map<Key, Doc>)
    requires INBOX in rows && forall k :: k in rows ==> Owners(k, rows[k]) == {}
    ensures Felled(rows, {INBOX}) == {INBOX}
  {
    FelledLeast(rows, {INBOX});
    assert ClosedUnder(rows, {INBOX});
  }

  lemma SnippetUnlinked()
    ensures Removed(FiledA().rows, INBOX) == map[NOTE := Unfiled()]
    ensures INBOX != NOTE && Live(NOTE, Unfiled()) && Unfiled() != FILED
  {
    hide FolderDoc, SnippetDoc, Felled, CompleteSnippet, CompleteFolder;
    FolderAccepted("Inbox", 0, 100);
    SnippetAccepted("note", Str("f"), 1, 200);
    SnippetFacts("s", "note", Str("f"), 1, 200);
    FolderTakesItself(FiledA().rows);
    assert Key(Folder, "f") in Named(Folder, FILED, "folder_id") * {INBOX};
    assert Cleared(FILED, "folder_id", Folder, {INBOX}) == Unfiled();
    assert Lookup(Unfiled(), "conflict_of") == Null && Lookup(Unfiled(), "deleted_at") == Null;
    assert Lookup(Unfiled(), "folder_id") == Null;
  }

  lemma FolderDeleting() returns (moves: seq<Move>)
    ensures Tells(moves, [FOLDER_MADE, SNIPPET_FILED], DeletingA(), EmptyClient())
  {
    hide Tells, FolderDoc, SnippetDoc, DrawnId, MaxVersion, Removed, Unfiled;
    moves := SnippetFiled();
    FolderVersions();
    SnippetUnlinked();
    moves := Writing(moves, [FOLDER_MADE, SNIPPET_FILED], FiledA(), EmptyClient(), true, INBOX, None, Some(300), 300);
    assert AfterWrite(FiledA(), INBOX, None, FOLDER_GONE) == DeletingA();
  }

  lemma FolderDeleted() returns (moves: seq<Move>)
    ensures Tells(moves, LOG, DeletedA().(watermark := 3), EmptyClient())
  {
    hide Tells, FolderDoc, SnippetDoc, DrawnId, Server.HeadVersion, CommitPage, Unfiled;
    moves := FolderDeleting();
    FolderHeads();
    moves := Pushing(moves, [FOLDER_MADE, SNIPPET_FILED], DeletingA(), EmptyClient(), true, SENT2, FOLDER_GONE);
    assert DeletingA().shadows[INBOX := Shadow(2, None)] == DeletedA().shadows;
    assert AfterPush(DeletingA(), SENT2, FOLDER_GONE, 3) == DeletedA();
    assert [FOLDER_MADE, SNIPPET_FILED] + [FOLDER_GONE] == LOG;
    var fates := SkippedPage(Device("A"), DeletedA(), LOG, 3, 400);
    moves := Pulling(moves, LOG, DeletedA(), EmptyClient(), true, 3, 400, OPEN, DeletedA().(watermark := 3), fates);
  }

  lemma FiledIsHead()
    ensures HeadDoc(LOG, NOTE) == Some(FILED)
  {
    hide FolderDoc, SnippetDoc, DrawnId;
    assert LOG[..2] == [FOLDER_MADE, SNIPPET_FILED];
    assert INBOX != NOTE;
  }

  /** After the folder is deleted and everything is sent and pulled, the device is quiet about the snippet,
      shows it outside any folder, and the server goes on saying that it is in the deleted one. */
  lemma DeletedFolderDiverges() returns (moves: seq<Move>)
    ensures Tells(moves, LOG, DeletedA().(watermark := 3), EmptyClient())
    ensures var end := SystemRun(DEVICES, Start(BOTH), moves);
            && end.log == LOG && "A" in end.nodes && end.nodes["A"].client == DeletedA().(watermark := 3)
            && Quiet(end.nodes["A"], end.log, NOTE)
    ensures View(DeletedA(), NOTE) == Some(Unfiled()) && HeadDoc(LOG, NOTE) == Some(FILED) && Unfiled() != FILED
  {
    hide Tells, FolderDoc, SnippetDoc, DrawnId, Removed, Unfiled, SystemRun, Start, LeadsTo, HeadDoc, Newest;
    moves := FolderDeleted();
    SnippetUnlinked();
    FiledIsHead();
    var end := Known(moves, LOG, DeletedA().(watermark := 3), EmptyClient());
  }

  // ----- what the catch-up pass does not see -----

  /** A folder made here and not yet accepted, deleted while nothing observed the tables. */
  function VanishedA(): Client {
    Client(map[], [Queued(FOLDER_MADE, Pending, None)], map[], [], 0, 1)
  }

  lemma FolderGoes()
    ensures Removed(map[INBOX := FOLDER], INBOX) == map[]
  {
    hide FolderDoc, Felled;
    FolderAccepted("Inbox", 0, 100);
    FolderTakesItself(map[INBOX := FOLDER]);
  }

  /** With nothing to visit and no shadow, the pass does nothing. */
  lemma NothingVisited(env: Env, c: Client, now: int)
    requires env.access.hasKey && c.shadows == map[] && forall k :: !Walked(c.rows, k)
    ensures Lists(c, [], []) && Reconcile(env, c, [], [], now) == Ok((c, 0))
  {
    hide Walked;
  }

  lemma FolderVanished() returns (moves: seq<Move>)
    ensures Tells(moves, [], VanishedA(), EmptyClient())
  {
    hide Tells, FolderDoc, Complete, DrawnId, Removed, MaxVersion;
    Opening();
    var none := EmptyClient();
    FolderAccepted("Inbox", 0, 100);
    NothingYet(INBOX);
    moves := Writing([], [], none, none, true, INBOX, Some(FOLDER), None, 100);
    var a := Client(map[INBOX := FOLDER], [Queued(FOLDER_MADE, Pending, None)], map[], [], 0, 1);
    assert AfterWrite(none, INBOX, Some(FOLDER), FOLDER_MADE) == a;
    moves := Unnoticed(moves, [], a, none, true, INBOX, None);
    FolderGoes();
  }

  /** The pass has nothing to visit and no shadow to compare with: the folder's content stays queued. */
  lemma VanishedBeforeAccepted() returns (moves: seq<Move>)
    ensures Tells(moves, [], VanishedA(), EmptyClient())
    ensures Lists(VanishedA(), [], []) && Reconcile(Device("A"), VanishedA(), [], [], 200) == Ok((VanishedA(), 0))
    ensures View(VanishedA(), INBOX) == None && Basis(VanishedA(), INBOX) == Some(FOLDER)
  {
    hide Tells, FolderDoc, DrawnId, Newest, Lists, Reconcile;
    moves := FolderVanished();
    NothingVisited(Device("A"), VanishedA(), 200);
    NewestAlone(Queued(FOLDER_MADE, Pending, None), INBOX, QUEUED);
  }

  const LOOSE: Doc := SnippetDoc("s", "note", Null, 1, 200)
  const WHO: Key := Key(TemplateField, "t")
  const ASKED: Doc := FieldDoc("t", "s", "Who?")
  const REPHRASED: Doc := FieldDoc("t", "s", "For whom?")
  const SNIPPET_MADE: Wire := Wire(DrawnId("A", 0), NOTE, 1, Content(LOOSE), 200, "A")
  const FIELD_MADE: Wire := Wire(DrawnId("A", 1), WHO, 1, Content(ASKED), 210, "A")
  const MADE2: seq<Queued> := [Queued(SNIPPET_MADE, Pending, None)] + [Queued(FIELD_MADE, Pending, None)]

  function SnippetA(): Client {
    Client(map[NOTE := LOOSE], [Queued(SNIPPET_MADE, Pending, None)], map[], [], 0, 1)
  }

  function TemplateA(): Client {
    Client(map[NOTE := LOOSE, WHO := ASKED], MADE2, map[], [], 0, 2)
  }

  /** The snippet was recycled and its field rephrased while nothing observed the tables. */
  function RephrasedA(): Client {
    TemplateA().(rows := map[NOTE := Binned(LOOSE, 300), WHO := REPHRASED])
  }

  lemma SnippetMade() returns (moves: seq<Move>)
    ensures Tells(moves, [], SnippetA(), EmptyClient())
  {
    hide Tells, SnippetDoc, Complete, DrawnId, MaxVersion;
    Opening();
    var none := EmptyClient();
    SnippetAccepted("note", Null, 1, 200);
    NothingYet(NOTE);
    moves := Writing([], [], none, none, true, NOTE, Some(LOOSE), None, 200);
    assert AfterWrite(none, NOTE, Some(LOOSE), SNIPPET_MADE) == SnippetA();
  }

  lemma TemplateMade() returns (moves: seq<Move>)
    ensures Tells(moves, [], TemplateA(), EmptyClient())
  {
    hide Tells, SnippetDoc, FieldDoc, DrawnId, MaxVersion, CompleteField;
    moves := SnippetMade();
    NothingYet(WHO);
    MaxAppend([], Queued(SNIPPET_MADE, Pending, None), WHO);
    assert [] + [Queued(SNIPPET_MADE, Pending, None)] == [Queued(SNIPPET_MADE, Pending, None)];
    moves := Writing(moves, [], SnippetA(), EmptyClient(), true, WHO, Some(ASKED), None, 210);
    assert AfterWrite(SnippetA(), WHO, Some(ASKED), FIELD_MADE) == TemplateA();
  }

  /** The pass does not visit what hangs off a recycled snippet: the rephrased field is never queued. */
  lemma DependentUnvisited() returns (moves: seq<Move>)
    ensures Tells(moves, [], RephrasedA(), EmptyClient())
    ensures Lists(RephrasedA(), [], []) && Reconcile(Device("A"), RephrasedA(), [], [], 400) == Ok((RephrasedA(), 0))
    ensures View(RephrasedA(), WHO) == Some(REPHRASED) && Basis(RephrasedA(), WHO) == Some(ASKED) && REPHRASED != ASKED
  {
    hide Tells, SnippetDoc, FieldDoc, DrawnId, MaxVersion, Newest, CompleteField, Lists, Reconcile, Walked;
    moves := FieldRephrased();
    RephrasedUnwalked();
    NothingVisited(Device("A"), RephrasedA(), 400);
    NothingYet(WHO);
    MaxAppend([], Queued(SNIPPET_MADE, Pending, None), WHO);
    assert [] + [Queued(SNIPPET_MADE, Pending, None)] == [Queued(SNIPPET_MADE, Pending, None)];
    NewestIsAppended([Queued(SNIPPET_MADE, Pending, None)], Queued(FIELD_MADE, Pending, None), WHO, QUEUED);
  }

  lemma RephrasedUnwalked()
    ensures forall k :: !Walked(RephrasedA().rows, k)
  {
    hide SnippetDoc, FieldDoc, CompleteField;
    assert !Live(NOTE, Binned(LOOSE, 300));
    assert ParentKey(REPHRASED) == NOTE;
  }

  lemma FieldRephrased() returns (moves: seq<Move>)
    ensures Tells(moves, [], RephrasedA(), EmptyClient())
  {
    hide Tells, SnippetDoc, FieldDoc, DrawnId, CompleteField;
    moves := TemplateMade();
    moves := Unnoticed(moves, [], TemplateA(), EmptyClient(), true, NOTE, Some(Binned(LOOSE, 300)));
    var a := TemplateA().(rows := TemplateA().rows[NOTE := Binned(LOOSE, 300)]);
    moves := Unnoticed(moves, [], a, EmptyClient(), true, WHO, Some(REPHRASED));
    assert a.rows[WHO := REPHRASED] == RephrasedA().rows;
  }

  // ----- a use of a snippet -----

  /** The snippet was inserted somewhere, which its row counts. */
  function UsedA(): Client {
    SnippetA().(rows := map[NOTE := Counted(LOOSE, 300)])
  }

  /** The use is in the row and nowhere else: the snippet shown is not the one queued. */
  lemma UseGoesUnannounced() returns (moves: seq<Move>)
    ensures Tells(moves, [], UsedA(), EmptyClient()) && moves != [] && moves[|moves| - 1] == Local("A", Use(NOTE, 300))
    ensures BasisAt(SnippetA(), NOTE) && UsedA().outbox == SnippetA().outbox
    ensures Basis(UsedA(), NOTE) == Some(LOOSE) && View(UsedA(), NOTE) == Some(Counted(LOOSE, 300))
            && !BasisAt(UsedA(), NOTE)
  {
    hide Tells, SnippetDoc, DrawnId, Newest, Counted;
    moves := SnippetMade();
    SnippetAccepted("note", Null, 1, 200);
    NewestAlone(Queued(SNIPPET_MADE, Pending, None), NOTE, QUEUED);
    moves := Using(moves, [], SnippetA(), EmptyClient(), true, NOTE, 300);
    assert SnippetA().(rows := Used(SnippetA().rows, NOTE, 300)) == UsedA();
    UseUnannounced(Device("A"), SnippetA(), NOTE, 300);
    UseShows(SnippetA(), NOTE, 300);
    CountedLive(LOOSE, 300);
  }

  lemma CountedLive(doc: Doc, now: int)
    ensures Live(NOTE, Counted(doc, now)) <==> Live(NOTE, doc)
  {
    assert Lookup(Counted(doc, now), "deleted_at") == Lookup(doc, "deleted_at");
  }

  // ----- an edit of a recycled snippet -----

  const RETITLED: Doc := SnippetDoc("s", "renamed", Null, 2, 300)
  const BINNED: Wire := Wire(DrawnId("A", 1), NOTE, 2, Tombstone(250), 250, "A")
  const BINNED_EDIT: Wire := Wire(DrawnId("A", 2), NOTE, 3, Content(Binned(RETITLED, 250)), 300, "A")

  function BinnedA(): Client {
    Client(map[NOTE := Binned(LOOSE, 250)], [Queued(SNIPPET_MADE, Pending, None)] + [Queued(BINNED, Pending, None)],
           map[], [], 0, 2)
  }

  function RetitledA(): Client {
    Client(map[NOTE := Binned(RETITLED, 250)], BinnedA().outbox + [Queued(BINNED_EDIT, Pending, None)], map[], [], 0, 3)
  }

  lemma NoteVersions()
    ensures MaxVersion([Queued(SNIPPET_MADE, Pending, None)], NOTE) == 1 && MaxVersion(BinnedA().outbox, NOTE) == 2
  {
    hide SnippetDoc, DrawnId, MaxVersion;
    NothingYet(NOTE);
    MaxAppend([], Queued(SNIPPET_MADE, Pending, None), NOTE);
    assert [] + [Queued(SNIPPET_MADE, Pending, None)] == [Queued(SNIPPET_MADE, Pending, None)];
    MaxAppend([Queued(SNIPPET_MADE, Pending, None)], Queued(BINNED, Pending, None), NOTE);
  }

  lemma SnippetBinned() returns (moves: seq<Move>)
    ensures Tells(moves, [], BinnedA(), EmptyClient())
  {
    hide Tells, SnippetDoc, DrawnId, MaxVersion;
    moves := SnippetMade();
    NoteVersions();
    moves := Writing(moves, [], SnippetA(), EmptyClient(), true, NOTE, Some(Binned(LOOSE, 250)), Some(250), 250);
    assert AfterWrite(SnippetA(), NOTE, Some(Binned(LOOSE, 250)), BINNED) == BinnedA();
  }

  /** Its deletion was announced, and then an edit of the row that is still in the recycle bin: the queue
      ends with a change of a snippet the device does not show. */
  lemma RecycledEditAnnounced() returns (moves: seq<Move>)
    ensures Tells(moves, [], RetitledA(), EmptyClient())
    ensures moves != [] && moves[|moves| - 1] == Local("A", Write(NOTE, Some(Binned(RETITLED, 250)), None, 300))
    ensures View(RetitledA(), NOTE) == None && Basis(RetitledA(), NOTE) == Some(Binned(RETITLED, 250))
  {
    hide Tells, SnippetDoc, DrawnId, MaxVersion, Newest, CompleteSnippet;
    moves := SnippetBinned();
    NoteVersions();
    SnippetFacts("s", "renamed", Null, 2, 300);
    BinnedComplete("s", RETITLED, 250);
    moves := Writing(moves, [], BinnedA(), EmptyClient(), true, NOTE, Some(Binned(RETITLED, 250)), None, 300);
    assert AfterWrite(BinnedA(), NOTE, Some(Binned(RETITLED, 250)), BINNED_EDIT) == RetitledA();
    NewestIsAppended(BinnedA().outbox, Queued(BINNED_EDIT, Pending, None), NOTE, QUEUED);
  }
}
