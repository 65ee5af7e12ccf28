/** A deletion that lost, stayed in the outbox and came back: a run from an empty system. */
module SyncStale {
  import opened Wrappers
  import opened Merge
  import opened SyncModel
  import opened SyncOutbox
  import opened SyncCascade
  import opened SyncBasis
  import opened SyncRuns
  import opened SyncTrace
  import opened SyncSystem
  import opened SyncConverge
  import opened SyncMoves
  import opened SyncSamples
  import opened SyncStory
  import Server = SyncServer

  const KEPT: Doc := SnippetDoc("s", "kept", Null, 1, 100)
  const EDITED: Doc := SnippetDoc("s", "edited", Null, 2, 300)
  const LAST: Doc := SnippetDoc("s", "last", Null, 2, 600)

  function NoteWire(device: string, n: nat, version: nat, body: Body, at: int): Wire {
    Wire(DrawnId(device, n), NOTE, version, body, at, device)
  }

  const CREATED: Wire := NoteWire("A", 0, 1, Content(KEPT), 100)
  const DELETED: Wire := NoteWire("A", 1, 2, Tombstone(200), 200)
  const EDIT: Wire := NoteWire("B", 0, 2, Content(EDITED), 300)
  const RESTORED: Wire := NoteWire("A", 2, 3, Content(KEPT), 400)
  const FINAL: Wire := NoteWire("B", 1, 4, Content(LAST), 600)
  const REDELETED: Wire := NoteWire("A", 3, 5, Tombstone(200), 700)

  lemma NoteHeads()
    ensures Server.HeadVersion([CREATED], NOTE) == 1 && Server.HeadVersion([CREATED, EDIT], NOTE) == 2
    ensures Server.HeadVersion([CREATED, EDIT, RESTORED], NOTE) == 3
  {
    hide SnippetDoc, DrawnId, Server.HeadVersion;
    NothingYet(NOTE);
    Server.HeadOfAppend([], CREATED, NOTE);
    Server.HeadOfAppend([CREATED], EDIT, NOTE);
    Server.HeadOfAppend([CREATED, EDIT], RESTORED, NOTE);
    assert [] + [CREATED] == [CREATED] && [CREATED] + [EDIT] == [CREATED, EDIT]
           && [CREATED, EDIT] + [RESTORED] == [CREATED, EDIT, RESTORED];
  }

  /** A's queue with the parked deletion, and its versions. */
  const PARKED: seq<Queued> := [Sent(CREATED, 1)] + [Queued(DELETED, Conflicted, None)]

  lemma NoteVersions()
    ensures MaxVersion([Sent(CREATED, 1)], NOTE) == 1 && MaxVersion(PARKED, NOTE) == 2
    ensures MaxVersion([Sent(EDIT, 2)], NOTE) == 2
  {
    hide SnippetDoc, DrawnId, MaxVersion;
    NothingYet(NOTE);
    MaxAppend([], Sent(CREATED, 1), NOTE);
    MaxAppend([Sent(CREATED, 1)], Queued(DELETED, Conflicted, None), NOTE);
    MaxAppend([], Sent(EDIT, 2), NOTE);
    assert [] + [Sent(CREATED, 1)] == [Sent(CREATED, 1)] && [] + [Sent(EDIT, 2)] == [Sent(EDIT, 2)];
  }

  // ----- the run -----

  function CreatedA(): Client {
    Client(map[NOTE := KEPT], [Sent(CREATED, 1)], map[NOTE := Shadow(1, Some(KEPT))], [], 0, 1)
  }

  function CreatedB(): Client {
    Client(map[NOTE := KEPT], [], map[NOTE := Shadow(1, Some(KEPT))], [], 1, 0)
  }

  function EditedB(): Client {
    Client(map[NOTE := EDITED], [Sent(EDIT, 2)], map[NOTE := Shadow(2, Some(EDITED))], [], 1, 1)
  }

  /** A recycled the snippet, and its deletion was refused because B had edited meanwhile. */
  function DeletedA(): Client {
    CreatedA().(rows := map[NOTE := Binned(KEPT, 200)], outbox := PARKED, drawn := 2)
  }

  /** A restored it before it ever pulled that edit. */
  function RestoredA(): Client {
    DeletedA().(rows := map[NOTE := KEPT], outbox := PARKED + [Queued(RESTORED, Pending, None)], drawn := 3)
  }

  /** The server took the restored version. */
  function AcceptedA(): Client {
    RestoredA().(outbox := PARKED + [Sent(RESTORED, 3)], shadows := map[NOTE := Shadow(3, Some(KEPT))])
  }

  function ReceivedB(): Client {
    EditedB().(rows := map[NOTE := KEPT], shadows := map[NOTE := Shadow(3, Some(KEPT))], watermark := 3)
  }

  function LastB(): Client {
    Client(map[NOTE := LAST], [Sent(EDIT, 2)] + [Sent(FINAL, 4)], map[NOTE := Shadow(4, Some(LAST))], [], 3, 2)
  }

  function RedeletedA(): Client {
    Client(map[NOTE := Binned(LAST, 200)],
           [Sent(CREATED, 1)] + [Sent(RESTORED, 3)] + [Queued(REDELETED, Pending, None)],
           map[NOTE := Shadow(4, Some(LAST))], [], 4, 4)
  }

  lemma NoteCreated() returns (moves: seq<Move>)
    ensures Tells(moves, [CREATED], CreatedA(), EmptyClient())
  {
    hide Tells, SnippetDoc, Complete, DrawnId;
    Opening();
    var none := EmptyClient();
    SnippetAccepted("kept", Null, 1, 100);
    moves := Writing([], [], none, none, true, NOTE, Some(KEPT), None, 100);
    var a := Client(map[NOTE := KEPT], [Queued(CREATED, Pending, None)], map[], [], 0, 1);
    assert AfterWrite(none, NOTE, Some(KEPT), CREATED) == a;
    moves := Pushing(moves, [], a, none, true, [], CREATED);
    assert AfterPush(a, [], CREATED, 1) == CreatedA();
    assert [] + [CREATED] == [CREATED];
  }

  lemma NoteShared() returns (moves: seq<Move>)
    ensures Tells(moves, [CREATED], CreatedA(), CreatedB())
  {
    hide Tells, SnippetDoc, Acceptable, DrawnId, CommitPage;
    moves := NoteCreated();
    var none := EmptyClient();
    SnippetAccepted("kept", Null, 1, 100);
    PlainOne(Device("B"), none, Pulled(CREATED, 1), 150);
    OnePage(Device("B"), none, [CREATED], 150, CreatedB().(watermark := 0), AppliedPlain);
    moves := Pulling(moves, [CREATED], CreatedA(), none, false, 1, 150, OPEN, CreatedB(), [AppliedPlain]);
  }

  lemma NoteEdited() returns (moves: seq<Move>)
    ensures Tells(moves, [CREATED, EDIT], CreatedA(), EditedB())
  {
    hide Tells, SnippetDoc, Complete, DrawnId, Server.HeadVersion;
    moves := NoteShared();
    NoteHeads();
    SnippetAccepted("edited", Null, 2, 300);
    moves := Writing(moves, [CREATED], CreatedA(), CreatedB(), false, NOTE, Some(EDITED), None, 300);
    var b := CreatedB().(rows := map[NOTE := EDITED], outbox := [] + [Queued(EDIT, Pending, None)], drawn := 1);
    assert AfterWrite(CreatedB(), NOTE, Some(EDITED), EDIT) == b;
    moves := Pushing(moves, [CREATED], CreatedA(), b, false, [], EDIT);
    assert AfterPush(b, [], EDIT, 2) == EditedB();
    assert [CREATED] + [EDIT] == [CREATED, EDIT];
  }

  lemma DeletionRefused() returns (moves: seq<Move>)
    ensures Tells(moves, [CREATED, EDIT], DeletedA(), EditedB())
  {
    hide Tells, SnippetDoc, DrawnId, Server.HeadVersion, MaxVersion;
    moves := NoteEdited();
    NoteHeads();
    NoteVersions();
    moves := Writing(moves, [CREATED, EDIT], CreatedA(), EditedB(), true, NOTE, Some(Binned(KEPT, 200)), Some(200),
                     200);
    var a := DeletedA().(outbox := [Sent(CREATED, 1)] + [Queued(DELETED, Pending, None)]);
    assert AfterWrite(CreatedA(), NOTE, Some(Binned(KEPT, 200)), DELETED) == a;
    moves := Failing(moves, [CREATED, EDIT], a, EditedB(), true, [Sent(CREATED, 1)], DELETED);
    assert AfterRefusal(a, [Sent(CREATED, 1)], DELETED) == DeletedA();
  }

  lemma NoteRestored() returns (moves: seq<Move>)
    ensures Tells(moves, [CREATED, EDIT], RestoredA(), EditedB())
  {
    hide Tells, SnippetDoc, Complete, DrawnId, MaxVersion;
    moves := DeletionRefused();
    NoteVersions();
    SnippetAccepted("kept", Null, 1, 100);
    moves := Writing(moves, [CREATED, EDIT], DeletedA(), EditedB(), true, NOTE, Some(KEPT), None, 400);
    assert AfterWrite(DeletedA(), NOTE, Some(KEPT), RESTORED) == RestoredA();
  }

  lemma RestoreAccepted() returns (moves: seq<Move>)
    ensures Tells(moves, [CREATED, EDIT, RESTORED], AcceptedA(), EditedB())
    ensures moves != [] && moves[|moves| - 1] == Answer("A")
  {
    hide Tells, SnippetDoc, DrawnId, Server.HeadVersion;
    moves := NoteRestored();
    NoteHeads();
    moves := Pushing(moves, [CREATED, EDIT], RestoredA(), EditedB(), true, PARKED, RESTORED);
    assert AfterPush(RestoredA(), PARKED, RESTORED, 3) == AcceptedA();
    assert [CREATED, EDIT] + [RESTORED] == [CREATED, EDIT, RESTORED];
  }

  /** The older deletion stays behind as the newest unsent record of a snippet that is on screen. */
  lemma StaleAfterAck() returns (moves: seq<Move>)
    ensures Tells(moves, [CREATED, EDIT, RESTORED], AcceptedA(), EditedB())
    ensures moves != [] && moves[|moves| - 1] == Answer("A")
    ensures BasisAt(RestoredA(), NOTE)
    ensures View(AcceptedA(), NOTE) == Some(KEPT) && Basis(AcceptedA(), NOTE) == None
  {
    hide Tells, SnippetDoc, DrawnId, MaxVersion, Newest;
    moves := RestoreAccepted();
    NoteVersions();
    SnippetAccepted("kept", Null, 1, 100);
    NewestIsAppended([Sent(CREATED, 1)], Queued(DELETED, Conflicted, None), NOTE, QUEUED);
    NewestIsAppended(PARKED, Queued(RESTORED, Pending, None), NOTE, QUEUED);
    NewestOfAppended(PARKED, Sent(RESTORED, 3), NOTE, QUEUED);
  }

  const LOG3: seq<Wire> := [CREATED, EDIT, RESTORED]
  const LOG4: seq<Wire> := [CREATED, EDIT, RESTORED, FINAL]

  /** A pulls its own records and the edit it never saw, which is older than what it sent. */
  lemma EditSkipped() returns (moves: seq<Move>)
    ensures Tells(moves, LOG3, AcceptedA().(watermark := 3), EditedB())
  {
    hide Tells, SnippetDoc, DrawnId, CommitPage;
    moves := RestoreAccepted();
    var fates := SkippedPage(Device("A"), AcceptedA(), LOG3, 3, 450);
    moves := Pulling(moves, LOG3, AcceptedA(), EditedB(), true, 3, 450, OPEN, AcceptedA().(watermark := 3), fates);
  }

  /** B pulls its own edit and then the restored version. */
  lemma RestoreReceived() returns (moves: seq<Move>)
    ensures Tells(moves, LOG3, AcceptedA().(watermark := 3), ReceivedB())
  {
    hide Tells, SnippetDoc, Acceptable, DrawnId, CommitPage, Newest;
    moves := EditSkipped();
    var a := AcceptedA().(watermark := 3);
    var fates := SkippedPage(Device("B"), EditedB(), LOG3, 1, 500);
    moves := Pulling(moves, LOG3, a, EditedB(), false, 1, 500, OPEN, EditedB().(watermark := 2), fates);
    ApplyRestored();
    OnePage(Device("B"), EditedB().(watermark := 2), LOG3, 500, ReceivedB().(watermark := 2), AppliedPlain);
    moves := Pulling(moves, LOG3, a, EditedB().(watermark := 2), false, 1, 500, OPEN, ReceivedB(), [AppliedPlain]);
  }

  lemma ApplyRestored()
    ensures ApplyOne(Device("B"), EditedB().(watermark := 2), Pulled(RESTORED, 3), 500, true)
         == Ok((ReceivedB().(watermark := 2), AppliedPlain))
  {
    hide SnippetDoc, Acceptable, DrawnId, ApplyOne, Newest;
    SnippetAccepted("kept", Null, 1, 100);
    NewestAlone(Sent(EDIT, 2), NOTE, {Conflicted});
    PlainOne(Device("B"), EditedB().(watermark := 2), Pulled(RESTORED, 3), 500);
    assert EditedB().rows[NOTE := KEPT] == ReceivedB().rows;
    assert EditedB().shadows[NOTE := Shadow(3, Some(KEPT))] == ReceivedB().shadows;
  }

  function EditingB(): Client {
    ReceivedB().(rows := map[NOTE := LAST], outbox := [Sent(EDIT, 2)] + [Queued(FINAL, Pending, None)], drawn := 2)
  }

  lemma EditingAgain() returns (moves: seq<Move>)
    ensures Tells(moves, LOG3, AcceptedA().(watermark := 3), EditingB())
  {
    hide Tells, SnippetDoc, Complete, DrawnId, MaxVersion;
    moves := RestoreReceived();
    NoteVersions();
    SnippetAccepted("last", Null, 2, 600);
    moves := Writing(moves, LOG3, AcceptedA().(watermark := 3), ReceivedB(), false, NOTE, Some(LAST), None, 600);
    assert AfterWrite(ReceivedB(), NOTE, Some(LAST), FINAL) == EditingB();
  }

  lemma EditedAgain() returns (moves: seq<Move>)
    ensures Tells(moves, LOG4, AcceptedA().(watermark := 3), LastB())
  {
    hide Tells, SnippetDoc, DrawnId, Server.HeadVersion;
    moves := EditingAgain();
    NoteHeads();
    moves := Pushing(moves, LOG3, AcceptedA().(watermark := 3), EditingB(), false, [Sent(EDIT, 2)], FINAL);
    assert AfterPush(EditingB(), [Sent(EDIT, 2)], FINAL, 4) == LastB();
    assert LOG3 + [FINAL] == LOG4;
  }

  // ----- the deletion comes back -----

  /** What is left of A's queue once the conflict is dropped. */
  const SETTLED: seq<Queued> := [Sent(CREATED, 1)] + [Sent(RESTORED, 3)]

  lemma ConflictDropped()
    ensures ClearConflicts(PARKED + [Sent(RESTORED, 3)], NOTE) == SETTLED
    ensures MaxVersion(SETTLED, NOTE) == 3
    ensures Newest(PARKED + [Sent(RESTORED, 3)], NOTE, {Conflicted}) == Some(Queued(DELETED, Conflicted, None))
  {
    hide SnippetDoc, DrawnId, MaxVersion, Newest;
    NoteVersions();
    NewestIsAppended([Sent(CREATED, 1)], Queued(DELETED, Conflicted, None), NOTE, {Conflicted});
    NewestOfAppended(PARKED, Sent(RESTORED, 3), NOTE, {Conflicted});
    ClearedAppended(PARKED, Sent(RESTORED, 3), NOTE);
    ClearedAppended([Sent(CREATED, 1)], Queued(DELETED, Conflicted, None), NOTE);
    ClearedAppended([], Sent(CREATED, 1), NOTE);
    assert [] + [Sent(CREATED, 1)] == [Sent(CREATED, 1)];
    MaxAppend([Sent(CREATED, 1)], Sent(RESTORED, 3), NOTE);
  }

  /** A's database with the edit in the recycle bin and the shadow on it. */
  function BinnedA(): Client {
    AcceptedA().(rows := map[NOTE := Binned(LAST, 200)], outbox := SETTLED,
                 shadows := map[NOTE := Shadow(4, Some(LAST))], watermark := 3)
  }

  lemma DeletionSealed()
    ensures Enqueue(Device("A"), BinnedA(), NOTE, Some(200), 700) == Ok((RedeletedA().(watermark := 3), true))
  {
    hide SnippetDoc, Enqueue, MaxVersion, DrawnId;
    ConflictDropped();
    OtherId("A", 3, 0);
    OtherId("A", 3, 2);
    SealsTombstone(Device("A"), BinnedA(), NOTE, 200, 700, REDELETED);
  }

  lemma DeletionSettled()
    ensures var c := AcceptedA().(watermark := 3);
            BinnedA() == c.(rows := c.rows[NOTE := Binned(LAST, 200)], outbox := ClearConflicts(c.outbox, NOTE),
                            shadows := c.shadows[NOTE := Shadow(4, Some(LAST))])
  {
    hide SnippetDoc, DrawnId, ClearConflicts, MaxVersion, Newest, Binned;
    ConflictDropped();
    assert AcceptedA().rows[NOTE := Binned(LAST, 200)] == BinnedA().rows;
    assert AcceptedA().shadows[NOTE := Shadow(4, Some(LAST))] == BinnedA().shadows;
  }

  lemma DeletionKept()
    ensures KeepDeletion(Device("A"), AcceptedA().(watermark := 3), FINAL, LAST, 200, 700)
            == Ok(RedeletedA().(watermark := 3))
  {
    hide SnippetDoc, Acceptable, DrawnId, ClearConflicts, Enqueue, KeepDeletion, BinnedA, RedeletedA, AcceptedA, Binned;
    SnippetAccepted("last", Null, 2, 600);
    DeletionSealed();
    DeletionSettled();
    KeepsDeletion(Device("A"), AcceptedA().(watermark := 3), FINAL, LAST, 200, 700, BinnedA(),
                  RedeletedA().(watermark := 3));
  }

  lemma FinalIsMerged()
    ensures ApplyOne(Device("A"), AcceptedA().(watermark := 3), Pulled(FINAL, 4), 700, true)
         == Ok((RedeletedA().(watermark := 3), MergedIn(None)))
  {
    hide SnippetDoc, DrawnId, KeepDeletion, Newest, MergeConflicted, ApplyOne;
    ConflictDropped();
    DeletionKept();
    var c := AcceptedA().(watermark := 3);
    DeletionMerges(Device("A"), c, FINAL, Queued(DELETED, Conflicted, None), 700, RedeletedA().(watermark := 3));
    MergedOne(Device("A"), c, Pulled(FINAL, 4), 700, Queued(DELETED, Conflicted, None), RedeletedA().(watermark := 3));
  }

  lemma FinalPulled() returns (moves: seq<Move>)
    ensures Tells(moves, LOG4, RedeletedA(), LastB())
    ensures moves != [] && moves[|moves| - 1] == Pull("A", 1, 700, OPEN)
  {
    hide Tells, SnippetDoc, DrawnId, ApplyOne, CommitPage, LastB, Ordered;
    moves := EditedAgain();
    TellsOrdered(moves, LOG4, AcceptedA().(watermark := 3), LastB());
    FinalIsMerged();
    OnePage(Device("A"), AcceptedA().(watermark := 3), LOG4, 700, RedeletedA().(watermark := 3), MergedIn(None));
    moves := Pulling(moves, LOG4, AcceptedA().(watermark := 3), LastB(), true, 1, 700, OPEN, RedeletedA(),
                     [MergedIn(None)]);
  }

  /** The next remote edit is resolved against that deletion: the snippet lands in the recycle bin
      although no device's latest state had deleted it, and the deletion is on its way to the others. */
  lemma StaleDeletionWins() returns (moves: seq<Move>)
    ensures Tells(moves, LOG4, RedeletedA(), LastB())
    ensures moves != [] && moves[|moves| - 1] == Pull("A", 1, 700, OPEN)
    ensures View(AcceptedA(), NOTE) == Some(KEPT) && View(LastB(), NOTE) == Some(LAST)
            && View(RedeletedA(), NOTE) == None
    ensures Holds(RedeletedA().outbox, NOTE, Pending)
  {
    hide Tells, SnippetDoc, DrawnId;
    moves := FinalPulled();
    SnippetAccepted("kept", Null, 1, 100);
    SnippetAccepted("last", Null, 2, 600);
    assert RedeletedA().outbox[2] in RedeletedA().outbox;
  }
}
