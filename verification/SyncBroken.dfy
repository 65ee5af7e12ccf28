/** Runs that break the basis, each from an empty system and with complete documents. */
module SyncBroken {
  import opened Wrappers
  import opened Merge
  import opened SyncModel
  import opened SyncOutbox
  import opened SyncCascade
  import opened SyncBasis
  import opened SyncRuns
  import opened SyncTrace
  import opened SyncSystem
  import opened SyncConverge
  import opened SyncMoves
  import opened SyncSamples
  import opened SyncStory
  import Server = SyncServer

  // ----- a folder both devices know -----

  const FIRST: Doc := FolderDoc("f", "Inbox", 0, 100)

  function FolderWire(device: string, n: nat, version: nat, doc: Doc, at: int): Wire {
    Wire(DrawnId(device, n), INBOX, version, Content(doc), at, device)
  }

  const V1: Wire := FolderWire("B", 0, 1, FIRST, 100)

  /** B created the folder and pushed it, A pulled it. */
  function SharedA(): Client {
    Client(map[INBOX := FIRST], [], map[INBOX := Shadow(1, Some(FIRST))], [], 1, 0)
  }

  function SharedB(): Client {
    Client(map[INBOX := FIRST], [Sent(V1, 1)], map[INBOX := Shadow(1, Some(FIRST))], [], 0, 1)
  }

  lemma FolderCreated() returns (moves: seq<Move>)
    ensures Tells(moves, [V1], EmptyClient(), SharedB())
  {
    hide Tells, FolderDoc, Complete, DrawnId;
    Opening();
    var none := EmptyClient();
    FolderAccepted("Inbox", 0, 100);
    moves := Writing([], [], none, none, false, INBOX, Some(FIRST), None, 100);
    var b := Client(map[INBOX := FIRST], [Queued(V1, Pending, None)], map[], [], 0, 1);
    assert AfterWrite(none, INBOX, Some(FIRST), V1) == b;
    moves := Pushing(moves, [], none, b, false, [], V1);
    assert AfterPush(b, [], V1, 1) == SharedB();
    assert [] + [V1] == [V1];
  }

  lemma FolderShared() returns (moves: seq<Move>)
    ensures Tells(moves, [V1], SharedA(), SharedB())
  {
    hide Tells, FolderDoc, Acceptable, DrawnId, CommitPage;
    moves := FolderCreated();
    var none := EmptyClient();
    FolderAccepted("Inbox", 0, 100);
    PlainOne(Device("A"), none, Pulled(V1, 1), 150);
    OnePage(Device("A"), none, [V1], 150, SharedA().(watermark := 0), AppliedPlain);
    moves := Pulling(moves, [V1], none, SharedB(), true, 1, 150, OPEN, SharedA(), [AppliedPlain]);
  }

  // ----- a merge result overtaken by the next version -----

  const RENAMED: Doc := FolderDoc("f", "Work", 0, 200)
  const MOVED: Doc := FolderDoc("f", "Inbox", 1, 300)
  const MOVED_AGAIN: Doc := FolderDoc("f", "Inbox", 2, 400)

  const V2: Wire := FolderWire("B", 1, 2, MOVED, 300)
  const V3: Wire := FolderWire("B", 2, 3, MOVED_AGAIN, 400)
  const RENAME: Wire := FolderWire("A", 0, 2, RENAMED, 200)

  /** A renamed the folder and was refused, because B had moved it twice meanwhile. */
  function RefusedA(): Client {
    Client(map[INBOX := RENAMED], [Queued(RENAME, Conflicted, None)], map[INBOX := Shadow(1, Some(FIRST))], [], 1, 1)
  }

  function MovedB(): Client {
    Client(map[INBOX := MOVED], [Sent(V1, 1), Sent(V2, 2)], map[INBOX := Shadow(2, Some(MOVED))], [], 0, 2)
  }

  function MovedTwiceB(): Client {
    Client(map[INBOX := MOVED_AGAIN], [Sent(V1, 1), Sent(V2, 2), Sent(V3, 3)],
           map[INBOX := Shadow(3, Some(MOVED_AGAIN))], [], 0, 3)
  }

  lemma FolderHeads()
    ensures Server.HeadVersion([V1], INBOX) == 1 && Server.HeadVersion([V1, V2], INBOX) == 2
            && Server.HeadVersion([V1, V2, V3], INBOX) == 3
  {
    hide FolderDoc, DrawnId, Server.HeadVersion;
    NothingYet(INBOX);
    Server.HeadOfAppend([], V1, INBOX);
    Server.HeadOfAppend([V1], V2, INBOX);
    Server.HeadOfAppend([V1, V2], V3, INBOX);
    assert [] + [V1] == [V1] && [V1] + [V2] == [V1, V2] && [V1, V2] + [V3] == [V1, V2, V3];
  }

  lemma FolderVersions()
    ensures MaxVersion([Sent(V1, 1)], INBOX) == 1 && MaxVersion([Sent(V1, 1), Sent(V2, 2)], INBOX) == 2
  {
    hide FolderDoc, DrawnId, MaxVersion;
    NothingYet(INBOX);
    MaxAppend([], Sent(V1, 1), INBOX);
    MaxAppend([Sent(V1, 1)], Sent(V2, 2), INBOX);
    assert [] + [Sent(V1, 1)] == [Sent(V1, 1)] && [Sent(V1, 1)] + [Sent(V2, 2)] == [Sent(V1, 1), Sent(V2, 2)];
  }

  lemma FolderMoved() returns (moves: seq<Move>)
    ensures Tells(moves, [V1, V2], SharedA(), MovedB())
  {
    hide Tells, FolderDoc, Complete, DrawnId, MaxVersion, Server.HeadVersion;
    moves := FolderShared();
    FolderVersions();
    FolderHeads();
    FolderAccepted("Inbox", 1, 300);
    moves := Writing(moves, [V1], SharedA(), SharedB(), false, INBOX, Some(MOVED), None, 300);
    var b := SharedB().(rows := map[INBOX := MOVED], outbox := [Sent(V1, 1)] + [Queued(V2, Pending, None)], drawn := 2);
    assert AfterWrite(SharedB(), INBOX, Some(MOVED), V2) == b;
    moves := Pushing(moves, [V1], SharedA(), b, false, [Sent(V1, 1)], V2);
    assert AfterPush(b, [Sent(V1, 1)], V2, 2) == MovedB();
    assert [V1] + [V2] == [V1, V2];
  }

  lemma FolderMovedTwice() returns (moves: seq<Move>)
    ensures Tells(moves, [V1, V2, V3], SharedA(), MovedTwiceB())
  {
    hide Tells, FolderDoc, Complete, DrawnId, MaxVersion, Server.HeadVersion;
    moves := FolderMoved();
    FolderVersions();
    FolderHeads();
    FolderAccepted("Inbox", 2, 400);
    var sent := [Sent(V1, 1), Sent(V2, 2)];
    moves := Writing(moves, [V1, V2], SharedA(), MovedB(), false, INBOX, Some(MOVED_AGAIN), None, 400);
    var b := MovedB().(rows := map[INBOX := MOVED_AGAIN], outbox := sent + [Queued(V3, Pending, None)], drawn := 3);
    assert AfterWrite(MovedB(), INBOX, Some(MOVED_AGAIN), V3) == b;
    moves := Pushing(moves, [V1, V2], SharedA(), b, false, sent, V3);
    assert AfterPush(b, sent, V3, 3) == MovedTwiceB();
    assert [V1, V2] + [V3] == [V1, V2, V3];
  }

  lemma RenameRefused() returns (moves: seq<Move>)
    ensures Tells(moves, [V1, V2, V3], RefusedA(), MovedTwiceB())
  {
    hide Tells, FolderDoc, Complete, DrawnId, Server.HeadVersion;
    moves := FolderMovedTwice();
    FolderHeads();
    FolderAccepted("Work", 0, 200);
    moves := Writing(moves, [V1, V2, V3], SharedA(), MovedTwiceB(), true, INBOX, Some(RENAMED), None, 200);
    var a := SharedA().(rows := map[INBOX := RENAMED], outbox := [] + [Queued(RENAME, Pending, None)], drawn := 1);
    assert AfterWrite(SharedA(), INBOX, Some(RENAMED), RENAME) == a;
    moves := Failing(moves, [V1, V2, V3], a, MovedTwiceB(), true, [], RENAME);
    assert AfterRefusal(a, [], RENAME) == RefusedA();
  }

  /** The name A gave and the place B gave. */
  const MERGED: Doc := FolderDoc("f", "Work", 1, 300)
  const REQUEUED: Wire := FolderWire("A", 1, 3, MERGED, 500)

  lemma FoldersMerge()
    ensures Merged(false, Some(FIRST), Side(RENAMED, 200, "A"), Side(MOVED, 300, "B")) == Ok(Outcome(MERGED, false))
  {
    assert RENAMED.Keys + MOVED.Keys == MERGED.Keys;
    assert Merged(false, Some(FIRST), Side(RENAMED, 200, "A"), Side(MOVED, 300, "B")).value.doc == MERGED;
  }

  /** A's database once the first record is merged, and once the second is applied over it. */
  function MergedA(): Client {
    Client(map[INBOX := MERGED], [Queued(REQUEUED, Pending, None)], map[INBOX := Shadow(2, Some(MOVED))], [], 1, 2)
  }

  function OvertakenA(): Client {
    MergedA().(rows := map[INBOX := MOVED_AGAIN], shadows := map[INBOX := Shadow(3, Some(MOVED_AGAIN))])
  }

  lemma FirstIsMerged()
    ensures ApplyOne(Device("A"), RefusedA(), Pulled(V2, 2), 500, true) == Ok((MergedA(), MergedIn(None)))
  {
    hide FolderDoc, DrawnId, Merged, Newest, MaxVersion, Acceptable;
    FoldersMerge();
    FolderAccepted("Work", 1, 300);
    NewestAlone(Queued(RENAME, Conflicted, None), INBOX, {Conflicted});
    ClearedAlone(Queued(RENAME, Conflicted, None));
    NothingYet(INBOX);
    var applied := RefusedA().(rows := map[INBOX := MERGED]);
    assert applied.rows == RefusedA().rows[INBOX := MERGED];
    var settled := Client(map[INBOX := MERGED], [], map[INBOX := Shadow(2, Some(MOVED))], [], 1, 1);
    assert applied.shadows[INBOX := Shadow(2, Some(MOVED))] == settled.shadows;
    assert Settle(applied, V2) == Ok(settled);
    assert settled.outbox + [Queued(REQUEUED, Pending, None)] == MergedA().outbox;
    assert Enqueue(Device("A"), settled, INBOX, None, 500) == Ok((MergedA(), true));
    assert MergeEdits(Device("A"), RefusedA(), V2, MOVED, RENAMED, 200, 500, true) == Ok((MergedA(), None));
  }

  lemma SecondIsPlain()
    ensures ApplyOne(Device("A"), MergedA(), Pulled(V3, 3), 500, true) == Ok((OvertakenA(), AppliedPlain))
  {
    hide FolderDoc, DrawnId, Acceptable;
    FolderAccepted("Inbox", 2, 400);
    NewestAlone(Queued(REQUEUED, Pending, None), INBOX, {Conflicted});
    PlainOne(Device("A"), MergedA(), Pulled(V3, 3), 500);
    assert MergedA().rows[INBOX := MOVED_AGAIN] == OvertakenA().rows;
    assert MergedA().shadows[INBOX := Shadow(3, Some(MOVED_AGAIN))] == OvertakenA().shadows;
  }

  /** Both remote versions arrive in one page. The first merges with the rename, the second is applied
      over the merge result: the new name is gone from the row while its record waits in the queue. */
  lemma OvertakenMerge() returns (moves: seq<Move>)
    ensures Tells(moves, [V1, V2, V3], OvertakenA().(watermark := 3), MovedTwiceB())
    ensures moves != [] && moves[|moves| - 1] == Pull("A", 2, 500, OPEN)
    ensures BasisAt(RefusedA(), INBOX)
    ensures CommitPage(Device("A"), RefusedA(), 1, [Pulled(V2, 2), Pulled(V3, 3)], 500)
         == Ok((OvertakenA().(watermark := 3), 3, [MergedIn(None), AppliedPlain]))
    ensures View(OvertakenA(), INBOX) == Some(MOVED_AGAIN) && Basis(OvertakenA(), INBOX) == Some(MERGED)
    ensures Lookup(MOVED_AGAIN, "name") == Str("Inbox") && Lookup(MERGED, "name") == Str("Work")
  {
    hide Tells, FolderDoc, DrawnId, ApplyOne, CommitPage, Newest;
    moves := RenameRefused();
    FirstIsMerged();
    SecondIsPlain();
    NewestAlone(Queued(RENAME, Conflicted, None), INBOX, QUEUED);
    NewestAlone(Queued(REQUEUED, Pending, None), INBOX, QUEUED);
    TwoPage(Device("A"), RefusedA(), [V1, V2, V3], 500, MergedA(), MergedIn(None), OvertakenA(), AppliedPlain);
    assert Slice([V1, V2, V3], 1, 2) == [Pulled(V2, 2), Pulled(V3, 3)];
    moves := Pulling(moves, [V1, V2, V3], RefusedA(), MovedTwiceB(), true, 2, 500, OPEN, OvertakenA().(watermark := 3),
                     [MergedIn(None), AppliedPlain]);
  }

  // ----- merges on their own -----

  const CLEARED: Doc := FolderDoc("c", "Drafts", 0, 20)
  const FILED: Doc := FolderDoc("c", "Drafts", 0, 10)["parent_id" := Str("p")]

  /** Without a base: the later device took the folder out of its parent, the merge puts it back. */
  lemma NoBaseRevivesClearedField()
    ensures Complete(Key(Folder, "c"), CLEARED) && Complete(Key(Folder, "c"), FILED)
    ensures var (local, remote) := (Side(CLEARED, 20, "A"), Side(FILED, 10, "B"));
            && LocalWins(local, remote) && Lookup(CLEARED, "parent_id") == Null
            && Merged(false, None, local, remote).Ok?
            && Lookup(Merged(false, None, local, remote).value.doc, "parent_id") == Str("p")
  {
    hide Merged;
    var (local, remote) := (Side(CLEARED, 20, "A"), Side(FILED, 10, "B"));
    MergeOfOthers(None, local, remote);
    MergedPlain(false, None, local, remote, "parent_id");
  }

  lemma MergeOfOthers(base: Option<Doc>, local: Side, remote: Side)
    ensures Merged(false, base, local, remote).Ok?
  {
  }

  /** Two renames under one clock by one device: each direction keeps the other side's name. */
  lemma SameDeviceAsymmetric()
    ensures var (work, home) := (Side(FolderDoc("f", "Work", 0, 200), 200, "A"),
                                 Side(FolderDoc("f", "Home", 0, 200), 200, "A"));
            && Merged(false, Some(FIRST), work, home).Ok? && Merged(false, Some(FIRST), home, work).Ok?
            && Lookup(Merged(false, Some(FIRST), work, home).value.doc, "name") == Str("Home")
            && Lookup(Merged(false, Some(FIRST), home, work).value.doc, "name") == Str("Work")
  {
    hide Merged, FolderDoc;
    var (work, home) := (Side(FolderDoc("f", "Work", 0, 200), 200, "A"),
                         Side(FolderDoc("f", "Home", 0, 200), 200, "A"));
    MergeOfOthers(Some(FIRST), work, home);
    MergeOfOthers(Some(FIRST), home, work);
    MergedPlain(false, Some(FIRST), work, home, "name");
    MergedPlain(false, Some(FIRST), home, work, "name");
    OneWinner(work, home);
  }
}
