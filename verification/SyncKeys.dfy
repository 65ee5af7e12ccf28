/** A record that arrives before its key: a run from an empty system. */
module SyncKeys {
  import opened Wrappers
  import opened Merge
  import opened SyncModel
  import opened SyncBasis
  import opened SyncRuns
  import opened SyncTrace
  import opened SyncSystem
  import opened SyncConverge
  import opened SyncMoves
  import opened SyncSamples
  import opened SyncStory
  import opened SyncStale
  import Server = SyncServer

  /** A device without the generation of the sync key that sealed what arrives. */
  const LOCKED: Access := Access(true, w => UnknownKey, w => false)

  /** B has pulled A's snippet and keeps it for later. */
  function WaitingB(): Client {
    Client(map[], [], map[], [Pulled(CREATED, 1)], 1, 0)
  }

  /** The first record a device has no key for. */
  lemma ParksOne(env: Env, c: Client, p: Pulled, now: int)
    requires p.wire.device != env.device && !Replay(c, p.wire) && env.access.verdict(p.wire) == UnknownKey
    requires c.parked == [] && Storable(p.wire) && p.serverSeq <= I64_MAX
    ensures ApplyOne(env, c, p, now, true) == Ok((c.(parked := [p]), Parked))
  {
    hide Land;
    assert [] + [p] == [p];
  }

  lemma NoteParked() returns (moves: seq<Move>)
    ensures Tells(moves, [CREATED], CreatedA(), WaitingB())
    ensures moves != [] && moves[|moves| - 1] == Pull("B", 1, 150, LOCKED)
  {
    hide Tells, SnippetDoc, DrawnId, CommitPage, ApplyOne;
    moves := NoteCreated();
    var none := EmptyClient();
    var locked := With(Device("B"), LOCKED);
    ParksOne(locked, none, Pulled(CREATED, 1), 150);
    assert none.(parked := [Pulled(CREATED, 1)]) == WaitingB().(watermark := 0);
    OnePage(locked, none, [CREATED], 150, WaitingB().(watermark := 0), Parked);
    moves := Pulling(moves, [CREATED], CreatedA(), none, false, 1, 150, LOCKED, WaitingB(), [Parked]);
  }

  lemma RetryAlone(env: Env, c: Client, p: Pulled, now: int)
    requires c.parked == [p]
    ensures RetryAll(env, c, c.parked, now).0 == RetryOne(env, c, p, now).0
  {
    hide RetryOne;
    assert [p][..0] == [];
  }

  /** Without the key a retry leaves it where it is. */
  lemma StillLocked()
    ensures RetryAll(With(Device("B"), LOCKED), WaitingB(), WaitingB().parked, 160).0 == WaitingB()
  {
    hide SnippetDoc, DrawnId;
    RetryAlone(With(Device("B"), LOCKED), WaitingB(), Pulled(CREATED, 1), 160);
  }

  lemma Unlocked()
    ensures RetryAll(With(Device("B"), OPEN), WaitingB(), WaitingB().parked, 170).0 == CreatedB()
  {
    hide SnippetDoc, DrawnId, RetryOne, Acceptable, Land;
    var (env, c) := (With(Device("B"), OPEN), WaitingB());
    RetryAlone(env, c, Pulled(CREATED, 1), 170);
    SnippetAccepted("kept", Null, 1, 100);
    LandsPlain(env, c, Pulled(CREATED, 1), 170);
    assert c.rows[NOTE := KEPT] == CreatedB().rows && c.shadows[NOTE := Shadow(1, Some(KEPT))] == CreatedB().shadows;
    LandsOnRetry(env, c, Pulled(CREATED, 1), 170, CreatedB(), AppliedPlain);
  }

  lemma LandsPlain(env: Env, c: Client, p: Pulled, now: int)
    requires c.outbox == [] && c.parked == [p] && p.wire.body.Content? && p.wire.key.kind != AiAction
             && p.wire.version <= I64_MAX
    requires env.applies(c.rows, p.wire.key, p.wire.body.doc)
    ensures Land(env, c, p.wire, now, true)
         == Ok((c.(rows := c.rows[p.wire.key := p.wire.body.doc],
                   shadows := c.shadows[p.wire.key := Shadow(p.wire.version, Some(p.wire.body.doc))], parked := []),
                AppliedPlain))
  {
    assert [p][..0] == [];
    assert Unpark([p], p.wire.id) == [];
  }

  lemma LandsOnRetry(env: Env, c: Client, p: Pulled, now: int, next: Client, fate: Fate)
    requires !Replay(c, p.wire) && env.access.verdict(p.wire) == Opens
             && Land(env, c, p.wire, now, true) == Ok((next, fate))
    ensures RetryOne(env, c, p, now) == (next, Retried(fate))
  {
    hide Land;
  }

  /** B pulls a snippet it has no key for: the record is parked and nothing shows, and a retry without the
      key changes nothing. Once the key is there the same retry lands it, and B's database is the one an
      open pull would have left. */
  lemma KeyArrivesLater() returns (waiting: seq<Move>, later: seq<Move>)
    ensures Tells(waiting, [CREATED], CreatedA(), WaitingB()) && Tells(later, [CREATED], CreatedA(), CreatedB())
    ensures |waiting| >= 2 && waiting[|waiting| - 2..]
            == [Pull("B", 1, 150, LOCKED), Local("B", Step.Retry(160, LOCKED))]
    ensures later == waiting + [Local("B", Step.Retry(170, OPEN))]
    ensures View(WaitingB(), NOTE) == None && View(CreatedB(), NOTE) == Some(KEPT)
  {
    hide Tells, SnippetDoc, DrawnId, RetryAll;
    var parked := NoteParked();
    StillLocked();
    Unlocked();
    SnippetAccepted("kept", Null, 1, 100);
    waiting := Retrying(parked, [CREATED], CreatedA(), WaitingB(), false, 160, LOCKED);
    later := Retrying(waiting, [CREATED], CreatedA(), WaitingB(), false, 170, OPEN);
  }
}
