/** Watermark, shadow and parking safety over any sequence of pulled pages. */
module SyncPull {
  import opened Wrappers
  import opened Merge
  import opened SyncModel
  import opened SyncBasis
  import opened SyncRuns

  // ----- nothing moves backwards -----

  /** Every shadow base is kept or replaced by a newer version. */
  ghost predicate ShadowsAdvance(c: Client, next: Client) {
    forall k :: k in c.shadows ==> k in next.shadows && c.shadows[k].version <= next.shadows[k].version
  }

  lemma {:induction false} PageAdvances(env: Env, c: Client, cursor: nat, page: seq<Pulled>, now: int,
                                        r: (Client, nat, seq<Fate>))
    requires Ordered(c.outbox) && ApplyPage(env, c, cursor, page, now) == Ok(r)
    ensures Ordered(r.0.outbox) && ShadowsAdvance(c, r.0) && r.0.watermark == c.watermark
    ensures if page == [] then r.1 == cursor else cursor < r.1 && r.1 == page[|page| - 1].serverSeq
  {
    hide MaxVersion, Newest, Ordered, ApplyOne;
    if page != [] {
      var before := ApplyPage(env, c, cursor, page[..|page| - 1], now).value;
      PageAdvances(env, c, cursor, page[..|page| - 1], now, before);
      var p := page[|page| - 1];
      var after := ApplyOne(env, before.0, p, now, true).value;
      ApplyOneKeepsBasis(env, before.0, p, now, true, after.0, after.1);
    }
  }

  /** What a pull leaves of one page: its whole effect with its watermark, or no trace. */
  function PullPage(env: Env, c: Client, watermark: nat, page: seq<Pulled>, now: int): Client {
    match CommitPage(env, c, watermark, page, now)
    case Ok(r) => r.0
    case Err(_) => c
  }

  /** One page with the access it is opened with. */
  datatype Opening = Opening(page: seq<Pulled>, now: int, access: Access)

  /** Pages applied one after the other, each from the persisted watermark. */
  function PullPages(env: Env, c: Client, pages: seq<Opening>): Client {
    if pages == [] then c
    else
      var before := PullPages(env, c, pages[..|pages| - 1]);
      var last := pages[|pages| - 1];
      PullPage(With(env, last.access), before, before.watermark, last.page, last.now)
  }

  /** Over any sequence of pages, valid or not and with whatever keys, neither the watermark nor a shadow
      version falls. */
  lemma {:induction false} PullsAdvance(env: Env, c: Client, pages: seq<Opening>)
    requires Ordered(c.outbox)
    ensures var next := PullPages(env, c, pages);
            Ordered(next.outbox) && c.watermark <= next.watermark && ShadowsAdvance(c, next)
  {
    hide MaxVersion, Newest, Ordered, ApplyPage, With;
    if pages != [] {
      PullsAdvance(env, c, pages[..|pages| - 1]);
      var before := PullPages(env, c, pages[..|pages| - 1]);
      var last := pages[|pages| - 1];
      match ApplyPage(With(env, last.access), before, before.watermark, last.page, last.now)
      case Ok(r) =>
        PageAdvances(With(env, last.access), before, before.watermark, last.page, last.now, r);
      case Err(_) =>
    }
  }

  /** Strictly increasing sequence numbers, all beyond the cursor. */
  ghost predicate Increasing(cursor: nat, page: seq<Pulled>) {
    && (forall i :: 0 <= i < |page| ==> cursor < page[i].serverSeq)
    && (forall i, j :: 0 <= i < j < |page| ==> page[i].serverSeq < page[j].serverSeq)
  }

  /** A page with a sequence number out of order is refused whole. */
  lemma {:induction false} AcceptedIsIncreasing(env: Env, c: Client, cursor: nat, page: seq<Pulled>, now: int)
    requires ApplyPage(env, c, cursor, page, now).Ok?
    ensures Increasing(cursor, page)
    ensures ApplyPage(env, c, cursor, page, now).value.1 == if page == [] then cursor else page[|page| - 1].serverSeq
  {
    hide ApplyOne;
    if page != [] {
      var n := |page| - 1;
      AcceptedIsIncreasing(env, c, cursor, page[..n], now);
      forall i | 0 <= i < n ensures cursor < page[i].serverSeq < page[n].serverSeq {
        assert page[..n][i] == page[i];
        if i < n - 1 {
          assert page[..n][i].serverSeq < page[..n][n - 1].serverSeq;
        }
      }
      forall i, j | 0 <= i < j < n ensures page[i].serverSeq < page[j].serverSeq {
        assert page[..n][i].serverSeq < page[..n][j].serverSeq;
      }
    }
  }

  /** A record of this device is never parked; any other can be, if the tables take it. */
  predicate Parkable(env: Env, p: Pulled) {
    p.serverSeq <= I64_MAX && (p.wire.device == env.device || Storable(p.wire))
  }

  /** With sequence numbers in order and every foreign record fit for parking, no page is ever refused. */
  lemma {:induction false} IncreasingIsAccepted(env: Env, c: Client, cursor: nat, page: seq<Pulled>, now: int)
    requires Increasing(cursor, page)
    requires forall p :: p in page ==> Parkable(env, p)
    ensures ApplyPage(env, c, cursor, page, now).Ok?
  {
    hide Land, Replay, OpensNow, Storable;
    if page != [] {
      var n := |page| - 1;
      assert forall i :: 0 <= i < n ==> page[..n][i] == page[i];
      IncreasingIsAccepted(env, c, cursor, page[..n], now);
      AcceptedIsIncreasing(env, c, cursor, page[..n], now);
      assert page[n] in page;
    }
  }

  // ----- applying a page twice -----

  predicate Settled(fate: Fate) {
    fate.Own? || fate.Replayed? || Landed(fate)
  }

  /** Once a record was applied or skipped as old, its entity's shadow has reached its version. */
  predicate Reached(env: Env, c: Client, w: Wire) {
    w.device == env.device || Replay(c, w)
  }

  lemma ReachedStays(env: Env, c: Client, next: Client, w: Wire)
    requires Reached(env, c, w) && ShadowsAdvance(c, next)
    ensures Reached(env, next, w)
  {
  }

  /** A record that settled has reached its entity's shadow. */
  lemma StepReached(env: Env, c: Client, p: Pulled, now: int, next: Client, fate: Fate)
    requires Ordered(c.outbox) && ApplyOne(env, c, p, now, true) == Ok((next, fate)) && Settled(fate)
    ensures Reached(env, next, p.wire) && ShadowsAdvance(c, next)
  {
    hide MaxVersion, Newest, Ordered, Land;
    ApplyOneKeepsBasis(env, c, p, now, true, next, fate);
    match Land(env, c, p.wire, now, true)
    case Ok(landed) => LandKeepsBasis(env, c, p.wire, now, true, landed.0, landed.1);
    case Err(_) =>
  }

  lemma {:induction false} SettledReached(env: Env, c: Client, cursor: nat, page: seq<Pulled>, now: int,
                                          r: (Client, nat, seq<Fate>))
    requires Ordered(c.outbox) && ApplyPage(env, c, cursor, page, now) == Ok(r)
    requires forall i :: 0 <= i < |page| ==> Settled(r.2[i])
    ensures forall i :: 0 <= i < |page| ==> Reached(env, r.0, page[i].wire)
  {
    hide MaxVersion, Newest, Ordered, ApplyOne, Reached, ShadowsAdvance;
    if page != [] {
      var n := |page| - 1;
      var before := ApplyPage(env, c, cursor, page[..n], now).value;
      assert forall i :: 0 <= i < n ==> before.2[i] == r.2[i];
      SettledReached(env, c, cursor, page[..n], now, before);
      PageAdvances(env, c, cursor, page[..n], now, before);
      assert Settled(r.2[n]);
      StepReached(env, before.0, page[n], now, r.0, r.2[n]);
      forall i | 0 <= i < n ensures Reached(env, r.0, page[i].wire) {
        assert page[..n][i] == page[i];
        ReachedStays(env, before.0, r.0, page[i].wire);
      }
    }
  }

  lemma {:induction false} ReachedIsSkipped(env: Env, c: Client, cursor: nat, page: seq<Pulled>, now: int)
    requires Increasing(cursor, page)
    requires forall i :: 0 <= i < |page| ==> Reached(env, c, page[i].wire)
    ensures var r := ApplyPage(env, c, cursor, page, now);
            r.Ok? && r.value.0 == c && forall i :: 0 <= i < |page| ==> r.value.2[i] in {Own, Replayed}
    ensures ApplyPage(env, c, cursor, page, now).value.1 == if page == [] then cursor else page[|page| - 1].serverSeq
  {
    hide Land;
    if page != [] {
      var n := |page| - 1;
      assert forall i :: 0 <= i < n ==> page[..n][i] == page[i];
      ReachedIsSkipped(env, c, cursor, page[..n], now);
      assert Reached(env, c, page[n].wire);
    }
  }

  /** Re-applying a page whose records all settled changes nothing, whatever keys there are by then:
      documents, shadows, queue and parked records stay as they are and every record counts as own or as
      a replay. */
  lemma ReapplyIsIdle(env: Env, c: Client, cursor: nat, page: seq<Pulled>, now: int, r: (Client, nat, seq<Fate>),
                      later: int, access: Access)
    requires Ordered(c.outbox) && ApplyPage(env, c, cursor, page, now) == Ok(r)
    requires forall i :: 0 <= i < |page| ==> Settled(r.2[i])
    ensures var again := ApplyPage(With(env, access), r.0, cursor, page, later);
            && again.Ok? && again.value.0 == r.0
            && forall i :: 0 <= i < |page| ==> again.value.2[i] in {Own, Replayed}
  {
    hide ApplyPage;
    SettledReached(env, c, cursor, page, now, r);
    AcceptedIsIncreasing(env, c, cursor, page, now);
    assert forall i :: 0 <= i < |page| ==> Reached(With(env, access), r.0, page[i].wire);
    ReachedIsSkipped(With(env, access), r.0, cursor, page, later);
  }

  // ----- parked records -----

  /** Parked records carry distinct ids and sequence numbers, all at or below the watermark. */
  ghost predicate ParkedBelow(c: Client, watermark: nat) {
    && (forall p :: p in c.parked ==> p.serverSeq <= watermark)
    && (forall p, q :: p in c.parked && q in c.parked && (p.wire.id == q.wire.id || p.serverSeq == q.serverSeq)
                       ==> p == q)
  }

  /** A record the tables take enters the parked table from beyond the watermark, unless this very
      record id is already there; one they do not take fails. */
  lemma ParkKeepsRecord(c: Client, watermark: nat, p: Pulled)
    requires ParkedBelow(c, watermark) && watermark < p.serverSeq
    ensures Park(c, p).Ok? <==> p.serverSeq <= I64_MAX && Storable(p.wire)
    ensures Park(c, p).Ok? ==> (p in Park(c, p).value.parked <==> forall q :: q in c.parked ==> q.wire.id != p.wire.id)
    ensures Park(c, p).Ok? ==> ParkedBelow(Park(c, p).value, p.serverSeq)
  {
  }

  /** One pulled record: what was parked stays parked unless a record with its id was applied or
      merged, and that record's version is then the entity's shadow version. */
  lemma ApplyKeepsParked(env: Env, c: Client, p: Pulled, now: int, next: Client, fate: Fate, q: Pulled)
    requires Ordered(c.outbox) && ApplyOne(env, c, p, now, true) == Ok((next, fate))
    requires q in c.parked
    ensures q in next.parked || (Landed(fate) && q.wire.id == p.wire.id
                                 && ShadowVersion(next, p.wire.key) == p.wire.version)
  {
    hide MaxVersion, Newest, Ordered, ApplyOne, View, Basis, Replay;
    if Landed(fate) {
      LandedParked(env, c, p, now, next, fate);
    } else {
      Unlanded(env, c, p, now, next, fate);
      assert c.parked == next.parked[..|c.parked|];
    }
  }

  lemma LandedParked(env: Env, c: Client, p: Pulled, now: int, next: Client, fate: Fate)
    requires Ordered(c.outbox) && ApplyOne(env, c, p, now, true) == Ok((next, fate)) && Landed(fate)
    ensures next.parked == Unpark(c.parked, p.wire.id)
    ensures p.wire.key in next.shadows && next.shadows[p.wire.key].version == p.wire.version
  {
    hide MaxVersion, Newest, Ordered, Land, Unpark;
    LandKeepsBasis(env, c, p.wire, now, true, next, fate);
  }

  lemma Unlanded(env: Env, c: Client, p: Pulled, now: int, next: Client, fate: Fate)
    requires Ordered(c.outbox) && ApplyOne(env, c, p, now, true) == Ok((next, fate)) && !Landed(fate)
    ensures c.parked <= next.parked
  {
    hide MaxVersion, Newest, Ordered, Land, Unpark;
    match Land(env, c, p.wire, now, true)
    case Ok(landed) => LandKeepsBasis(env, c, p.wire, now, true, landed.0, landed.1);
    case Err(_) =>
  }

  /** One retried record: it leaves the table exactly when its entity's shadow reaches its version,
      by landing now or by a newer version before; every other parked record stays. */
  lemma RetryKeepsParked(env: Env, c: Client, p: Pulled, now: int, q: Pulled)
    requires Ordered(c.outbox) && p in c.parked && q in c.parked
    requires forall r :: r in c.parked && r.wire.id == p.wire.id ==> r == p
    ensures var (next, fate) := RetryOne(env, c, p, now);
            && (q in next.parked <==> q != p || fate.Blocked?)
            && (p !in next.parked <==> Replay(next, p.wire))
            && (fate.Blocked? ==> next == c)
            && Ordered(next.outbox) && ShadowsAdvance(c, next)
  {
    hide MaxVersion, Newest, Ordered, Land;
    match Land(env, c, p.wire, now, true)
    case Ok(landed) => LandKeepsBasis(env, c, p.wire, now, true, landed.0, landed.1);
    case Err(_) =>
  }

  // ----- the report -----

  datatype Report = Report(applied: nat, merged: nat, copies: seq<string>, parked: nat, skipped: nat, skippedOwn: nat,
                           snippetIds: seq<string>)

  const NOTHING: Report := Report(0, 0, [], 0, 0, 0, [])

  function SnippetIds(key: Key): seq<string> {
    if key.kind == Snippet then [key.id] else []
  }

  /** The counters one record moves. */
  function Book(report: Report, key: Key, fate: Fate): Report {
    match fate
    case Own => report.(skippedOwn := report.skippedOwn + 1)
    case Replayed => report.(skipped := report.skipped + 1)
    case Parked => report.(parked := report.parked + 1)
    case Rejected' => report.(skipped := report.skipped + 1)
    case Failed => report.(skipped := report.skipped + 1)
    case AppliedPlain => report.(applied := report.applied + 1, snippetIds := report.snippetIds + SnippetIds(key))
    case MergedIn(copy) =>
      report.(applied := report.applied + 1, merged := report.merged + 1,
              copies := report.copies + (if copy.Some? then [copy.value] else []),
              snippetIds := report.snippetIds + SnippetIds(key) + (if copy.Some? then [copy.value] else []))
  }

  function BookPage(report: Report, page: seq<Pulled>, fates: seq<Fate>): Report
    requires |page| == |fates|
  {
    if page == [] then report
    else Book(BookPage(report, page[..|page| - 1], fates[..|page| - 1]), page[|page| - 1].wire.key, fates[|page| - 1])
  }

  function Total(report: Report): nat {
    report.applied + report.parked + report.skipped + report.skippedOwn
  }

  /** Each record moves exactly one of the four counters, merges are among the applied and copies
      among the merged. */
  lemma {:induction false} ReportAddsUp(report: Report, page: seq<Pulled>, fates: seq<Fate>)
    requires |page| == |fates|
    ensures var after := BookPage(report, page, fates);
            && Total(after) == Total(report) + |page|
            && after.merged - report.merged <= after.applied - report.applied
            && |after.copies| - |report.copies| <= after.merged - report.merged
            && report.copies <= after.copies
  {
    if page != [] {
      ReportAddsUp(report, page[..|page| - 1], fates[..|page| - 1]);
    }
  }

  function Count(fates: seq<Fate>, of: Fate -> bool): nat {
    if fates == [] then 0 else Count(fates[..|fates| - 1], of) + if of(fates[|fates| - 1]) then 1 else 0
  }

  /** What the report says of a page, counter by counter: applied are the records that landed, merged those of
      them that met a conflict, parked those kept for later, skipped those that were replayed, rejected or
      refused, and own ones are counted apart. */
  lemma {:induction false} ReportCounts(report: Report, page: seq<Pulled>, fates: seq<Fate>)
    requires |page| == |fates|
    ensures var after := BookPage(report, page, fates);
            && after.applied == report.applied + Count(fates, (f: Fate) => f.AppliedPlain? || f.MergedIn?)
            && after.merged == report.merged + Count(fates, (f: Fate) => f.MergedIn?)
            && after.parked == report.parked + Count(fates, (f: Fate) => f.Parked?)
            && after.skipped == report.skipped + Count(fates, (f: Fate) => f.Replayed? || f.Rejected'? || f.Failed?)
            && after.skippedOwn == report.skippedOwn + Count(fates, (f: Fate) => f.Own?)
            && |after.copies| == |report.copies| + Count(fates, (f: Fate) => f.MergedIn? && f.copy.Some?)
  {
    if page != [] {
      ReportCounts(report, page[..|page| - 1], fates[..|page| - 1]);
    }
  }

  /** The snippets and copies the report names are those that landed on this page: the host indexes them again. */
  lemma {:induction false} ReportNames(report: Report, page: seq<Pulled>, fates: seq<Fate>, id: string)
    requires |page| == |fates|
    ensures var after := BookPage(report, page, fates);
            && (id in after.snippetIds
                <==> id in report.snippetIds
                     || exists i :: 0 <= i < |page| && Landed(fates[i])
                                    && (page[i].wire.key == Key(Snippet, id) || fates[i] == MergedIn(Some(id))))
            && (id in after.copies
                <==> id in report.copies || exists i :: 0 <= i < |fates| && fates[i] == MergedIn(Some(id)))
  {
    if page != [] {
      var n := |page| - 1;
      ReportNames(report, page[..n], fates[..n], id);
      BookNames(BookPage(report, page[..n], fates[..n]), page[n].wire.key, fates[n], id);
    }
  }

  lemma BookNames(report: Report, key: Key, fate: Fate, id: string)
    ensures var after := Book(report, key, fate);
            && (id in after.snippetIds
                <==> id in report.snippetIds
                     || (Landed(fate) && (key == Key(Snippet, id) || fate == MergedIn(Some(id)))))
            && (id in after.copies <==> id in report.copies || fate == MergedIn(Some(id)))
  {
  }

  // ----- does the report name what moved? -----

  /** The other entities that the deletions landed on a page move. */
  ghost function PageFallout(env: Env, c: Client, cursor: nat, page: seq<Pulled>, now: int): set<Key> {
    if page == [] then {}
    else
      var (front, p) := (page[..|page| - 1], page[|page| - 1]);
      PageFallout(env, c, cursor, front, now)
      + match ApplyPage(env, c, cursor, front, now)
        case Err(_) => {}
        case Ok(before) => Fallout(before.0.rows, p.wire)
  }

  lemma OneMoves(env: Env, c: Client, p: Pulled, now: int, next: Client, fate: Fate, k: Key)
    requires Ordered(c.outbox) && ApplyOne(env, c, p, now, true) == Ok((next, fate)) && View(next, k) != View(c, k)
    ensures Landed(fate) && (p.wire.key == k || IsCopy(CopyOf(fate), k) || k in Fallout(c.rows, p.wire))
  {
    hide MaxVersion, Newest, Ordered, Land, Fallout;
    match Land(env, c, p.wire, now, true)
    case Ok(landed) => LandKeepsBasis(env, c, p.wire, now, true, landed.0, landed.1);
    case Err(_) =>
  }

  /** Every snippet that shows something else after a page is named by the report, so that the host indexes it
      again, unless a deletion on the page took it along or unlinked it. */
  lemma {:induction false} ReportNamesMoved(env: Env, c: Client, cursor: nat, page: seq<Pulled>, now: int,
                                            r: (Client, nat, seq<Fate>), id: string)
    requires Ordered(c.outbox) && ApplyPage(env, c, cursor, page, now) == Ok(r)
    requires View(r.0, Key(Snippet, id)) != View(c, Key(Snippet, id))
    requires Key(Snippet, id) !in PageFallout(env, c, cursor, page, now)
    ensures |r.2| == |page| && id in BookPage(NOTHING, page, r.2).snippetIds
  {
    hide MaxVersion, Newest, Ordered, ApplyOne, View, Fallout, Book;
    if page != [] {
      var (n, k) := (|page| - 1, Key(Snippet, id));
      var before := ApplyPage(env, c, cursor, page[..n], now).value;
      var after := ApplyOne(env, before.0, page[n], now, true).value;
      PageKeepsBasis(env, c, cursor, page[..n], now, before);
      BookNames(BookPage(NOTHING, page[..n], before.2), page[n].wire.key, after.1, id);
      assert r.2[..n] == before.2;
      if View(before.0, k) != View(c, k) {
        ReportNamesMoved(env, c, cursor, page[..n], now, before, id);
      } else {
        OneMoves(env, before.0, page[n], now, after.0, after.1, k);
      }
    }
  }

  /** The exception is real: whatever else a landed deletion moves is shown differently and not named. A folder
      deleted elsewhere so leaves its snippets indexed under its name. */
  lemma DisplacedUnreported(env: Env, c: Client, p: Pulled, now: int, next: Client, fate: Fate, id: string)
    requires Ordered(c.outbox) && ApplyOne(env, c, p, now, true) == Ok((next, fate)) && Landed(fate)
    requires Key(Snippet, id) in Fallout(c.rows, p.wire)
    ensures View(next, Key(Snippet, id)) != View(c, Key(Snippet, id))
    ensures id !in BookPage(NOTHING, [p], [fate]).snippetIds
  {
    hide MaxVersion, Newest, Ordered, View, Book, MergeConflicted, ApplyOpened;
    LandKeepsBasis(env, c, p.wire, now, true, next, fate);
    OwnKeyStays(c.rows, p.wire);
    assert [p][..0] == [] && [fate][..0] == [];
    BookNames(NOTHING, p.wire.key, fate, id);
    NoCopyOfDeletion(env, c, p.wire, now, next, fate);
  }

  lemma NoCopyOfDeletion(env: Env, c: Client, w: Wire, now: int, next: Client, fate: Fate)
    requires Land(env, c, w, now, true) == Ok((next, fate)) && w.body.Tombstone?
    ensures CopyOf(fate) == None
  {
    hide Newest, ApplyTombstone, Settle;
  }
}
