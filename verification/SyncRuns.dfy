/** Whole runs of one device against arbitrary remote answers: which entities keep their basis. */
module SyncRuns {
  import opened Wrappers
  import opened Merge
  import opened SyncModel
  import opened SyncOutbox
  import opened SyncBasis

  // ----- one pulled record -----

  predicate Landed(fate: Fate) {
    fate.AppliedPlain? || fate.MergedIn?
  }

  /** Without a parked conflict only pending records are unsent. */
  lemma {:induction false} OnlyPending(outbox: seq<Queued>, key: Key)
    requires Newest(outbox, key, {Conflicted}).None?
    ensures Newest(outbox, key, QUEUED) == Newest(outbox, key, {Pending})
  {
    if outbox != [] {
      OnlyPending(outbox[..|outbox| - 1], key);
    }
  }

  /** A plain application makes the row the incoming document. It leaves the entity at its basis exactly
      when nothing is pending for it or the newest pending record shows the same; a recycled document
      shows nothing and so never agrees with itself. */
  lemma PlainBasis(env: Env, c: Client, w: Wire, next: Client)
    requires ApplyOpened(env, c, w) == Ok(next)
    ensures next == c.(rows := next.rows, shadows := c.shadows[w.key := Shadow(w.version, BodyDoc(w.body))])
    ensures View(next, w.key) == Shown(w)
    ensures forall k :: k != w.key
                        ==> Basis(next, k) == Basis(c, k) && (View(next, k) == View(c, k) <==> k !in Fallout(c.rows, w))
    ensures Newest(c.outbox, w.key, {Conflicted}).None? ==> (BasisAt(next, w.key) <==> Shown(w) == AfterHead(c, w))
  {
    hide MaxVersion, Fallout, ApplyTombstone;
    if w.body.Tombstone? {
      TombstoneRow(env, c, w, w.body.at, next.rows);
      var stored := c.(rows := next.rows);
      assert forall k :: View(next, k) == View(stored, k);
    } else {
      assert forall k :: k !in Fallout(c.rows, w) by { NoFallout(c.rows, w); }
    }
    if Newest(c.outbox, w.key, {Conflicted}).None? {
      OnlyPending(c.outbox, w.key);
    }
  }

  lemma NoFallout(rows: map<Key, Doc>, w: Wire)
    requires w.body.Content?
    ensures Fallout(rows, w) == {}
  {
  }

  lemma OwnKeyStays(rows: map<Key, Doc>, w: Wire)
    ensures w.key !in Fallout(rows, w)
  {
  }

  /** When landing a record leaves its entity at its basis, told from the state before. */
  predicate Lands(env: Env, c: Client, w: Wire, makeCopy: bool) {
    match Newest(c.outbox, w.key, {Conflicted})
    case Some(head) => MergeLands(env, c, w, head, makeCopy)
    case None => Shown(w) == AfterHead(c, w)
  }

  /** The entities a landed record takes off their basis. */
  function Hazard(env: Env, c: Client, w: Wire, makeCopy: bool): set<Key> {
    (if Lands(env, c, w, makeCopy) then {} else {w.key}) + Fallout(c.rows, w)
  }

  /** The conflict copy a fate names. */
  function CopyOf(fate: Fate): Option<string> {
    if fate.MergedIn? then fate.copy else None
  }

  /** Landing a record: the shadow becomes that record; its own entity is at its basis afterwards exactly
      when the record lands well, a conflict copy is at its own, and of all others exactly those move
      that a deletion takes along. */
  lemma LandKeepsBasis(env: Env, c: Client, w: Wire, now: int, makeCopy: bool, next: Client, fate: Fate)
    requires Ordered(c.outbox) && Land(env, c, w, now, makeCopy) == Ok((next, fate))
    ensures Ordered(next.outbox)
    ensures next.shadows == c.shadows[w.key := Shadow(w.version, BodyDoc(w.body))]
    ensures next.parked == Unpark(c.parked, w.id) && next.watermark == c.watermark
    ensures Landed(fate)
    ensures BasisAt(next, w.key) <==> Lands(env, c, w, makeCopy)
    ensures forall k :: k != w.key && IsCopy(CopyOf(fate), k) ==> BasisAt(next, k)
    ensures forall k :: k != w.key && !IsCopy(CopyOf(fate), k)
                        ==> Basis(next, k) == Basis(c, k) && (View(next, k) == View(c, k) <==> k !in Fallout(c.rows, w))
  {
    hide MaxVersion, MergeConflicted, Ordered, MergeLands, AfterHead, Fallout, ApplyOpened, Shown;
    match Newest(c.outbox, w.key, {Conflicted})
    case Some(head) =>
      var (merged, copy) := MergeConflicted(env, c, w, head, now, makeCopy).value;
      MergeResolves(env, c, w, head, now, makeCopy, merged, copy);
      assert forall k :: Basis(next, k) == Basis(merged, k) && View(next, k) == View(merged, k);
    case None =>
      var applied := ApplyOpened(env, c, w).value;
      PlainBasis(env, c, w, applied);
      assert forall k :: Basis(next, k) == Basis(applied, k) && View(next, k) == View(applied, k);
  }

  /** The same over one pulled record: an entity at its basis stays there exactly outside the hazard. */
  lemma ApplyOneKeepsBasis(env: Env, c: Client, p: Pulled, now: int, makeCopy: bool, next: Client, fate: Fate)
    requires Ordered(c.outbox) && ApplyOne(env, c, p, now, makeCopy) == Ok((next, fate))
    ensures Ordered(next.outbox) && next.watermark == c.watermark
    ensures if Landed(fate) then !Replay(c, p.wire)
            && next.shadows == c.shadows[p.wire.key := Shadow(p.wire.version, BodyDoc(p.wire.body))]
            else next == c.(parked := next.parked)
    ensures forall k :: BasisAt(c, k) && !(Landed(fate) && k in Hazard(env, c, p.wire, makeCopy)) ==> BasisAt(next, k)
    ensures Landed(fate)
            ==> forall k :: k in Hazard(env, c, p.wire, makeCopy) && BasisAt(c, k) && !IsCopy(CopyOf(fate), k)
                            ==> !BasisAt(next, k)
  {
    hide MaxVersion, Newest, Ordered, Land, Lands, Fallout;
    OwnKeyStays(c.rows, p.wire);
    match Land(env, c, p.wire, now, makeCopy)
    case Ok(landed) =>
      LandKeepsBasis(env, c, p.wire, now, makeCopy, landed.0, landed.1);
    case Err(_) =>
  }

  // ----- one page -----

  /** The entities hit by a hazard while a page is applied. */
  ghost function PageHazards(env: Env, c: Client, cursor: nat, page: seq<Pulled>, now: int): set<Key> {
    if page == [] then {}
    else
      var p := page[|page| - 1];
      var earlier := PageHazards(env, c, cursor, page[..|page| - 1], now);
      match ApplyPage(env, c, cursor, page[..|page| - 1], now)
      case Err(_) => earlier
      case Ok(before) =>
        match ApplyOne(env, before.0, p, now, true)
        case Ok(after) => if Landed(after.1) then earlier + Hazard(env, before.0, p.wire, true) else earlier
        case Err(_) => earlier
  }

  lemma {:induction false} PageKeepsBasis(env: Env, c: Client, cursor: nat, page: seq<Pulled>, now: int,
                                          r: (Client, nat, seq<Fate>))
    requires Ordered(c.outbox) && ApplyPage(env, c, cursor, page, now) == Ok(r)
    ensures Ordered(r.0.outbox) && r.0.watermark == c.watermark && cursor <= r.1
    ensures forall k :: BasisAt(c, k) && k !in PageHazards(env, c, cursor, page, now) ==> BasisAt(r.0, k)
  {
    hide MaxVersion, Newest, Ordered, ApplyOne, View, Basis, Hazard;
    if page != [] {
      var before := ApplyPage(env, c, cursor, page[..|page| - 1], now).value;
      PageKeepsBasis(env, c, cursor, page[..|page| - 1], now, before);
      var p := page[|page| - 1];
      var after := ApplyOne(env, before.0, p, now, true).value;
      ApplyOneKeepsBasis(env, before.0, p, now, true, after.0, after.1);
    }
  }

  // ----- push answers -----

  /** The outbox without the pending record of this id. */
  function Unacked(outbox: seq<Queued>, id: string): (rest: seq<Queued>)
    ensures forall q :: q in rest <==> q in outbox && !(q.wire.id == id && q.stage == Pending)
  {
    if outbox == [] then []
    else
      var last := outbox[|outbox| - 1];
      var rest := Unacked(outbox[..|outbox| - 1], id);
      assert outbox == outbox[..|outbox| - 1] + [last];
      if last.wire.id == id && last.stage == Pending then rest else rest + [last]
  }

  function Settling(outbox: seq<Queued>, id: string, serverSeq: int): seq<Queued> {
    seq(|outbox|, i requires 0 <= i < |outbox| =>
      if outbox[i].wire.id == id && outbox[i].stage == Pending
      then outbox[i].(stage := Applied, serverSeq := Some(serverSeq)) else outbox[i])
  }

  lemma NewestSnoc(outbox: seq<Queued>, q: Queued, key: Key)
    ensures var (rest, all) := (Newest(outbox, key, QUEUED), Newest(outbox + [q], key, QUEUED));
            all == if q.wire.key == key && q.stage in QUEUED
              && (rest.None? || rest.value.wire.version <= q.wire.version)
                   then Some(q) else rest
  {
    assert (outbox + [q])[..|outbox|] == outbox;
  }

  lemma SettlingSnoc(outbox: seq<Queued>, n: nat, id: string, serverSeq: int)
    requires |outbox| == n + 1
    ensures Settling(outbox, id, serverSeq)
            == Settling(outbox[..n], id, serverSeq) + [Settling(outbox, id, serverSeq)[n]]
  {
  }

  /** What an acknowledgement leaves unsent is what the queue held beside the acknowledged record. */
  lemma {:induction false} NewestSettled(outbox: seq<Queued>, id: string, serverSeq: int, key: Key)
    ensures Newest(Settling(outbox, id, serverSeq), key, QUEUED) == Newest(Unacked(outbox, id), key, QUEUED)
  {
    if outbox != [] {
      hide Newest;
      var n := |outbox| - 1;
      var (front, last) := (Settling(outbox[..n], id, serverSeq), Settling(outbox, id, serverSeq)[n]);
      NewestSettled(outbox[..n], id, serverSeq, key);
      SettlingSnoc(outbox, n, id, serverSeq);
      NewestSnoc(front, last, key);
      NewestSnoc(Unacked(outbox[..n], id), outbox[n], key);
      hide Settling;
    }
  }

  /** An entity's basis after an answer, told from the queue before it: the newest of what else is unsent,
      or else the record that was sent under this id, or else the shadow as it was. */
  function AckedBasis(c: Client, batch: seq<Wire>, result: PushResult, key: Key): Option<Doc> {
    match Newest(Unacked(c.outbox, result.id), key, QUEUED)
    case Some(q) => BodyDoc(q.wire.body)
    case None =>
      var sent := FindWire(batch, result.id);
      if sent.Some? && sent.value.key == key then BodyDoc(sent.value.body)
      else if key in c.shadows then c.shadows[key].doc else None
  }

  lemma AckedBasisIs(c: Client, batch: seq<Wire>, result: PushResult, next: Client, key: Key)
    requires AckOne(c, batch, result) == Ok(next)
    ensures Basis(next, key) == AckedBasis(c, batch, result, key)
  {
    hide MaxVersion, Newest, Unacked;
    assert next.outbox == Settling(c.outbox, result.id, result.serverSeq);
    NewestSettled(c.outbox, result.id, result.serverSeq, key);
  }

  /** The acknowledged record is its entity's newest unsent one, and beside it the queue still holds an
      older one that says something else: that one then stands in for the entity. */
  ghost predicate LeavesStale(c: Client, q: Queued) {
    && Newest(c.outbox, q.wire.key, QUEUED) == Some(q)
    && var older := Newest(Unacked(c.outbox, q.wire.id), q.wire.key, QUEUED);
       older.Some? && BodyDoc(older.value.wire.body) != BodyDoc(q.wire.body)
  }

  /** Ids are unique, so only this record is left out. */
  lemma OnlyThis(outbox: seq<Queued>, q: Queued)
    requires Ordered(outbox) && q in outbox && q.stage == Pending
    ensures forall r :: r in Unacked(outbox, q.wire.id) <==> r in outbox && r != q
  {
    hide Unacked, Ordered;
    forall r | r in outbox && r.wire.id == q.wire.id ensures r == q {
      SameSlot(outbox, q, r);
    }
  }

  lemma {:induction false} OrderedUnacked(outbox: seq<Queued>, id: string)
    requires Ordered(outbox)
    ensures Ordered(Unacked(outbox, id))
  {
    if outbox != [] {
      var n := |outbox| - 1;
      OrderedUnacked(outbox[..n], id);
      var rest := Unacked(outbox[..n], id);
      forall i | 0 <= i < |rest|
        ensures rest[i].wire.id != outbox[n].wire.id
             && (rest[i].wire.key == outbox[n].wire.key ==> rest[i].wire.version < outbox[n].wire.version)
      {
        assert rest[i] in outbox[..n];
        var j :| 0 <= j < n && outbox[j] == rest[i];
      }
    }
  }

  /** Leaving out a record that is not an entity's newest leaves the newest. */
  lemma UnackedNewest(outbox: seq<Queued>, q: Queued, key: Key)
    requires Ordered(outbox) && q in outbox && q.stage == Pending
    ensures Newest(outbox, key, QUEUED) != Some(q)
            ==> Newest(Unacked(outbox, q.wire.id), key, QUEUED) == Newest(outbox, key, QUEUED)
  {
    hide Unacked, Ordered;
    OnlyThis(outbox, q);
    OrderedUnacked(outbox, q.wire.id);
    var n := Newest(outbox, key, QUEUED);
    if n != Some(q) && n.Some? {
      NewestIs(Unacked(outbox, q.wire.id), key, QUEUED, n.value);
    }
  }

  /** The entities one answer moves, whatever the server says. */
  ghost function AckHazard(c: Client, batch: seq<Wire>, result: PushResult): set<Key> {
    set k | k in AckNames(c, batch, result) && AckedBasis(c, batch, result, k) != Basis(c, k)
  }

  /** The entities an answer is about: of the pending record under its id, and of what was sent under it. */
  function AckNames(c: Client, batch: seq<Wire>, result: PushResult): set<Key> {
    (set q | q in c.outbox && q.wire.id == result.id :: q.wire.key)
    + (if FindWire(batch, result.id).Some? then {FindWire(batch, result.id).value.key} else {})
  }

  /** Any acknowledgement at all moves exactly those. */
  lemma AckOneKeepsBasis(c: Client, batch: seq<Wire>, result: PushResult, next: Client)
    requires Ordered(c.outbox) && AckOne(c, batch, result) == Ok(next)
    ensures Ordered(next.outbox) && next.rows == c.rows
    ensures forall k :: Basis(next, k) == Basis(c, k) <==> k !in AckHazard(c, batch, result)
  {
    hide MaxVersion, Newest, Ordered, MarkApplied, Unacked, AckedBasis, Basis;
    OrderedApplied(c.outbox, result.id, result.serverSeq);
    var q := SettledRecord(c.outbox, result.id, result.serverSeq);
    forall k ensures Basis(next, k) == Basis(c, k) <==> k !in AckHazard(c, batch, result) {
      AckedBasisIs(c, batch, result, next, k);
      if k !in AckNames(c, batch, result) {
        UnnamedKeeps(c, batch, result, q, k);
      }
    }
  }

  lemma UnnamedKeeps(c: Client, batch: seq<Wire>, result: PushResult, q: Queued, k: Key)
    requires Ordered(c.outbox) && q in c.outbox && q.stage == Pending && q.wire.id == result.id
    requires k !in AckNames(c, batch, result)
    ensures AckedBasis(c, batch, result, k) == Basis(c, k)
  {
    hide MaxVersion, Ordered, Unacked;
    assert q.wire.key in AckNames(c, batch, result);
    UnackedNewest(c.outbox, q, k);
  }

  /** An answer to what was sent is hazardous exactly when it would leave a stale record behind. */
  lemma SentHazard(c: Client, batch: seq<Wire>, result: PushResult, q: Queued)
    requires Ordered(c.outbox) && q in c.outbox && q.stage == Pending && q.wire.id == result.id
    requires FindWire(batch, result.id) == Some(q.wire)
    ensures AckHazard(c, batch, result) == if LeavesStale(c, q) then {q.wire.key} else {}
  {
    hide MaxVersion, Ordered, Unacked;
    UnackedNewest(c.outbox, q, q.wire.key);
    forall r | r in c.outbox && r.wire.id == result.id ensures r == q {
      SameSlot(c.outbox, q, r);
    }
    assert AckNames(c, batch, result) == {q.wire.key};
  }

  /** An acknowledgement of what was sent moves the basis of the acknowledged entity exactly when it leaves a
      stale record behind, and no other entity's. */
  lemma AckBasis(c: Client, batch: seq<Wire>, result: PushResult, q: Queued, next: Client)
    requires Ordered(c.outbox) && AckOne(c, batch, result) == Ok(next)
    requires q in c.outbox && q.stage == Pending && q.wire.id == result.id
    requires FindWire(batch, result.id) == Some(q.wire)
    ensures Basis(next, q.wire.key) == Basis(c, q.wire.key) <==> !LeavesStale(c, q)
    ensures forall k :: k != q.wire.key ==> Basis(next, k) == Basis(c, k)
  {
    hide MaxVersion, Newest, Ordered, MarkApplied, AckHazard, LeavesStale, Basis, AckOne;
    SentHazard(c, batch, result, q);
    AckOneKeepsBasis(c, batch, result, next);
  }

  /** The entities the results of one answer move. */
  ghost function AckHazards(c: Client, batch: seq<Wire>, results: seq<PushResult>): set<Key> {
    if results == [] then {}
    else
      var earlier := AckHazards(c, batch, results[..|results| - 1]);
      match Ack(c, batch, results[..|results| - 1])
      case Err(_) => earlier
      case Ok(before) => earlier + AckHazard(before, batch, results[|results| - 1])
  }

  lemma {:induction false} AckKeepsBasis(c: Client, batch: seq<Wire>, results: seq<PushResult>, next: Client)
    requires Ordered(c.outbox) && Ack(c, batch, results) == Ok(next)
    ensures Ordered(next.outbox) && next.rows == c.rows
    ensures forall k :: k !in AckHazards(c, batch, results) ==> Basis(next, k) == Basis(c, k)
  {
    hide MaxVersion, Newest, Ordered, Basis, AckOne, AckHazard;
    if results != [] {
      var result := results[|results| - 1];
      var before := Ack(c, batch, results[..|results| - 1]).value;
      AckKeepsBasis(c, batch, results[..|results| - 1], before);
      AckOneKeepsBasis(before, batch, result, next);
    }
  }

  /** A 409 answer never moves a basis. */
  lemma {:induction false} HeadsKeepBasis(c: Client, heads: seq<Key>, k: Key)
    requires Ordered(c.outbox)
    ensures Ordered(MarkHeads(c.outbox, heads))
    ensures Basis(c.(outbox := MarkHeads(c.outbox, heads)), k) == Basis(c, k)
  {
    hide MaxVersion, Newest, Ordered, MarkConflicted;
    if heads != [] {
      var n := |heads| - 1;
      HeadsKeepBasis(c, heads[..n], k);
      OrderedMark(MarkHeads(c.outbox, heads[..n]), heads[n]);
      NewestMark(MarkHeads(c.outbox, heads[..n]), heads[n], k);
    }
  }
}
