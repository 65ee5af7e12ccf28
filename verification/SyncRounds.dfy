/** Conditions that can be told before a step runs, under which no entity loses its basis: an orderly
    queue, and arriving records that meet nothing pending and, of an entity with anything unsent, no second
    record. */
module SyncRounds {
  import opened Wrappers
  import opened Merge
  import opened SyncModel
  import opened SyncOutbox
  import opened SyncCascade
  import opened SyncReferences
  import opened SyncBasis
  import opened SyncRuns
  import opened SyncPull
  import opened SyncReconcile
  import opened SyncTrace
  import opened SyncGrowth
  import opened SyncPushed

  // ----- an orderly queue -----

  /** An id this device may still draw for a conflict copy. */
  ghost predicate Drawable(env: Env, c: Client, key: Key) {
    key.kind == Snippet && exists n: nat :: c.drawn <= n && env.uuid(n) == key.id
  }

  ghost predicate Injective(env: Env) {
    forall m: nat, n: nat :: env.uuid(m) == env.uuid(n) ==> m == n
  }

  /** No entity has both a parked conflict and something pending. */
  ghost predicate Unmixed(outbox: seq<Queued>) {
    forall q, r :: q in outbox && r in outbox && q.stage == Pending && r.stage == Conflicted
                   ==> q.wire.key != r.wire.key
  }

  /** Whatever is pending is past the version this device knows to be accepted. */
  ghost predicate Ahead(c: Client) {
    forall q :: q in c.outbox && q.stage == Pending ==> ShadowVersion(c, q.wire.key) < q.wire.version
  }

  ghost predicate Orderly(env: Env, c: Client) {
    && Ordered(c.outbox) && Unmixed(c.outbox) && Ahead(c)
    && (forall q :: q in c.outbox ==> q.wire.device == env.device && !Drawable(env, c, q.wire.key))
  }

  // ----- arriving records -----

  /** A record that will be opened when it comes: another device's, past what was applied. */
  predicate Awaits(env: Env, c: Client, w: Wire) {
    w.device != env.device && !Replay(c, w)
  }

  /** Records on their way, and the entities the deletions among them may move. */
  datatype Arrivals = Arrivals(records: set<Pulled>, fall: iset<Key>)

  ghost predicate Idle(outbox: seq<Queued>, key: Key) {
    forall q :: q in outbox && q.wire.key == key ==> q.stage == Applied
  }

  /** An entity with anything unsent has at most one record on its way, and none is a recycled snippet. */
  ghost predicate Lone(env: Env, c: Client, arriving: Arrivals) {
    && (forall p :: p in arriving.records && Awaits(env, c, p.wire)
                    ==> !BinnedContent(p.wire) && !Drawable(env, c, p.wire.key))
    && (forall p, q | p in arriving.records && q in arriving.records ::
          Awaits(env, c, p.wire) && Awaits(env, c, q.wire) && p.wire.key == q.wire.key
          ==> p == q || Idle(c.outbox, p.wire.key))
  }

  /** A row an arriving record deletes, or a deletion may take along. */
  ghost predicate MayGo(arriving: Arrivals, key: Key) {
    key.kind != Snippet
    && (key in arriving.fall || exists p :: p in arriving.records && p.wire.key == key && p.wire.body.Tombstone?)
  }

  /** The entities that may fall hold everything that refers to a row that may go, in the tables and in the
      arriving documents, and with a falling entity any conflict copy that could be made of it. */
  ghost predicate Encloses(env: Env, c: Client, arriving: Arrivals) {
    && (forall k, r | k in c.rows && r in References(k, c.rows[k]) :: MayGo(arriving, r) ==> k in arriving.fall)
    && (forall p, r | p in arriving.records && p.wire.body.Content? && r in References(p.wire.key, p.wire.body.doc) ::
          MayGo(arriving, r) ==> p.wire.key in arriving.fall)
    && (forall p, k | p in arriving.records && p.wire.key in arriving.fall ::
          Drawable(env, c, k) ==> k in arriving.fall)
  }

  ghost predicate Calm(env: Env, c: Client, arriving: Arrivals) {
    Orderly(env, c) && Lone(env, c, arriving) && Encloses(env, c, arriving)
    && forall k :: k !in arriving.fall ==> BasisAt(c, k)
  }

  /** Nothing is pending for the entities of the arriving records. */
  ghost predicate Unhindered(env: Env, c: Client, arriving: Arrivals) {
    forall p :: p in arriving.records && Awaits(env, c, p.wire) ==> !Holds(c.outbox, p.wire.key, Pending)
  }

  /** What came with the records to be opened stays quiet as long as it is awaited. */
  ghost predicate StaysIdle(env: Env, c: Client, next: Client, arriving: Arrivals) {
    forall p :: p in arriving.records && Awaits(env, next, p.wire) && Idle(c.outbox, p.wire.key)
                ==> Idle(next.outbox, p.wire.key)
  }

  /** Newer shadows await less, and nothing newly unsent for an idle entity keeps the arrivals as they were. */
  lemma StillLone(env: Env, c: Client, next: Client, arriving: Arrivals)
    requires ShadowsAdvance(c, next) && c.drawn <= next.drawn
    ensures forall w :: Awaits(env, next, w) ==> Awaits(env, c, w)
    ensures Lone(env, c, arriving) && StaysIdle(env, c, next, arriving) ==> Lone(env, next, arriving)
  {
    hide Idle;
    forall w | Awaits(env, next, w) ensures Awaits(env, c, w) {
    }
  }

  /** Settling or parking what was queued leaves an idle entity idle. */
  lemma SettlingStaysIdle(env: Env, c: Client, next: Client, arriving: Arrivals)
    requires forall q :: q in next.outbox
                         ==> q.stage == Applied || exists r :: r in c.outbox && r.wire == q.wire && r.stage != Applied
    ensures StaysIdle(env, c, next, arriving)
  {
  }

  // ----- what landing a record adds to the queue -----

  /** Newly pending after a landed record: the entity itself past the server head, or a conflict copy. */
  ghost predicate NewFor(env: Env, c: Client, next: Client, w: Wire, q: Queued) {
    && q.stage == Pending && q.wire.device == env.device
    && (if q.wire.key == w.key then w.version < q.wire.version
        else q.wire.key.kind == Snippet && ShadowVersion(c, q.wire.key) < q.wire.version
             && exists n: nat :: c.drawn <= n < next.drawn && env.uuid(n) == q.wire.key.id)
  }

  ghost predicate Adds(env: Env, c: Client, next: Client, w: Wire) {
    && c.drawn <= next.drawn
    && (forall q :: q in next.outbox ==> q in c.outbox || NewFor(env, c, next, w, q))
  }

  lemma EnqueueAdds(env: Env, c: Client, key: Key, deletedAt: Option<int>, now: int, next: Client, queued: bool)
    requires Enqueue(env, c, key, deletedAt, now) == Ok((next, queued))
    ensures c.drawn <= next.drawn && next.shadows == c.shadows
    ensures forall q :: q in next.outbox && q !in c.outbox
                        ==> q.stage == Pending && q.wire.device == env.device && q.wire.key == key
                            && ShadowVersion(c, key) < q.wire.version
  {
    hide Newest, MaxVersion;
  }

  lemma SettleSealAdds(env: Env, c: Client, w: Wire, settled: Client, deletedAt: Option<int>, now: int, next: Client,
                       queued: bool)
    requires Settle(c, w) == Ok(settled) && Enqueue(env, settled, w.key, deletedAt, now) == Ok((next, queued))
    ensures Adds(env, c, next, w)
  {
    hide Newest, MaxVersion, Enqueue;
    EnqueueAdds(env, settled, w.key, deletedAt, now, next, queued);
  }

  lemma EditsAdd(env: Env, c: Client, w: Wire, doc: Doc, local: Doc, localUpdatedAt: int, now: int, makeCopy: bool,
                 next: Client, copy: Option<string>)
    requires MergeEdits(env, c, w, doc, local, localUpdatedAt, now, makeCopy) == Ok((next, copy))
             && !Drawable(env, c, w.key)
    ensures Adds(env, c, next, w)
  {
    hide MaxVersion, Newest, Enqueue, Settle, Merged, ApplyDocument, ConflictCopy, ShadowVersion;
    var base := if w.key in c.shadows then c.shadows[w.key].doc else None;
    var outcome := Merged(w.key.kind == Snippet, base, Side(local, localUpdatedAt, env.device),
                          Side(doc, w.updatedAt, w.device)).value;
    var applied := c.(rows := ApplyDocument(env, c.rows, w.key, outcome.doc).value);
    var copied := applied;
    if outcome.bodyConflict && makeCopy {
      copied := CreateCopy(env, applied, w.key, local, now).value.0;
      CopyAdds(env, applied, w, local, now, copied);
    }
    var settled := Settle(copied, w).value;
    SettleSealAdds(env, copied, w, settled, None, now, next, Enqueue(env, settled, w.key, None, now).value.1);
    AddsTwice(env, applied, copied, next, w);
    SameAdds(env, c, applied.rows, next, w);
  }

  lemma CopyAdds(env: Env, c: Client, w: Wire, local: Doc, now: int, next: Client)
    requires CreateCopy(env, c, w.key, local, now).Ok? && next == CreateCopy(env, c, w.key, local, now).value.0
             && !Drawable(env, c, w.key)
    ensures Adds(env, c, next, w) && next.shadows == c.shadows
  {
    hide MaxVersion, Newest, Enqueue, ApplyDocument, ConflictCopy;
    var copyId := env.uuid(c.drawn);
    var folder := if w.key.kind == Snippet && w.key in c.rows then Lookup(c.rows[w.key], "folder_id") else Null;
    var copyDoc := ConflictCopy(local, folder, copyId, env.deviceName, now).value;
    var stored := c.(rows := ApplyDocument(env, c.rows, Key(Snippet, copyId), copyDoc).value, drawn := c.drawn + 1);
    EnqueueAdds(env, stored, Key(Snippet, copyId), None, now, next,
                Enqueue(env, stored, Key(Snippet, copyId), None, now).value.1);
    assert Key(Snippet, copyId) != w.key;
  }

  lemma AddsTwice(env: Env, c: Client, mid: Client, next: Client, w: Wire)
    requires c.drawn <= mid.drawn && mid.shadows == c.shadows && Adds(env, mid, next, w)
    requires mid.outbox == c.outbox || Adds(env, c, mid, w)
    ensures Adds(env, c, next, w)
  {
    forall q | q in next.outbox && q !in c.outbox ensures NewFor(env, c, next, w, q) {
    }
  }

  lemma MergeAdds(env: Env, c: Client, w: Wire, head: Queued, now: int, makeCopy: bool, next: Client,
                  copy: Option<string>)
    requires MergeConflicted(env, c, w, head, now, makeCopy) == Ok((next, copy)) && !Drawable(env, c, w.key)
    ensures Adds(env, c, next, w)
  {
    hide MaxVersion, Newest, Enqueue, Merged, ApplyDocument, ApplyTombstone, SoftDelete, MergeEdits, Adds, Settle,
         Drawable;
    match (w.body, head.wire.body)
    case (Tombstone(at), _) =>
      SettleAdds(env, c, w, ApplyTombstone(env, c.rows, w.key, at).value, next);
    case (Content(doc), Tombstone(at)) =>
      var rows :=
        if w.key.kind == Snippet then SoftDelete(ApplyDocument(env, c.rows, w.key, doc).value, w.key, at).value
        else c.rows;
      var settled := Settle(c.(rows := rows), w).value;
      SettleSealAdds(env, c.(rows := rows), w, settled, Some(at), now, next,
                     Enqueue(env, settled, w.key, Some(at), now).value.1);
      SameAdds(env, c, rows, next, w);
    case (Content(doc), Content(_)) =>
      match Build(c.rows, w.key)
      case Missing =>
        SettleAdds(env, c, w, ApplyDocument(env, c.rows, w.key, doc).value, next);
      case Built(local) =>
        EditsAdd(env, c, w, doc, local, head.wire.updatedAt, now, makeCopy, next, copy);
  }

  lemma SettleAdds(env: Env, c: Client, w: Wire, rows: map<Key, Doc>, next: Client)
    requires Settle(c.(rows := rows), w) == Ok(next)
    ensures Adds(env, c, next, w)
  {
  }

  lemma SameAdds(env: Env, c: Client, rows: map<Key, Doc>, next: Client, w: Wire)
    requires Adds(env, c.(rows := rows), next, w)
    ensures Adds(env, c, next, w)
  {
    var stored := c.(rows := rows);
    assert forall k :: ShadowVersion(stored, k) == ShadowVersion(c, k);
  }

  lemma LandAdds(env: Env, c: Client, w: Wire, now: int, makeCopy: bool, next: Client, fate: Fate)
    requires Ordered(c.outbox) && Land(env, c, w, now, makeCopy) == Ok((next, fate)) && !Drawable(env, c, w.key)
    ensures Adds(env, c, next, w) && !Holds(next.outbox, w.key, Conflicted)
  {
    hide MaxVersion, MergeConflicted, ApplyDocument, ApplyTombstone, Adds, Ordered, MergeLands, Fallout, Drawable;
    match Newest(c.outbox, w.key, {Conflicted})
    case Some(head) =>
      var (merged, copy) := MergeConflicted(env, c, w, head, now, makeCopy).value;
      MergeResolves(env, c, w, head, now, makeCopy, merged, copy);
      MergeAdds(env, c, w, head, now, makeCopy, merged, copy);
      UnparkedAdds(env, c, merged, next, w);
    case None =>
      UnparkedAdds(env, c, c, next, w);
  }

  lemma UnparkedAdds(env: Env, c: Client, mid: Client, next: Client, w: Wire)
    requires next.outbox == mid.outbox && next.drawn == mid.drawn && (mid == c || Adds(env, c, mid, w))
    ensures Adds(env, c, next, w)
  {
  }

  // ----- a landed record keeps everything in order -----

  lemma SmoothLands(env: Env, c: Client, w: Wire, makeCopy: bool)
    requires Ordered(c.outbox) && BasisAt(c, w.key) && !Holds(c.outbox, w.key, Pending) && !BinnedContent(w)
    ensures Lands(env, c, w, makeCopy)
  {
    hide MaxVersion, MergeLands;
    match Newest(c.outbox, w.key, {Conflicted})
    case Some(head) => ConflictLands(env, c, w, head, makeCopy);
    case None =>
  }

  /** Whatever an arriving deletion takes along is among the entities that may fall. */
  lemma FalloutEnclosed(env: Env, c: Client, arriving: Arrivals, p: Pulled)
    requires p in arriving.records && Encloses(env, c, arriving)
    ensures forall k :: k in Fallout(c.rows, p.wire) ==> k in arriving.fall
  {
    hide Felled;
    var w := p.wire;
    if w.body.Tombstone? && w.key.kind != Snippet && w.key in c.rows {
      var all := {w.key} + set k | k in c.rows && k in arriving.fall && k.kind != Snippet;
      var gone := Felled(c.rows, {w.key});
      FelledLeast(c.rows, {w.key});
      assert forall r :: r in all ==> MayGo(arriving, r);
      forall k | k in c.rows && k !in all ensures Owners(k, c.rows[k]) * all == {} {
        assert forall r :: r in Owners(k, c.rows[k]) * all ==> r in References(k, c.rows[k]);
      }
      assert gone <= all;
      forall k | k in Uprooted(c.rows, w.key) ensures k in arriving.fall {
        if k !in gone {
          UnlinkedNames(k, c.rows[k], gone);
        }
      }
    }
  }

  /** A row that loses a reference referred to something that goes. */
  lemma UnlinkedNames(key: Key, doc: Doc, gone: set<Key>)
    requires Unlinked(key, doc, gone) != doc
    ensures References(key, doc) * gone != {}
  {
    if Named(Folder, doc, "folder_id") * gone == {} {
      assert Cleared(doc, "folder_id", Folder, gone) == doc;
    }
    assert Named(Folder, doc, "folder_id") + Named(Snippet, doc, "conflict_of") <= References(key, doc);
  }

  /** References that stem from the rows and the arriving documents are enclosed like those. */
  lemma LandedEncloses(env: Env, c: Client, p: Pulled, next: Client, arriving: Arrivals)
    requires Encloses(env, c, arriving) && p in arriving.records
    requires AllStem(env, c, p.wire, next.rows) && c.drawn <= next.drawn
    ensures Encloses(env, next, arriving)
  {
    hide References;
    forall k, r | k in next.rows && r in References(k, next.rows[k]) && MayGo(arriving, r) ensures k in arriving.fall {
      assert Stems(env, c, p.wire, k, r);
      if OwnReference(c.rows, p.wire, r) {
        assert p.wire.key in arriving.fall;
        assert Drawable(env, c, Key(Snippet, env.uuid(c.drawn)));
      }
    }
    DrawableAlike(env, c, next);
  }

  lemma SameRowsEnclose(env: Env, c: Client, next: Client, arriving: Arrivals)
    requires next.rows == c.rows && c.drawn <= next.drawn
    ensures Encloses(env, c, arriving) ==> Encloses(env, next, arriving)
  {
    hide References, MayGo, Drawable;
    DrawableAlike(env, c, next);
  }

  /** Landing queues nothing for an idle entity. */
  lemma LandStaysIdle(env: Env, c: Client, p: Pulled, now: int, next: Client, fate: Fate, arriving: Arrivals)
    requires Ordered(c.outbox) && Lone(env, c, arriving) && ShadowsAdvance(c, next)
    requires p in arriving.records && Awaits(env, c, p.wire) && Land(env, c, p.wire, now, true) == Ok((next, fate))
    requires Adds(env, c, next, p.wire)
    ensures StaysIdle(env, c, next, arriving)
  {
    hide MergeConflicted, ApplyDocument, ApplyTombstone, BinnedContent;
    var w := p.wire;
    forall q | q in arriving.records && Awaits(env, next, q.wire) && Idle(c.outbox, q.wire.key)
      ensures Idle(next.outbox, q.wire.key) {
      if q.wire.key == w.key {
        assert Newest(c.outbox, w.key, {Conflicted}).None?;
        assert next.outbox == c.outbox;
      } else {
        assert Awaits(env, c, q.wire);
        assert forall r :: r in next.outbox && r !in c.outbox && r.wire.key != w.key ==> Drawable(env, c, r.wire.key);
      }
    }
  }

  lemma LandedOrderly(env: Env, c: Client, w: Wire, next: Client)
    requires Injective(env) && Orderly(env, c) && Ordered(next.outbox) && Adds(env, c, next, w)
    requires !Holds(c.outbox, w.key, Pending) && !Holds(next.outbox, w.key, Conflicted) && !Drawable(env, c, w.key)
    requires next.shadows == c.shadows[w.key := Shadow(w.version, BodyDoc(w.body))]
    ensures Orderly(env, next)
  {
    hide Ordered;
    forall q, r | q in next.outbox && r in next.outbox && q.stage == Pending && r.stage == Conflicted
      ensures q.wire.key != r.wire.key
    {
      if q !in c.outbox && q.wire.key != w.key {
        assert Drawable(env, c, q.wire.key);
      }
    }
    forall q | q in next.outbox && q.stage == Pending ensures ShadowVersion(next, q.wire.key) < q.wire.version {
      if q in c.outbox {
        assert q.wire.key != w.key;
      }
    }
    forall q | q in next.outbox ensures !Drawable(env, next, q.wire.key) {
      assert Drawable(env, next, q.wire.key) ==> Drawable(env, c, q.wire.key);
    }
  }

  /** A record landing with nothing pending for its entity: what is at its basis stays there, outside what
      an arriving deletion may move, and the record itself is no longer awaited. */
  lemma LandCalm(env: Env, c: Client, p: Pulled, now: int, next: Client, fate: Fate, arriving: Arrivals)
    requires Injective(env) && Calm(env, c, arriving) && Unhindered(env, c, arriving)
    requires p in arriving.records && Awaits(env, c, p.wire) && Land(env, c, p.wire, now, true) == Ok((next, fate))
    ensures Calm(env, next, arriving) && Unhindered(env, next, arriving)
    ensures ShadowsAdvance(c, next)
    ensures forall k :: k in Hazard(env, c, p.wire, true) ==> k in arriving.fall
  {
    hide MaxVersion, Newest, Ordered, Land, Lands, Fallout, Basis, View, Orderly, Drawable, BinnedContent, Encloses,
         AllStem;
    var w := p.wire;
    OrderlyOrdered(env, c);
    LandKeepsBasis(env, c, w, now, true, next, fate);
    LandAdds(env, c, w, now, true, next, fate);
    LandedOrderly(env, c, w, next);
    LandStaysIdle(env, c, p, now, next, fate, arriving);
    StillLone(env, c, next, arriving);
    FalloutEnclosed(env, c, arriving, p);
    LandStems(env, c, w, now, true, next, fate);
    LandedEncloses(env, c, p, next, arriving);
    if w.key !in arriving.fall {
      SmoothLands(env, c, w, true);
    }
    forall k | k !in arriving.fall ensures BasisAt(next, k) {
    }
    forall q | q in arriving.records && Awaits(env, next, q.wire) ensures !Holds(next.outbox, q.wire.key, Pending) {
      if q.wire.key != w.key {
        NoNewPending(env, c, next, w, q.wire);
      } else {
        assert p != q;
      }
    }
  }

  lemma OrderlyOrdered(env: Env, c: Client)
    requires Orderly(env, c)
    ensures Ordered(c.outbox)
  {
  }

  /** Landing one record leaves nothing pending for another arriving entity. */
  lemma NoNewPending(env: Env, c: Client, next: Client, w: Wire, other: Wire)
    requires Adds(env, c, next, w) && other.key != w.key && !Drawable(env, c, other.key)
    requires !Holds(c.outbox, other.key, Pending)
    ensures !Holds(next.outbox, other.key, Pending)
  {
    forall q | q in next.outbox && q.stage == Pending ensures q.wire.key != other.key {
      if q !in c.outbox && q.wire.key != w.key {
        assert Drawable(env, c, q.wire.key);
      }
    }
  }

  // ----- a page -----

  /** Every record still to be opened is among the arriving ones. */
  ghost predicate Expected(env: Env, c: Client, list: seq<Pulled>, arriving: Arrivals) {
    forall p :: p in list && Awaits(env, c, p.wire) ==> p in arriving.records
  }

  lemma UnmovedCalm(env: Env, c: Client, next: Client, arriving: Arrivals)
    requires next == c.(parked := next.parked, watermark := next.watermark)
    ensures Calm(env, c, arriving) ==> Calm(env, next, arriving)
    ensures Unhindered(env, c, arriving) ==> Unhindered(env, next, arriving)
    ensures ShadowsAdvance(c, next)
  {
    hide Newest, Ordered, Encloses;
    assert forall k :: Basis(next, k) == Basis(c, k);
    assert forall w :: Awaits(env, next, w) <==> Awaits(env, c, w);
    assert forall k :: Drawable(env, next, k) <==> Drawable(env, c, k);
    SameRowsEnclose(env, c, next, arriving);
  }

  lemma ApplyOneCalm(env: Env, c: Client, p: Pulled, now: int, next: Client, fate: Fate, arriving: Arrivals)
    requires Injective(env) && Calm(env, c, arriving) && Unhindered(env, c, arriving)
    requires Awaits(env, c, p.wire) ==> p in arriving.records
    requires ApplyOne(env, c, p, now, true) == Ok((next, fate))
    ensures Calm(env, next, arriving) && Unhindered(env, next, arriving) && ShadowsAdvance(c, next)
    ensures Landed(fate) ==> forall k :: k in Hazard(env, c, p.wire, true) ==> k in arriving.fall
    ensures forall q :: q in next.parked ==> q in c.parked || (q == p && p.wire.device != env.device)
  {
    hide MaxVersion, Newest, Ordered, Land, Calm, Unhindered, Hazard, ShadowsAdvance;
    CalmOrdered(env, c, arriving);
    ApplyOneKeepsBasis(env, c, p, now, true, next, fate);
    match Land(env, c, p.wire, now, true) {
      case Ok(landed) => LandKeepsBasis(env, c, p.wire, now, true, landed.0, landed.1);
      case Err(_) =>
    }
    if Landed(fate) {
      LandCalm(env, c, p, now, next, fate, arriving);
    } else {
      UnmovedCalm(env, c, next, arriving);
    }
  }

  lemma CalmOrdered(env: Env, c: Client, arriving: Arrivals)
    requires Calm(env, c, arriving)
    ensures Ordered(c.outbox)
  {
  }

  lemma ExpectedStays(env: Env, c: Client, next: Client, list: seq<Pulled>, arriving: Arrivals)
    requires Expected(env, c, list, arriving) && ShadowsAdvance(c, next)
    ensures Expected(env, next, list, arriving)
  {
  }

  lemma AdvanceTwice(a: Client, b: Client, c: Client)
    requires ShadowsAdvance(a, b) && ShadowsAdvance(b, c)
    ensures ShadowsAdvance(a, c)
  {
  }

  /** A page meets no hazard when nothing is pending for its own entities, no recycled document arrives and
      an entity with anything unsent has one record on its way: the merges' own requeues are never overtaken.
      Only what an arriving deletion can take along or unlink then moves besides. */
  lemma {:induction false} PageCalm(env: Env, c: Client, cursor: nat, page: seq<Pulled>, now: int,
                                    r: (Client, nat, seq<Fate>), arriving: Arrivals)
    requires Injective(env) && Calm(env, c, arriving) && Unhindered(env, c, arriving)
             && Expected(env, c, page, arriving)
    requires ApplyPage(env, c, cursor, page, now) == Ok(r)
    ensures Calm(env, r.0, arriving) && Unhindered(env, r.0, arriving) && ShadowsAdvance(c, r.0)
    ensures forall k :: k in PageHazards(env, c, cursor, page, now) ==> k in arriving.fall
    ensures forall q :: q in r.0.parked ==> q in c.parked || (q in page && q.wire.device != env.device)
    ensures r.0.watermark == c.watermark
  {
    hide MaxVersion, Newest, Ordered, ApplyOne, Calm, Unhindered, Hazard, ShadowsAdvance, Replay;
    if page == [] {
      UnmovedCalm(env, c, c, arriving);
    } else {
      var n := |page| - 1;
      var before := ApplyPage(env, c, cursor, page[..n], now).value;
      PageCalm(env, c, cursor, page[..n], now, before, arriving);
      ExpectedStays(env, c, before.0, page, arriving);
      assert page[n] in page;
      var after := ApplyOne(env, before.0, page[n], now, true).value;
      ApplyOneCalm(env, before.0, page[n], now, after.0, after.1, arriving);
      AdvanceTwice(c, before.0, after.0);
      CalmOrdered(env, before.0, arriving);
      ApplyOneKeepsBasis(env, before.0, page[n], now, true, after.0, after.1);
    }
  }

  // ----- retrying parked records -----

  lemma RetryOneCalm(env: Env, c: Client, p: Pulled, now: int, next: Client, fate: RetryFate, arriving: Arrivals)
    requires Injective(env) && Calm(env, c, arriving) && Unhindered(env, c, arriving)
    requires p.wire.device != env.device && (Awaits(env, c, p.wire) ==> p in arriving.records)
    requires RetryOne(env, c, p, now) == (next, fate)
    ensures Calm(env, next, arriving) && Unhindered(env, next, arriving) && ShadowsAdvance(c, next)
    ensures fate.Retried? ==> forall k :: k in Hazard(env, c, p.wire, true) ==> k in arriving.fall
    ensures forall q :: q in next.parked ==> q in c.parked
    ensures next.watermark == c.watermark
  {
    hide MaxVersion, Newest, Ordered, Land, Calm, Unhindered, Hazard, ShadowsAdvance;
    CalmOrdered(env, c, arriving);
    match Land(env, c, p.wire, now, true) {
      case Ok(landed) => LandKeepsBasis(env, c, p.wire, now, true, landed.0, landed.1);
      case Err(_) =>
    }
    if fate.Retried? {
      LandCalm(env, c, p, now, next, fate.fate, arriving);
    } else {
      UnmovedCalm(env, c, next, arriving);
    }
  }

  lemma {:induction false} RetryCalm(env: Env, c: Client, list: seq<Pulled>, now: int, arriving: Arrivals)
    requires Injective(env) && Calm(env, c, arriving) && Unhindered(env, c, arriving)
             && Expected(env, c, list, arriving)
    requires forall p :: p in list ==> p.wire.device != env.device
    ensures var next := RetryAll(env, c, list, now).0;
            && Calm(env, next, arriving) && Unhindered(env, next, arriving) && ShadowsAdvance(c, next)
            && (forall q :: q in next.parked ==> q in c.parked) && next.watermark == c.watermark
    ensures forall k :: k in RetryHazards(env, c, list, now) ==> k in arriving.fall
  {
    hide MaxVersion, Newest, Ordered, RetryOne, Calm, Unhindered, Hazard, ShadowsAdvance, Replay;
    if list == [] {
      UnmovedCalm(env, c, c, arriving);
    } else {
      var n := |list| - 1;
      var before := RetryAll(env, c, list[..n], now).0;
      RetryCalm(env, c, list[..n], now, arriving);
      ExpectedStays(env, c, before, list, arriving);
      assert list[n] in list;
      var r := RetryOne(env, before, list[n], now);
      RetryOneCalm(env, before, list[n], now, r.0, r.1, arriving);
      AdvanceTwice(c, before, r.0);
    }
  }

  // ----- push answers -----

  /** The answer to a batch of pending records: a result for each of its first records, in order. */
  ghost predicate Answers(c: Client, batch: seq<Wire>, results: seq<PushResult>) {
    && batch <= PendingWires(c.outbox)
    && |results| <= |batch| && (forall i :: 0 <= i < |results| ==> results[i].id == batch[i].id)
  }

  lemma {:induction false} AckTo(c: Client, batch: seq<Wire>, results: seq<PushResult>, j: nat)
    requires Ordered(c.outbox) && Answers(c, batch, results) && j <= |results| && Ack(c, batch, results[..j]).Ok?
    ensures AckedTo(c, batch, j, Ack(c, batch, results[..j]).value) && Server.DistinctIds(batch)
  {
    hide Ordered, AckedTo, AckOne;
    if j == 0 {
      AckStart(c, batch);
    } else {
      assert results[..j][..j - 1] == results[..j - 1];
      AckTo(c, batch, results, j - 1);
      var before := Ack(c, batch, results[..j - 1]).value;
      AckStored(before, batch, j - 1, results[j - 1]);
      assert results[j - 1] == PushResult(batch[j - 1].id, results[j - 1].serverSeq);
      AckNext(c, batch, j - 1, before, results[j - 1].serverSeq);
    }
  }

  lemma AckStored(c: Client, batch: seq<Wire>, j: nat, result: PushResult)
    requires Server.DistinctIds(batch) && j < |batch| && result.id == batch[j].id && AckOne(c, batch, result).Ok?
    ensures batch[j].version <= I64_MAX
  {
    hide MarkApplied;
    FindInBatch(batch, j);
  }

  /** An answered record that is its entity's newest unsent one leaves nothing of the entity unsent. */
  lemma NothingStale(env: Env, c: Client, batch: seq<Wire>, results: seq<PushResult>, j: nat, before: Client)
    requires Ordered(c.outbox) && Unmixed(c.outbox) && Answers(c, batch, results) && j < |results|
    requires Ack(c, batch, results[..j]) == Ok(before)
    ensures AckHazard(before, batch, results[j]) == {}
  {
    hide Ordered, Ack, AckHazard, PendingWires, Newest, Unacked;
    AckTo(c, batch, results, j);
    AckOnlySettles(c, batch, results[..j], before);
    FindInBatch(batch, j);
    StillPending(c.outbox, batch, j, before.outbox);
    var p :| p in before.outbox && p.wire == batch[j] && p.stage == Pending;
    SentHazard(before, batch, results[j], p);
    OnlyThis(before.outbox, p);
    forall r | r in before.outbox && r != p && r.wire.key == p.wire.key && r.stage in QUEUED
      ensures p.wire.version < r.wire.version
    {
      LaterThan(c, batch, results, j, before, p, r);
    }
  }

  lemma LaterThan(c: Client, batch: seq<Wire>, results: seq<PushResult>, j: nat, before: Client, p: Queued, r: Queued)
    requires Ordered(c.outbox) && Unmixed(c.outbox) && Answers(c, batch, results) && j < |results|
    requires AckedTo(c, batch, j, before)
    requires forall q :: q in before.outbox ==> q in c.outbox || q.stage == Applied
    requires p in before.outbox && p.stage == Pending && p.wire == batch[j]
    requires r in before.outbox && r != p && r.wire.key == p.wire.key && r.stage in QUEUED
    ensures p.wire.version < r.wire.version
  {
    hide Ordered, Newest;
    assert p in c.outbox && r in c.outbox;
    assert r.wire in PendingWires(c.outbox);
    assert forall k :: 0 <= k < |batch| ==> PendingWires(c.outbox)[k] == batch[k];
    var i :| 0 <= i < |PendingWires(c.outbox)| && PendingWires(c.outbox)[i] == r.wire;
    if i == j {
      SameSlot(before.outbox, p, r);
    } else if j < i {
      PendingAscend(c.outbox, j, i);
    }
  }

  /** So a batch of pending records answered in order meets no hazard in an unmixed queue. */
  lemma {:induction false} AnswersMeetNoHazard(env: Env, c: Client, batch: seq<Wire>, results: seq<PushResult>, j: nat)
    requires Ordered(c.outbox) && Unmixed(c.outbox) && Answers(c, batch, results) && j <= |results|
    ensures AckHazards(c, batch, results[..j]) == {}
  {
    hide Ordered, Unmixed, Ack, AckHazard;
    if j > 0 {
      assert results[..j][..j - 1] == results[..j - 1];
      AnswersMeetNoHazard(env, c, batch, results, j - 1);
      match Ack(c, batch, results[..j - 1]) {
        case Ok(before) => NothingStale(env, c, batch, results, j - 1, before);
        case Err(_) =>
      }
    }
  }

  /** The last answered record of an entity is newer than its shadow was, and older than what still waits. */
  lemma AckedAhead(c: Client, batch: seq<Wire>, results: seq<PushResult>, next: Client)
    requires Ordered(c.outbox) && Ahead(c) && Answers(c, batch, results) && Ack(c, batch, results) == Ok(next)
    ensures Ahead(next) && ShadowsAdvance(c, next)
  {
    hide Ordered, Ack, PendingWires, ShadowsAfter, Newest;
    var j := |results|;
    assert results[..j] == results;
    AckTo(c, batch, results, j);
    AckOnlySettles(c, batch, results, next);
    var wires := PendingWires(c.outbox);
    assert forall k :: 0 <= k < |batch| ==> wires[k] == batch[k];
    forall k | k in c.shadows ensures k in next.shadows && c.shadows[k].version <= next.shadows[k].version {
      ShadowAfter(c.shadows, batch, j, k);
      if LastOf(batch, j, k).Some? {
        assert wires[LastOf(batch, j, k).value] in wires;
      }
    }
    forall q | q in next.outbox && q.stage == Pending ensures ShadowVersion(next, q.wire.key) < q.wire.version {
      assert q in c.outbox && q.wire in wires;
      var i :| 0 <= i < |wires| && wires[i] == q.wire;
      ShadowAfter(c.shadows, batch, j, q.wire.key);
      if LastOf(batch, j, q.wire.key).Some? {
        var l := LastOf(batch, j, q.wire.key).value;
        if l < i {
          PendingAscend(c.outbox, l, i);
        }
      }
    }
  }

  /** A batch of pending records, answered in order by any server. */
  lemma AcceptedCalm(env: Env, c: Client, batch: seq<Wire>, results: seq<PushResult>, next: Client, arriving: Arrivals)
    requires Calm(env, c, arriving) && Answers(c, batch, results) && Ack(c, batch, results) == Ok(next)
    ensures Calm(env, next, arriving) && ShadowsAdvance(c, next)
    ensures Unhindered(env, c, arriving) ==> Unhindered(env, next, arriving)
    ensures AckHazards(c, batch, results) == {}
    ensures next == c.(outbox := next.outbox, shadows := next.shadows)
  {
    hide Ordered, Ack, Answers, Basis, View, Drawable, Ahead, ShadowsAdvance, Lone, Encloses, StaysIdle;
    var j := |results|;
    assert results[..j] == results;
    AnswersMeetNoHazard(env, c, batch, results, j);
    AckKeepsBasis(c, batch, results, next);
    AckedAhead(c, batch, results, next);
    AckOnlySettles(c, batch, results, next);
    AckTo(c, batch, results, j);
    assert next == c.(outbox := next.outbox, shadows := next.shadows);
    SettlingStaysIdle(env, c, next, arriving);
    StillLone(env, c, next, arriving);
    SameRowsEnclose(env, c, next, arriving);
    SameRowsView(c, next);
    DrawableAlike(env, c, next);
  }

  lemma SameRowsView(c: Client, next: Client)
    requires next.rows == c.rows
    ensures forall k :: View(next, k) == View(c, k)
  {
  }

  lemma DrawableAlike(env: Env, c: Client, next: Client)
    requires c.drawn <= next.drawn
    ensures forall k :: Drawable(env, next, k) ==> Drawable(env, c, k)
  {
  }

  /** Parking entities only turns pending records into conflicts, all of an entity at once. */
  lemma {:induction false} MarkedUnmixed(outbox: seq<Queued>, heads: seq<Key>)
    requires Unmixed(outbox)
    ensures Unmixed(MarkHeads(outbox, heads))
    ensures forall q :: q in MarkHeads(outbox, heads)
                        ==> exists r :: r in outbox && r.wire == q.wire && (q.stage == Pending ==> r.stage == Pending)
                                        && (q.stage != Applied ==> r.stage != Applied)
  {
    if heads != [] {
      var n := |heads| - 1;
      var before := MarkHeads(outbox, heads[..n]);
      MarkedUnmixed(outbox, heads[..n]);
      var after := MarkConflicted(before, heads[n]);
      forall q | q in after
        ensures exists r :: r in before && r.wire == q.wire && (q.stage == Pending ==> r == q && q.wire.key != heads[n])
                            && (q.stage == Conflicted ==> r.stage == Conflicted || r.wire.key == heads[n])
                            && (q.stage != Applied ==> r.stage != Applied)
      {
        var i :| 0 <= i < |after| && after[i] == q;
        assert before[i] in before;
      }
    }
  }

  /** A 409 answer, whatever it names. */
  lemma ConflictCalm(env: Env, c: Client, heads: seq<Key>, next: Client, arriving: Arrivals)
    requires Calm(env, c, arriving) && next == c.(outbox := MarkHeads(c.outbox, heads))
    ensures Calm(env, next, arriving) && ShadowsAdvance(c, next)
    ensures Unhindered(env, c, arriving) ==> Unhindered(env, next, arriving)
  {
    hide Ordered, MarkHeads, Basis, View, Drawable, Lone, Encloses, StaysIdle;
    MarkedUnmixed(c.outbox, heads);
    HeadsKeepBasis(c, heads, Key(Tag, ""));
    forall k ensures Basis(next, k) == Basis(c, k) {
      HeadsKeepBasis(c, heads, k);
    }
    SameRowsView(c, next);
    SettlingStaysIdle(env, c, next, arriving);
    StillLone(env, c, next, arriving);
    SameRowsEnclose(env, c, next, arriving);
    DrawableAlike(env, c, next);
    forall q | q in next.outbox && q.stage == Pending ensures ShadowVersion(next, q.wire.key) < q.wire.version {
      assert ShadowVersion(next, q.wire.key) == ShadowVersion(c, q.wire.key);
    }
  }

  // ----- runs of safe steps -----

  /** The records of a list that will be opened. */
  ghost function Awaited(env: Env, c: Client, list: seq<Pulled>): set<Pulled> {
    set p | p in list && Awaits(env, c, p.wire)
  }

  /** These records move nothing but their own entities, and each is a newer state of its entity or meets
      nothing unsent: whatever an arriving deletion takes, nothing refers to. */
  ghost predicate SafeArrivals(env: Env, c: Client, list: seq<Pulled>) {
    var arriving := Arrivals(Awaited(env, c, list), iset{});
    Lone(env, c, arriving) && Unhindered(env, c, arriving) && Encloses(env, c, arriving)
  }

  /** What a caller can tell before the step. A write announces what it does, deletes no row that others
      hang on, and its entity has no conflict parked; nothing is counted in a snippet that is shown; an
      answer is to what was sent; arriving records meet nothing pending, no second record where something
      is unsent, and delete nothing that is referred to. The keys may be any. */
  ghost predicate Safe(env: Env, c: Client, step: Step) {
    match step
    case Write(key, row, deletedAt, now) =>
      key.kind != AiAction && Honest(key, row, deletedAt) && Displaced(c.rows, key, row) == {}
      && !Holds(c.outbox, key, Conflicted) && !Drawable(env, c, key)
    case Unobserved(key, row) => false
    case Use(key, now) => key.kind != Snippet || View(c, key) == None
    case Accepted(batch, results) => Answers(c, batch, results)
    case Conflict(heads) => true
    case Page(page, now, access) => SafeArrivals(env, c, page)
    case Retry(now, access) =>
      SafeArrivals(env, c, c.parked) && forall p :: p in c.parked ==> p.wire.device != env.device
    case CatchUp(entities, keys, now, access) => true
  }

  ghost predicate AllSafe(env: Env, c: Client, steps: seq<Step>) {
    steps == []
    || (AllSafe(env, c, steps[..|steps| - 1]) && Safe(env, Run(env, c, steps[..|steps| - 1]), steps[|steps| - 1]))
  }

  /** An orderly queue and every entity at its basis. */
  ghost predicate Steady(env: Env, c: Client) {
    Orderly(env, c) && forall k :: BasisAt(c, k)
  }

  lemma SteadyCalm(env: Env, c: Client, arriving: Arrivals)
    requires Lone(env, c, arriving) && Encloses(env, c, arriving) && arriving.fall == iset{}
    ensures Steady(env, c) <==> Calm(env, c, arriving)
  {
    hide Basis, View, Orderly, Lone, Encloses;
  }

  const NOTHING_ARRIVES: Arrivals := Arrivals({}, iset{})

  lemma SteadyIsCalm(env: Env, c: Client)
    ensures Steady(env, c) <==> Calm(env, c, NOTHING_ARRIVES)
  {
    hide Basis, View, Orderly, Drawable, References;
  }

  /** Whether all is calm is not a matter of keys. */
  lemma CalmAnyAccess(env: Env, access: Access, c: Client, arriving: Arrivals)
    ensures Injective(With(env, access)) <==> Injective(env)
    ensures Calm(With(env, access), c, arriving) <==> Calm(env, c, arriving)
    ensures Unhindered(With(env, access), c, arriving) <==> Unhindered(env, c, arriving)
    ensures forall list :: Expected(With(env, access), c, list, arriving) <==> Expected(env, c, list, arriving)
  {
    hide Ordered, Ahead, Basis, View, References, Holds, MayGo, BinnedContent, Replay;
    assert forall k :: Drawable(With(env, access), c, k) <==> Drawable(env, c, k);
    assert forall w :: Awaits(With(env, access), c, w) <==> Awaits(env, c, w);
    OrderlyAnyAccess(env, access, c);
    LoneAnyAccess(env, access, c, arriving);
    EnclosesAnyAccess(env, access, c, arriving);
  }

  lemma OrderlyAnyAccess(env: Env, access: Access, c: Client)
    ensures Orderly(With(env, access), c) <==> Orderly(env, c)
  {
    hide Ordered, Ahead, Unmixed;
    assert forall k :: Drawable(With(env, access), c, k) <==> Drawable(env, c, k);
  }

  lemma LoneAnyAccess(env: Env, access: Access, c: Client, arriving: Arrivals)
    ensures Lone(With(env, access), c, arriving) <==> Lone(env, c, arriving)
  {
    hide Idle, BinnedContent, Replay;
    assert forall k :: Drawable(With(env, access), c, k) <==> Drawable(env, c, k);
    assert forall w :: Awaits(With(env, access), c, w) <==> Awaits(env, c, w);
  }

  lemma EnclosesAnyAccess(env: Env, access: Access, c: Client, arriving: Arrivals)
    ensures Encloses(With(env, access), c, arriving) <==> Encloses(env, c, arriving)
  {
    hide References, MayGo;
    assert forall k :: Drawable(With(env, access), c, k) <==> Drawable(env, c, k);
  }

  lemma SteadyAnyAccess(env: Env, access: Access, c: Client)
    ensures Steady(With(env, access), c) <==> Steady(env, c)
  {
    hide Orderly, Basis, View;
    OrderlyAnyAccess(env, access, c);
  }

  lemma WriteSafe(env: Env, c: Client, step: Step)
    requires Injective(env) && Steady(env, c) && step.Write? && Safe(env, c, step)
    ensures Steady(env, Next(env, c, step)) && Off(env, c, {}, step) == {}
  {
    hide MaxVersion, Newest, Ordered, View, Basis, Displaced, Enqueue, Drawable;
    match WriteLocally(env, c, step.key, step.row, step.deletedAt, step.now)
    case Ok(r) =>
      WriteKeepsBasis(env, c, step.key, step.row, step.deletedAt, step.now, r.0, r.1);
      var stored := c.(rows := Written(c.rows, step.key, step.row));
      EnqueueEffect(env, stored, step.key, step.deletedAt, step.now, r.0, r.1);
      EnqueueAdds(env, stored, step.key, step.deletedAt, step.now, r.0, r.1);
      DrawableAlike(env, c, r.0);
      assert forall k :: ShadowVersion(r.0, k) == ShadowVersion(c, k) == ShadowVersion(stored, k);
    case Err(_) =>
  }

  lemma PageSafe(env: Env, c: Client, page: seq<Pulled>, now: int)
    requires Injective(env) && Steady(env, c) && SafeArrivals(env, c, page)
    ensures Steady(env, PullPage(env, c, c.watermark, page, now))
    ensures CommitPage(env, c, c.watermark, page, now).Ok? ==> PageHazards(env, c, c.watermark, page, now) == {}
  {
    hide MaxVersion, Newest, Ordered, View, Basis, ApplyPage, Calm, Unhindered, Lone, Encloses, Steady;
    var arriving := Arrivals(Awaited(env, c, page), iset{});
    SteadyCalm(env, c, arriving);
    match ApplyPage(env, c, c.watermark, page, now)
    case Ok(r) =>
      PageCalm(env, c, c.watermark, page, now, r, arriving);
      UnmovedCalm(env, r.0, r.0.(watermark := r.1), arriving);
      CalmLone(env, r.0.(watermark := r.1), arriving);
      SteadyCalm(env, r.0.(watermark := r.1), arriving);
    case Err(_) =>
  }

  lemma CalmLone(env: Env, c: Client, arriving: Arrivals)
    requires Calm(env, c, arriving)
    ensures Lone(env, c, arriving) && Encloses(env, c, arriving)
  {
  }

  lemma RetrySafe(env: Env, c: Client, now: int)
    requires Injective(env) && Steady(env, c) && SafeArrivals(env, c, c.parked)
    requires forall p :: p in c.parked ==> p.wire.device != env.device
    ensures Steady(env, RetryAll(env, c, c.parked, now).0) && RetryHazards(env, c, c.parked, now) == {}
  {
    hide MaxVersion, Newest, Ordered, View, Basis, RetryAll, Calm, Unhindered, Lone, Encloses, Steady;
    var arriving := Arrivals(Awaited(env, c, c.parked), iset{});
    SteadyCalm(env, c, arriving);
    RetryCalm(env, c, c.parked, now, arriving);
    var next := RetryAll(env, c, c.parked, now).0;
    CalmLone(env, next, arriving);
    SteadyCalm(env, next, arriving);
  }

  /** Counting a use in a row that is not shown moves nothing. */
  lemma UseSafe(env: Env, c: Client, step: Step)
    requires Steady(env, c) && step.Use? && Safe(env, c, step)
    ensures Steady(env, Next(env, c, step)) && Off(env, c, {}, step) == {}
  {
    hide MaxVersion, Newest, Ordered, View, Basis;
    var next := Next(env, c, step);
    SameQueue(c, next);
    UseShows(c, step.key, step.now);
    DrawableAlike(env, c, next);
    assert forall k :: ShadowVersion(next, k) == ShadowVersion(c, k);
    assert next == c.(rows := Used(c.rows, step.key, step.now));
    forall k ensures BasisAt(next, k) {
      assert BasisAt(c, k);
    }
  }

  lemma AcceptedSafe(env: Env, c: Client, step: Step)
    requires Steady(env, c) && step.Accepted? && Safe(env, c, step)
    ensures Steady(env, Next(env, c, step)) && Off(env, c, {}, step) == {}
  {
    hide MaxVersion, Newest, Ordered, View, Basis, Ack, Calm, Answers, Steady, Orderly;
    SteadyIsCalm(env, c);
    match Ack(c, step.batch, step.results)
    case Ok(next) =>
      AcceptedCalm(env, c, step.batch, step.results, next, NOTHING_ARRIVES);
      SteadyIsCalm(env, next);
    case Err(_) => FailedAnswer(env, c, step.batch, step.results);
  }

  lemma FailedAnswer(env: Env, c: Client, batch: seq<Wire>, results: seq<PushResult>)
    requires Steady(env, c) && Answers(c, batch, results)
    ensures AckHazards(c, batch, results) == {}
  {
    hide Basis, View, Ordered, Unmixed, Drawable, Ahead;
    assert results[..|results|] == results;
    AnswersMeetNoHazard(env, c, batch, results, |results|);
  }

  lemma ConflictSafe(env: Env, c: Client, step: Step)
    requires Steady(env, c) && step.Conflict?
    ensures Steady(env, Next(env, c, step)) && Off(env, c, {}, step) == {}
  {
    hide MaxVersion, Newest, Ordered, View, Basis, Calm, MarkHeads, Steady;
    SteadyIsCalm(env, c);
    var next := Next(env, c, step);
    ConflictCalm(env, c, step.heads, next, NOTHING_ARRIVES);
    SteadyIsCalm(env, next);
  }

  /** The catch-up pass has nothing to do. */
  lemma CatchUpSafe(env: Env, c: Client, step: Step)
    requires Steady(env, c) && step.CatchUp?
    ensures Next(env, c, step) == c && Off(env, c, {}, step) == {}
  {
    hide MaxVersion, Newest, Ordered, View, Basis, Reconcile, Lists, GoneLocally, With;
    var current := With(env, step.access);
    if Lists(c, step.entities, step.keys) && Reconcile(current, c, step.entities, step.keys, step.now).Ok? {
      var r := Reconcile(current, c, step.entities, step.keys, step.now).value;
      SteadyAnyAccess(env, step.access, c);
      UntouchedQueuesNothing(current, c, step.entities, step.keys, step.now, r.0, r.1);
    }
  }

  /** Safety of arrivals is not a matter of keys either. */
  lemma ArrivalsAnyAccess(env: Env, access: Access, c: Client, list: seq<Pulled>)
    ensures SafeArrivals(With(env, access), c, list) <==> SafeArrivals(env, c, list)
  {
    hide Lone, Unhindered, Encloses, Replay;
    var arriving := Arrivals(Awaited(env, c, list), iset{});
    assert Awaited(With(env, access), c, list) == Awaited(env, c, list);
    CalmAnyAccess(env, access, c, arriving);
    LoneAnyAccess(env, access, c, arriving);
    EnclosesAnyAccess(env, access, c, arriving);
  }

  lemma SafeStep(env: Env, c: Client, step: Step)
    requires Injective(env) && Steady(env, c) && Safe(env, c, step)
    ensures Steady(env, Next(env, c, step)) && Off(env, c, {}, step) == {}
  {
    hide Steady, SafeArrivals, Answers, Displaced, Honest, Drawable, View, CommitPage, PullPage, With, WriteLocally,
         Used, Ack, MarkHeads;
    hide RetryAll, Lists, Reconcile, Injective, AckHazards, PageHazards, RetryHazards;
    match step
    case Write(_, _, _, _) => WriteSafe(env, c, step);
    case Unobserved(_, _) =>
    case Use(_, _) => UseSafe(env, c, step);
    case Accepted(_, _) => AcceptedSafe(env, c, step);
    case Conflict(_) => ConflictSafe(env, c, step);
    case Page(page, now, access) =>
      SameFooting(env, access, c, page);
      PageSafe(With(env, access), c, page, now);
      SteadyAnyAccess(env, access, PullPage(With(env, access), c, c.watermark, page, now));
    case Retry(now, access) =>
      SameFooting(env, access, c, c.parked);
      RetrySafe(With(env, access), c, now);
      SteadyAnyAccess(env, access, RetryAll(With(env, access), c, c.parked, now).0);
    case CatchUp(_, _, _, _) => CatchUpSafe(env, c, step);
  }

  lemma SameFooting(env: Env, access: Access, c: Client, list: seq<Pulled>)
    ensures With(env, access).device == env.device && (Injective(With(env, access)) <==> Injective(env))
    ensures Steady(With(env, access), c) <==> Steady(env, c)
    ensures SafeArrivals(With(env, access), c, list) <==> SafeArrivals(env, c, list)
  {
    hide Steady, SafeArrivals;
    SteadyAnyAccess(env, access, c);
    ArrivalsAnyAccess(env, access, c, list);
  }

  /** Over any run of safe steps every entity stays at its basis, and the ledger stays empty. */
  lemma {:induction false} SafeRunsKeepBasis(env: Env, c: Client, steps: seq<Step>)
    requires Injective(env) && Steady(env, c) && AllSafe(env, c, steps)
    ensures Steady(env, Run(env, c, steps)) && RunOff(env, c, {}, steps) == {}
  {
    hide Steady, Next, Off, Safe, Injective;
    if steps != [] {
      SafeRunsKeepBasis(env, c, steps[..|steps| - 1]);
      SafeStep(env, Run(env, c, steps[..|steps| - 1]), steps[|steps| - 1]);
    }
  }

  /** Whether a run is safe is not a matter of keys. */
  lemma {:induction false} SafeAnyAccess(env: Env, access: Access, c: Client, steps: seq<Step>)
    ensures AllSafe(With(env, access), c, steps) <==> AllSafe(env, c, steps)
  {
    hide Safe, Next, Run;
    if steps != [] {
      var (front, last) := (steps[..|steps| - 1], steps[|steps| - 1]);
      SafeAnyAccess(env, access, c, front);
      AnyAccess(env, access, c, front);
      StepSafeAnyAccess(env, access, Run(env, c, front), last);
    }
  }

  lemma StepSafeAnyAccess(env: Env, access: Access, c: Client, step: Step)
    ensures Safe(With(env, access), c, step) <==> Safe(env, c, step)
  {
    hide SafeArrivals, Answers, Displaced, Honest, View, With;
    SameFooting(env, access, c, match step case Page(page, _, _) => page case _ => c.parked);
    assert forall k :: Drawable(With(env, access), c, k)
                       <==> Drawable(env, c, k) by { DrawableAnyAccess(env, access, c); }
  }

  lemma DrawableAnyAccess(env: Env, access: Access, c: Client)
    ensures forall k :: Drawable(With(env, access), c, k) <==> Drawable(env, c, k)
  {
  }

  /** Safe runs follow one another. */
  lemma {:induction false} AllSafeConcat(env: Env, c: Client, first: seq<Step>, more: seq<Step>)
    requires AllSafe(env, c, first) && AllSafe(env, Run(env, c, first), more)
    ensures AllSafe(env, c, first + more)
  {
    hide Safe, Next;
    if more == [] {
      assert first + more == first;
    } else {
      var all := first + more;
      AllSafeConcat(env, c, first, more[..|more| - 1]);
      RunConcat(env, c, first, more[..|more| - 1]);
      assert all[..|all| - 1] == first + more[..|more| - 1];
    }
  }

  /** A list whose records are all among calm arrivals is safe to take. */
  lemma ExpectedSafe(env: Env, c: Client, list: seq<Pulled>, arriving: Arrivals)
    requires Lone(env, c, arriving) && Unhindered(env, c, arriving) && Encloses(env, c, arriving)
             && arriving.fall == iset{}
    requires Expected(env, c, list, arriving)
    ensures SafeArrivals(env, c, list)
  {
    hide Awaits, BinnedContent, Drawable, References, Idle;
    var fewer := Arrivals(Awaited(env, c, list), iset{});
    assert forall k :: MayGo(fewer, k) ==> MayGo(arriving, k);
  }

  // ----- rounds -----

  /** What is still to come is among the arriving records: the log past the watermark and what is parked. */
  ghost predicate Covers(env: Env, c: Client, log: seq<Wire>, arriving: Arrivals) {
    && (forall i :: c.watermark <= i < |log| && Awaits(env, c, log[i]) ==> Pulled(log[i], i + 1) in arriving.records)
    && (forall p :: p in c.parked ==> p.wire.device != env.device)
    && Expected(env, c, c.parked, arriving)
  }

  /** The other devices' records a round can still open: past the watermark, or parked. */
  ghost function OnTheirWay(env: Env, c: Client, log: seq<Wire>): (records: set<Pulled>)
    ensures forall fall :: (forall p :: p in c.parked ==> p.wire.device != env.device)
                           ==> Covers(env, c, log, Arrivals(records, fall))
  {
    (set i | c.watermark <= i < |log| && Awaits(env, c, log[i]) :: Pulled(log[i], i + 1)) + Awaited(env, c, c.parked)
  }

  /** The state a round may start from: an orderly queue, at most one record on its way for each entity
      with anything unsent, none of them a recycled snippet, and every entity at its basis but those that
      arriving deletions may move. Anything may be pending, and conflicts may be parked. */
  ghost predicate RoundReady(env: Env, c: Client, log: seq<Wire>, fall: iset<Key>) {
    && Injective(env) && (forall p :: p in c.parked ==> p.wire.device != env.device)
    && Calm(env, c, Arrivals(OnTheirWay(env, c, log), fall))
  }

  lemma CoversStays(env: Env, c: Client, next: Client, log: seq<Wire>, stored: seq<Wire>, arriving: Arrivals)
    requires Covers(env, c, log, arriving) && ShadowsAdvance(c, next) && c.drawn <= next.drawn
    requires log <= stored && forall i :: |log| <= i < |stored| ==> stored[i].device == env.device
    requires c.watermark <= next.watermark
    requires forall p :: p in next.parked
                         ==> p in c.parked || (p.wire.device != env.device
                                               && (Awaits(env, c, p.wire) ==> p in arriving.records))
    ensures Covers(env, next, stored, arriving)
  {
    StillLone(env, c, next, arriving);
  }
}
