/** The basis invariant over every run of one device. */
module SyncTrace {
  import opened Wrappers
  import opened Merge
  import opened SyncModel
  import opened SyncOutbox
  import opened SyncBasis
  import opened SyncRuns
  import opened SyncPull
  import opened SyncReconcile

  // ----- retrying parked records -----

  ghost function RetryHazards(env: Env, c: Client, list: seq<Pulled>, now: int): set<Key> {
    if list == [] then {}
    else
      var p := list[|list| - 1];
      var before := RetryAll(env, c, list[..|list| - 1], now).0;
      var fate := RetryOne(env, before, p, now).1;
      RetryHazards(env, c, list[..|list| - 1], now) + (if fate.Retried? then Hazard(env, before, p.wire, true) else {})
  }

  lemma RetryOneKeepsBasis(env: Env, c: Client, p: Pulled, now: int, next: Client, fate: RetryFate)
    requires Ordered(c.outbox) && RetryOne(env, c, p, now) == (next, fate)
    ensures Ordered(next.outbox) && next.watermark == c.watermark && ShadowsAdvance(c, next)
    ensures forall k :: BasisAt(c, k) && !(fate.Retried? && k in Hazard(env, c, p.wire, true)) ==> BasisAt(next, k)
  {
    hide MaxVersion, Newest, Ordered, Land, Lands, Fallout;
    match Land(env, c, p.wire, now, true)
    case Ok(landed) => LandKeepsBasis(env, c, p.wire, now, true, landed.0, landed.1);
    case Err(_) =>
  }

  lemma {:induction false} RetryKeepsBasis(env: Env, c: Client, list: seq<Pulled>, now: int)
    requires Ordered(c.outbox)
    ensures Ordered(RetryAll(env, c, list, now).0.outbox) && ShadowsAdvance(c, RetryAll(env, c, list, now).0)
    ensures forall k :: BasisAt(c, k) && k !in RetryHazards(env, c, list, now)
                        ==> BasisAt(RetryAll(env, c, list, now).0, k)
  {
    hide MaxVersion, Newest, Ordered, RetryOne, View, Basis, Hazard;
    if list != [] {
      RetryKeepsBasis(env, c, list[..|list| - 1], now);
      var before := RetryAll(env, c, list[..|list| - 1], now).0;
      var r := RetryOne(env, before, list[|list| - 1], now);
      RetryOneKeepsBasis(env, before, list[|list| - 1], now, r.0, r.1);
    }
  }

  // ----- runs -----

  /** Everything that can happen to one device's database. The remote side is unconstrained: answers
      and pages may be anything at all. Whatever opens records does so with the access of that moment. */
  datatype Step =
    | Write(key: Key, row: Option<Doc>, deletedAt: Option<int>, now: int)
    | Unobserved(key: Key, row: Option<Doc>)
    | Use(key: Key, now: int)
    | Accepted(batch: seq<Wire>, results: seq<PushResult>)
    | Conflict(heads: seq<Key>)
    | Page(page: seq<Pulled>, now: int, access: Access)
    | Retry(now: int, access: Access)
    | CatchUp(entities: seq<Key>, keys: seq<Key>, now: int, access: Access)

  function Counted(doc: Doc, now: int): Doc {
    var uses := if Lookup(doc, "usage_count").Num? then Lookup(doc, "usage_count").n else 0;
    doc["usage_count" := Num(uses + 1)]["last_used_at" := Num(now)]
  }

  /** Inserting or copying a snippet counts the use in its row and announces nothing. */
  function Used(rows: map<Key, Doc>, key: Key, now: int): map<Key, Doc> {
    if key.kind == Snippet && key in rows then rows[key := Counted(rows[key], now)] else rows
  }

  /** One step in its own transaction: a failure leaves the database as it was. */
  ghost function Next(env: Env, c: Client, step: Step): Client {
    match step
    case Write(key, row, deletedAt, now) =>
      (match WriteLocally(env, c, key, row, deletedAt, now) case Ok(r) => r.0 case Err(_) => c)
    case Unobserved(key, row) => c.(rows := Written(c.rows, key, row))
    case Use(key, now) => c.(rows := Used(c.rows, key, now))
    case Accepted(batch, results) => (match Ack(c, batch, results) case Ok(next) => next case Err(_) => c)
    case Conflict(heads) => c.(outbox := MarkHeads(c.outbox, heads))
    case Page(page, now, access) => PullPage(With(env, access), c, c.watermark, page, now)
    case Retry(now, access) => RetryAll(With(env, access), c, c.parked, now).0
    case CatchUp(entities, keys, now, access) =>
      if Lists(c, entities, keys)
        then (match Reconcile(With(env, access), c, entities, keys, now) case Ok(r) => r.0 case Err(_) => c)
      else c
  }

  /** A change announced as what it is: a deletion for a row that is gone or recycled. */
  predicate Honest(key: Key, row: Option<Doc>, deletedAt: Option<int>) {
    deletedAt.Some? <==> !(row.Some? && Live(key, row.value))
  }

  /** The entities whose basis may be off. Hazards add to it; an announced write and the catch-up
      pass take back out what they repair. */
  ghost function Off(env: Env, c: Client, off: set<Key>, step: Step): set<Key> {
    match step
    case Write(key, row, deletedAt, now) =>
      (match WriteLocally(env, c, key, row, deletedAt, now)
       case Ok(r) =>
         (if r.1 && Honest(key, row, deletedAt) then off - {key} else off + {key}) + Displaced(c.rows, key, row)
       case Err(_) => off)
    case Unobserved(key, row) => off + {key} + Displaced(c.rows, key, row)
    case Use(key, _) => if key.kind == Snippet && View(c, key).Some? then off + {key} else off
    case Accepted(batch, results) => off + AckHazards(c, batch, results)
    case Conflict(_) => off
    case Page(page, now, access) =>
      if CommitPage(With(env, access), c, c.watermark, page, now).Ok?
      then off + PageHazards(With(env, access), c, c.watermark, page, now) else off
    case Retry(now, access) => off + RetryHazards(With(env, access), c, c.parked, now)
    case CatchUp(entities, keys, now, access) =>
      if Lists(c, entities, keys) && Reconcile(With(env, access), c, entities, keys, now).Ok?
      then set k | k in off && !(k in entities
                                 || (k in c.shadows && c.shadows[k].doc.Some? && View(c, k) == None
                                     && k.kind != AiAction))
      else off
  }

  ghost function Run(env: Env, c: Client, steps: seq<Step>): Client {
    if steps == [] then c
    else Next(env, Run(env, c, steps[..|steps| - 1]), steps[|steps| - 1])
  }

  ghost function RunOff(env: Env, c: Client, off: set<Key>, steps: seq<Step>): set<Key> {
    if steps == [] then off
    else Off(env, Run(env, c, steps[..|steps| - 1]), RunOff(env, c, off, steps[..|steps| - 1]), steps[|steps| - 1])
  }

  /** The state every run keeps: ordered outbox, and each entity outside the set at its basis. */
  ghost predicate Sound(c: Client, off: set<Key>) {
    Ordered(c.outbox) && forall k :: k !in off ==> BasisAt(c, k)
  }

  lemma WriteSound(env: Env, c: Client, off: set<Key>, step: Step)
    requires Sound(c, off) && step.Write?
    ensures Sound(Next(env, c, step), Off(env, c, off, step))
  {
    hide MaxVersion, Newest, Ordered, View, Basis, WriteLocally, Displaced;
    match WriteLocally(env, c, step.key, step.row, step.deletedAt, step.now)
    case Ok(r) => WriteKeepsBasis(env, c, step.key, step.row, step.deletedAt, step.now, r.0, r.1);
    case Err(_) =>
  }

  lemma AcceptedSound(env: Env, c: Client, off: set<Key>, step: Step)
    requires Sound(c, off) && step.Accepted?
    ensures Sound(Next(env, c, step), Off(env, c, off, step))
  {
    hide MaxVersion, Newest, Ordered, Basis, Ack;
    match Ack(c, step.batch, step.results)
    case Ok(next) => AckKeepsBasis(c, step.batch, step.results, next);
    case Err(_) =>
  }

  lemma ConflictSound(env: Env, c: Client, off: set<Key>, step: Step)
    requires Sound(c, off) && step.Conflict?
    ensures Sound(Next(env, c, step), Off(env, c, off, step))
  {
    hide MaxVersion, Newest, Ordered, Basis, MarkHeads;
    HeadsKeepBasis(c, step.heads, Key(Tag, ""));
    forall k | k !in off ensures BasisAt(Next(env, c, step), k) {
      HeadsKeepBasis(c, step.heads, k);
    }
  }

  lemma PageSound(env: Env, c: Client, off: set<Key>, step: Step)
    requires Sound(c, off) && step.Page?
    ensures Sound(Next(env, c, step), Off(env, c, off, step))
  {
    hide MaxVersion, Newest, Ordered, ApplyPage, With;
    match ApplyPage(With(env, step.access), c, c.watermark, step.page, step.now)
    case Ok(r) => PageKeepsBasis(With(env, step.access), c, c.watermark, step.page, step.now, r);
    case Err(_) =>
  }

  lemma CatchUpSound(env: Env, c: Client, off: set<Key>, step: Step)
    requires Sound(c, off) && step.CatchUp?
    ensures Sound(Next(env, c, step), Off(env, c, off, step))
  {
    hide MaxVersion, Newest, Ordered, Basis, Reconcile, Lists, With;
    var now := With(env, step.access);
    if Lists(c, step.entities, step.keys) && Reconcile(now, c, step.entities, step.keys, step.now).Ok? {
      var r := Reconcile(now, c, step.entities, step.keys, step.now).value;
      ReconcileRestores(now, c, step.entities, step.keys, step.now, r.0, r.1, Key(Tag, ""));
      forall k | k !in Off(env, c, off, step) ensures BasisAt(r.0, k) {
        ReconcileRestores(now, c, step.entities, step.keys, step.now, r.0, r.1, k);
      }
    }
  }

  lemma UseSound(env: Env, c: Client, off: set<Key>, step: Step)
    requires Sound(c, off) && step.Use?
    ensures Sound(Next(env, c, step), Off(env, c, off, step))
  {
    hide MaxVersion, Newest, Ordered, Basis;
    SameQueue(c, Next(env, c, step));
    UseShows(c, step.key, step.now);
  }

  /** A use changes what is shown of a snippet outside the recycle bin, and of nothing else. */
  lemma UseShows(c: Client, key: Key, now: int)
    ensures var next := c.(rows := Used(c.rows, key, now));
            && (forall k :: k != key ==> View(next, k) == View(c, k))
            && (View(next, key) == View(c, key) <==> key.kind != Snippet || View(c, key) == None)
  {
    if key in c.rows {
      var (doc, after) := (c.rows[key], Counted(c.rows[key], now));
      assert Lookup(after, "deleted_at") == Lookup(doc, "deleted_at");
      assert Lookup(after, "usage_count") != Lookup(doc, "usage_count");
    }
  }

  /** Every use of a snippet that is shown takes it off its basis: nothing tells the outbox. */
  lemma UseUnannounced(env: Env, c: Client, key: Key, now: int)
    requires key.kind == Snippet && BasisAt(c, key)
    ensures BasisAt(Next(env, c, Use(key, now)), key) <==> View(c, key) == None
  {
    hide MaxVersion, Newest, Basis;
    SameQueue(c, Next(env, c, Use(key, now)));
    UseShows(c, key, now);
  }

  lemma StepSound(env: Env, c: Client, off: set<Key>, step: Step)
    requires Sound(c, off)
    ensures Sound(Next(env, c, step), Off(env, c, off, step))
  {
    hide MaxVersion, Newest, Ordered, Basis;
    match step
    case Write(_, _, _, _) => WriteSound(env, c, off, step);
    case Unobserved(key, row) =>
      SameQueue(c, Next(env, c, step));
      WrittenMoves(c, key, row);
    case Use(_, _) => UseSound(env, c, off, step);
    case Accepted(_, _) => AcceptedSound(env, c, off, step);
    case Conflict(_) => ConflictSound(env, c, off, step);
    case Page(_, _, _) => PageSound(env, c, off, step);
    case Retry(now, access) => RetryKeepsBasis(With(env, access), c, c.parked, now);
    case CatchUp(_, _, _, _) => CatchUpSound(env, c, off, step);
  }

  lemma SameQueue(c: Client, next: Client)
    requires next.outbox == c.outbox && next.shadows == c.shadows
    ensures forall k :: Basis(next, k) == Basis(c, k)
  {
  }

  /** Over every run, against any server and whatever keys arrive on the way, the entities no hazard touched
      are at their basis. */
  lemma {:induction false} RunsKeepBasis(env: Env, c: Client, off: set<Key>, steps: seq<Step>)
    requires Sound(c, off)
    ensures Sound(Run(env, c, steps), RunOff(env, c, off, steps))
  {
    hide Sound, Next, Off;
    if steps != [] {
      RunsKeepBasis(env, c, off, steps[..|steps| - 1]);
      StepSound(env, Run(env, c, steps[..|steps| - 1]), RunOff(env, c, off, steps[..|steps| - 1]), steps[|steps| - 1]);
    }
  }

  /** A run continues where the one before it ended. */
  lemma {:induction false} RunConcat(env: Env, c: Client, first: seq<Step>, more: seq<Step>)
    ensures Run(env, c, first + more) == Run(env, Run(env, c, first), more)
  {
    hide Next;
    if more == [] {
      assert first + more == first;
    } else {
      RunConcat(env, c, first, more[..|more| - 1]);
      assert (first + more)[..|first + more| - 1] == first + more[..|more| - 1];
    }
  }

  /** A run does not depend on the access its surroundings happen to carry: each step brings its own. */
  lemma {:induction false} AnyAccess(env: Env, access: Access, c: Client, steps: seq<Step>)
    ensures Run(With(env, access), c, steps) == Run(env, c, steps)
  {
    hide Next;
    if steps != [] {
      AnyAccess(env, access, c, steps[..|steps| - 1]);
      StepAnyAccess(env, access, Run(env, c, steps[..|steps| - 1]), steps[|steps| - 1]);
    }
  }

  lemma StepAnyAccess(env: Env, access: Access, c: Client, step: Step)
    ensures Next(With(env, access), c, step) == Next(env, c, step)
  {
    hide MaxVersion, NextVersion, Written, Ack, MarkHeads, PullPage, RetryAll, Reconcile, Lists;
  }
}
