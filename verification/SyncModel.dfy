/** The sync client as values: local rows, outbox, shadow bases, parked records and the pull
    watermark, with one function per database operation of the engine (crates/sync/src/engine.rs,
    crates/core/src/repo/sync_outbox_repo.rs, crates/core/src/repo/sync_state_repo.rs). */
module SyncModel {
  import opened Wrappers
  import opened Merge

  datatype Kind = Snippet | TemplateField | Folder | Tag | SnippetTag | AppRule | AiAction

  datatype Key = Key(kind: Kind, id: string)

  /** What a record opens to: the sealed document, or a deletion. */
  datatype Body = Content(doc: Doc) | Tombstone(at: int)

  datatype Wire = Wire(id: string, key: Key, version: nat, body: Body, updatedAt: int, device: string)

  datatype Stage = Pending | Conflicted | Applied

  /** An outbox row; the sequence position is its rowid order. */
  datatype Queued = Queued(wire: Wire, stage: Stage, serverSeq: Option<int>)

  datatype Shadow = Shadow(version: nat, doc: Option<Doc>)

  datatype Pulled = Pulled(wire: Wire, serverSeq: nat)

  datatype Client = Client(
    rows: map<Key, Doc>,
    outbox: seq<Queued>,
    shadows: map<Key, Shadow>,
    parked: seq<Pulled>,
    watermark: nat,
    drawn: nat)

  datatype SyncError = CursorViolation | RepoFailure | RecordFailure | MissingKey

  datatype Verdict = Opens | UnknownKey | PayloadAhead | Rejected

  /** What a device can verify and open at one time: its sync key, its trust state and key generations, and
      the predecessor root during a recovery. All three change as key updates and directories arrive. */
  datatype Access = Access(
    hasKey: bool,
    verdict: Wire -> Verdict,
    fallback: Wire -> bool)

  /** Everything the engine asks of code outside it, as arbitrary functions: the access it has, whether the
      tables accept a document or a deletion, whether a document can be sealed, and the supply of fresh ids. */
  datatype Env = Env(
    device: string,
    deviceName: string,
    access: Access,
    applies: (map<Key, Doc>, Key, Doc) -> bool,
    removes: (map<Key, Doc>, Key) -> bool,
    seals: (Key, Doc) -> bool,
    uuid: nat -> string)

  /** The same device with other keys or another trust state. */
  function With(env: Env, access: Access): Env {
    env.(access := access)
  }

  // ----- local rows -----

  /** Only snippets have a recycle bin. */
  predicate Live(key: Key, doc: Doc) {
    key.kind == Snippet ==> !Lookup(doc, "deleted_at").Num?
  }

  /** The local document as the library shows it: a row that is not in the recycle bin. */
  function View(c: Client, key: Key): Option<Doc> {
    if key in c.rows && Live(key, c.rows[key]) then Some(c.rows[key]) else None
  }

  /** The entity of this kind a text field names, when it names one. */
  function Named(kind: Kind, doc: Doc, field: string): set<Key> {
    if Lookup(doc, field).Str? then {Key(kind, Lookup(doc, field).s)} else {}
  }

  /** The rows a row cannot outlive (ON DELETE CASCADE). */
  function Owners(key: Key, doc: Doc): set<Key> {
    match key.kind
    case Folder => Named(Folder, doc, "parent_id")
    case SnippetTag => Named(Snippet, doc, "snippet_id") + Named(Tag, doc, "tag_id")
    case TemplateField => Named(Snippet, doc, "snippet_id")
    case AppRule => Named(Snippet, doc, "snippet_id")
    case _ => {}
  }

  /** Everything deleted with these rows: what they own, what that owns, and so on. */
  function Felled(rows: map<Key, Doc>, gone: set<Key>): set<Key>
    decreases rows.Keys - gone
  {
    var more := set k | k in rows && k !in gone && Owners(k, rows[k]) * gone != {};
    if more == {} then gone else Felled(rows, gone + more)
  }

  function Cleared(doc: Doc, field: string, kind: Kind, gone: set<Key>): Doc {
    if Named(kind, doc, field) * gone != {} then doc[field := Null] else doc
  }

  /** A snippet that outlives its folder or the source of a conflict copy loses the reference
      (ON DELETE SET NULL). */
  function Unlinked(key: Key, doc: Doc, gone: set<Key>): Doc {
    if key.kind == Snippet then Cleared(Cleared(doc, "folder_id", Folder, gone), "conflict_of", Snippet, gone) else doc
  }

  /** The tables after a row is deleted with everything the schema takes along. */
  function Removed(rows: map<Key, Doc>, key: Key): map<Key, Doc> {
    if key !in rows then rows
    else
      var gone := Felled(rows, {key});
      map k | k in rows && k !in gone :: Unlinked(k, rows[k], gone)
  }

  datatype Built = Built(doc: Doc) | Missing | Unsupported

  function Build(rows: map<Key, Doc>, key: Key): Built {
    if key.kind == AiAction then Unsupported
    else if key in rows then Built(rows[key])
    else Missing
  }

  datatype ApplyError = NoApplyPath | Refused

  function ApplyDocument(env: Env, rows: map<Key, Doc>, key: Key, doc: Doc): Result<map<Key, Doc>, ApplyError> {
    if key.kind == AiAction then Err(NoApplyPath)
    else if !env.applies(rows, key, doc) then Err(Refused)
    else Ok(rows[key := doc])
  }

  function Binned(doc: Doc, at: int): Doc {
    doc["deleted_at" := Num(at)]
  }

  /** Recycle bin for a live snippet, removal with its cascade for everything else; already gone is
      success. */
  function ApplyTombstone(env: Env, rows: map<Key, Doc>, key: Key, at: int): Result<map<Key, Doc>, ApplyError> {
    if key.kind == AiAction then Err(NoApplyPath)
    else if key.kind == Snippet then
      Ok(if key in rows && Live(key, rows[key]) then rows[key := Binned(rows[key], at)] else rows)
    else if !env.removes(rows, key) then Err(Refused)
    else Ok(Removed(rows, key))
  }

  // ----- outbox -----

  function MaxVersion(outbox: seq<Queued>, key: Key): (v: nat)
    ensures forall q :: q in outbox && q.wire.key == key ==> q.wire.version <= v
    ensures v == 0 || exists q :: q in outbox && q.wire.key == key && q.wire.version == v
  {
    if outbox == [] then 0
    else
      var last := outbox[|outbox| - 1];
      var rest := MaxVersion(outbox[..|outbox| - 1], key);
      if last.wire.key == key && rest <= last.wire.version then last.wire.version else rest
  }

  /** The highest-version record of an entity among the given stages. */
  function Newest(outbox: seq<Queued>, key: Key, stages: set<Stage>): (head: Option<Queued>)
    ensures head.Some? ==> head.value in outbox && head.value.wire.key == key && head.value.stage in stages
    ensures forall q :: q in outbox && q.wire.key == key && q.stage in stages
                        ==> head.Some? && q.wire.version <= head.value.wire.version
  {
    if outbox == [] then None
    else
      var last := outbox[|outbox| - 1];
      var rest := Newest(outbox[..|outbox| - 1], key, stages);
      if last.wire.key == key && last.stage in stages && (rest.None? || rest.value.wire.version <= last.wire.version)
      then Some(last) else rest
  }

  const QUEUED: set<Stage> := {Pending, Conflicted}

  function ShadowVersion(c: Client, key: Key): nat {
    if key in c.shadows then c.shadows[key].version else 0
  }

  /** One beyond the shadow head and every outbox version of the entity. */
  function NextVersion(c: Client, key: Key): nat {
    Max(MaxVersion(c.outbox, key), ShadowVersion(c, key)) + 1
  }

  predicate Holds(outbox: seq<Queued>, key: Key, stage: Stage) {
    exists q :: q in outbox && q.wire.key == key && q.stage == stage
  }

  function MarkConflicted(outbox: seq<Queued>, key: Key): seq<Queued> {
    seq(|outbox|, i requires 0 <= i < |outbox| =>
      if outbox[i].wire.key == key && outbox[i].stage == Pending then outbox[i].(stage := Conflicted) else outbox[i])
  }

  function ClearConflicts(outbox: seq<Queued>, key: Key): (kept: seq<Queued>)
    ensures forall q :: q in kept <==> q in outbox && !(q.wire.key == key && q.stage == Conflicted)
  {
    if outbox == [] then []
    else
      var last := outbox[|outbox| - 1];
      var rest := ClearConflicts(outbox[..|outbox| - 1], key);
      assert outbox == outbox[..|outbox| - 1] + [last];
      if last.wire.key == key && last.stage == Conflicted then rest else rest + [last]
  }

  /** Settles the pending record with this id; there must be one. */
  function MarkApplied(outbox: seq<Queued>, id: string, serverSeq: int): Result<seq<Queued>, SyncError> {
    if exists q :: q in outbox && q.wire.id == id && q.stage == Pending then
      Ok(seq(|outbox|, i requires 0 <= i < |outbox| =>
        if outbox[i].wire.id == id && outbox[i].stage == Pending
        then outbox[i].(stage := Applied, serverSeq := Some(serverSeq)) else outbox[i]))
    else Err(RepoFailure)
  }

  function PutShadow(c: Client, key: Key, version: nat, doc: Option<Doc>): Result<Client, SyncError> {
    if version > I64_MAX then Err(RepoFailure)
    else Ok(c.(shadows := c.shadows[key := Shadow(version, doc)]))
  }

  // ----- sealing a change into the outbox -----

  function SealedBody(env: Env, c: Client, key: Key, deletedAt: Option<int>): Result<Option<Body>, SyncError> {
    match deletedAt
    case Some(at) => if at < 0 then Err(RecordFailure) else Ok(Some(Tombstone(at)))
    case None =>
      match Build(c.rows, key)
      case Built(doc) => if env.seals(key, doc) then Ok(Some(Content(doc))) else Err(RecordFailure)
      case _ => Ok(None)
  }

  /** Seals one local change; the flag says whether there was anything to seal. */
  function Enqueue(env: Env, c: Client, key: Key, deletedAt: Option<int>, now: int): Result<(Client, bool), SyncError> {
    var body :- SealedBody(env, c, key, deletedAt);
    match body
    case None => Ok((c, false))
    case Some(b) =>
      var version := NextVersion(c, key);
      var id := env.uuid(c.drawn);
      if key.id == "" || version > I64_MAX || exists q :: q in c.outbox && q.wire.id == id then Err(RepoFailure)
      else
        Ok((c.(outbox := c.outbox + [Queued(Wire(id, key, version, b, now, env.device), Pending, None)],
               drawn := c.drawn + 1), true))
  }

  // ----- conflict resolution -----

  function FromApply<T>(r: Result<T, ApplyError>): Result<T, SyncError> {
    match r
    case Ok(v) => Ok(v)
    case Err(_) => Err(RepoFailure)
  }

  /** Recycles a live snippet; a missing or already recycled one is not found. */
  function SoftDelete(rows: map<Key, Doc>, key: Key, at: int): Result<map<Key, Doc>, SyncError> {
    if key in rows && Live(key, rows[key]) then Ok(rows[key := Binned(rows[key], at)]) else Err(RepoFailure)
  }

  /** Adopts the incoming record as the shadow base and drops the entity's parked conflict. */
  function Settle(c: Client, w: Wire): Result<Client, SyncError> {
    var next :- PutShadow(c, w.key, w.version, BodyDoc(w.body));
    Ok(next.(outbox := ClearConflicts(next.outbox, w.key)))
  }

  function BodyDoc(body: Body): Option<Doc> {
    match body
    case Content(doc) => Some(doc)
    case Tombstone(_) => None
  }

  /** Rule 3: the local body under a fresh identity, queued like any new snippet. */
  function CreateCopy(env: Env, c: Client, key: Key, localEntity: Doc, now: int): Result<(Client, string), SyncError> {
    if !env.access.hasKey then Err(MissingKey)
    else
      var copyId := env.uuid(c.drawn);
      var folder := if key.kind == Snippet && key in c.rows then Lookup(c.rows[key], "folder_id") else Null;
      match ConflictCopy(localEntity, folder, copyId, env.deviceName, now)
      case Err(_) => Err(RecordFailure)
      case Ok(copy) =>
        var copyKey := Key(Snippet, copyId);
        var rows :- FromApply(ApplyDocument(env, c.rows, copyKey, copy));
        var queued :- Enqueue(env, c.(rows := rows, drawn := c.drawn + 1), copyKey, None, now);
        Ok((queued.0, copyId))
  }

  /** Local deletion against a remote edit: the edit reaches the bin, the deletion is queued again. */
  function KeepDeletion(env: Env, c: Client, w: Wire, doc: Doc, at: int, now: int): Result<Client, SyncError> {
    var rows :-
      if w.key.kind == Snippet then
        var edited :- FromApply(ApplyDocument(env, c.rows, w.key, doc));
        SoftDelete(edited, w.key, at)
      else Ok(c.rows);
    var settled :- Settle(c.(rows := rows), w);
    var queued :- Enqueue(env, settled, w.key, Some(at), now);
    Ok(queued.0)
  }

  /** Edit against edit: three-way merge, queued again past the server head. */
  function MergeEdits(env: Env, c: Client, w: Wire, doc: Doc, local: Doc, localUpdatedAt: int, now: int, makeCopy: bool)
    : Result<(Client, Option<string>), SyncError>
  {
    var base := if w.key in c.shadows then c.shadows[w.key].doc else None;
    match Merged(w.key.kind == Snippet, base, Side(local, localUpdatedAt, env.device), Side(doc, w.updatedAt, w.device))
    case Err(_) => Err(RecordFailure)
    case Ok(outcome) =>
      var rows :- FromApply(ApplyDocument(env, c.rows, w.key, outcome.doc));
      var applied := c.(rows := rows);
      var copied :-
        if outcome.bodyConflict && makeCopy then
          var r :- CreateCopy(env, applied, w.key, local, now);
          Ok((r.0, Some(r.1)))
        else Ok((applied, None));
      var settled :- Settle(copied.0, w);
      var queued :- Enqueue(env, settled, w.key, None, now);
      Ok((queued.0, copied.1))
  }

  function MergeConflicted(env: Env, c: Client, w: Wire, head: Queued, now: int, makeCopy: bool)
    : Result<(Client, Option<string>), SyncError>
  {
    if !env.access.hasKey then Err(MissingKey)
    else
      match (w.body, head.wire.body)
      case (Tombstone(at), _) =>
        var rows :- FromApply(ApplyTombstone(env, c.rows, w.key, at));
        var settled :- Settle(c.(rows := rows), w);
        Ok((settled, None))
      case (Content(doc), Tombstone(at)) =>
        var kept :- KeepDeletion(env, c, w, doc, at, now);
        Ok((kept, None))
      case (Content(doc), Content(_)) =>
        match Build(c.rows, w.key)
        case Unsupported => Err(RecordFailure)
        case Missing =>
          var rows :- FromApply(ApplyDocument(env, c.rows, w.key, doc));
          var settled :- Settle(c.(rows := rows), w);
          Ok((settled, None))
        case Built(local) => MergeEdits(env, c, w, doc, local, head.wire.updatedAt, now, makeCopy)
  }

  // ----- applying pulled records -----

  /** What became of one pulled record; each fate is one counter of the report. */
  datatype Fate = Own | Replayed | Parked | Rejected' | AppliedPlain | MergedIn(copy: Option<string>) | Failed

  predicate Replay(c: Client, w: Wire) {
    w.key in c.shadows && w.version <= c.shadows[w.key].version
  }

  /** What the record tables take: a named entity and a version in signed 64 bits. */
  predicate Storable(w: Wire) {
    w.key.id != "" && w.version <= I64_MAX
  }

  /** Keeps a record for later; one that cannot be stored fails the whole page. */
  function Park(c: Client, p: Pulled): Result<Client, SyncError> {
    if p.serverSeq > I64_MAX then Err(CursorViolation)
    else if !Storable(p.wire) then Err(RepoFailure)
    else if exists q :: q in c.parked && (q.wire.id == p.wire.id || q.serverSeq == p.serverSeq) then Ok(c)
    else Ok(c.(parked := c.parked + [p]))
  }

  function Unpark(parked: seq<Pulled>, id: string): (kept: seq<Pulled>)
    ensures forall p :: p in kept <==> p in parked && p.wire.id != id
  {
    if parked == [] then []
    else
      var last := parked[|parked| - 1];
      assert parked == parked[..|parked| - 1] + [last];
      Unpark(parked[..|parked| - 1], id) + (if last.wire.id == id then [] else [last])
  }

  function ApplyOpened(env: Env, c: Client, w: Wire): Result<Client, ApplyError> {
    var rows :-
      match w.body
      case Content(doc) => ApplyDocument(env, c.rows, w.key, doc)
      case Tombstone(at) => ApplyTombstone(env, c.rows, w.key, at);
    match PutShadow(c.(rows := rows), w.key, w.version, BodyDoc(w.body))
    case Ok(next) => Ok(next)
    case Err(_) => Err(Refused)
  }

  predicate OpensNow(env: Env, w: Wire) {
    env.access.verdict(w) == Opens || (env.access.verdict(w) == Rejected && env.access.fallback(w))
  }

  /** Merge or plain application of a verified record; a failure leaves no trace. */
  function Land(env: Env, c: Client, w: Wire, now: int, makeCopy: bool): Result<(Client, Fate), ApplyError> {
    match Newest(c.outbox, w.key, {Conflicted})
    case Some(head) =>
      (match MergeConflicted(env, c, w, head, now, makeCopy)
       case Ok(r) => Ok((r.0.(parked := Unpark(r.0.parked, w.id)), MergedIn(r.1)))
       case Err(_) => Err(Refused))
    case None =>
      (match ApplyOpened(env, c, w)
       case Ok(next) => Ok((next.(parked := Unpark(next.parked, w.id)), AppliedPlain))
       case Err(e) => Err(e))
  }

  function ApplyOne(env: Env, c: Client, p: Pulled, now: int, makeCopy: bool): Result<(Client, Fate), SyncError> {
    var w := p.wire;
    if w.device == env.device then Ok((c, Own))
    else if Replay(c, w) then Ok((c, Replayed))
    else if env.access.verdict(w) in {UnknownKey, PayloadAhead} then
      var next :- Park(c, p);
      Ok((next, Parked))
    else if !OpensNow(env, w) then Ok((c, Rejected'))
    else
      match Land(env, c, w, now, makeCopy)
      case Ok(landed) => Ok(landed)
      case Err(NoApplyPath) =>
        var next :- Park(c, p);
        Ok((next, Parked))
      case Err(Refused) => Ok((c, Failed))
  }

  /** One page under the strictly increasing cursor; any violation aborts all of it. */
  function ApplyPage(env: Env, c: Client, cursor: nat, page: seq<Pulled>, now: int)
    : (r: Result<(Client, nat, seq<Fate>), SyncError>)
    ensures r.Ok? ==> |r.value.2| == |page|
  {
    if page == [] then Ok((c, cursor, []))
    else
      var before :- ApplyPage(env, c, cursor, page[..|page| - 1], now);
      var p := page[|page| - 1];
      if p.serverSeq <= before.1 then Err(CursorViolation)
      else
        var after :- ApplyOne(env, before.0, p, now, true);
        Ok((after.0, p.serverSeq, before.2 + [after.1]))
  }

  /** The page and its watermark, or nothing. */
  function CommitPage(env: Env, c: Client, watermark: nat, page: seq<Pulled>, now: int)
    : Result<(Client, nat, seq<Fate>), SyncError>
  {
    var applied :- ApplyPage(env, c, watermark, page, now);
    if applied.1 > I64_MAX then Err(CursorViolation)
    else if applied.0.watermark > applied.1 then Err(RepoFailure)
    else Ok((applied.0.(watermark := applied.1), applied.1, applied.2))
  }

  // ----- retrying parked records -----

  datatype RetryFate = Released | Blocked | Retried(fate: Fate)

  function RetryOne(env: Env, c: Client, p: Pulled, now: int): (Client, RetryFate) {
    var w := p.wire;
    if Replay(c, w) then (c.(parked := Unpark(c.parked, w.id)), Released)
    else if env.access.verdict(w) != Opens && !env.access.fallback(w) then (c, Blocked)
    else
      match Land(env, c, w, now, true)
      case Ok(landed) => (landed.0, Retried(landed.1))
      case Err(_) => (c, Blocked)
  }

  function RetryAll(env: Env, c: Client, list: seq<Pulled>, now: int): (Client, seq<RetryFate>) {
    if list == [] then (c, [])
    else
      var before := RetryAll(env, c, list[..|list| - 1], now);
      var after := RetryOne(env, before.0, list[|list| - 1], now);
      (after.0, before.1 + [after.1])
  }

  // ----- push answers -----

  datatype PushResult = PushResult(id: string, serverSeq: int)

  /** The record of a batch under an id, as the batch index knows it. */
  function FindWire(batch: seq<Wire>, id: string): (w: Option<Wire>)
    ensures w.Some? ==> w.value in batch && w.value.id == id
    ensures w.None? ==> forall x :: x in batch ==> x.id != id
  {
    if batch == [] then None
    else if batch[|batch| - 1].id == id then Some(batch[|batch| - 1])
    else FindWire(batch[..|batch| - 1], id)
  }

  function AckOne(c: Client, batch: seq<Wire>, result: PushResult): Result<Client, SyncError> {
    var outbox :- MarkApplied(c.outbox, result.id, result.serverSeq);
    match FindWire(batch, result.id)
    case None => Ok(c.(outbox := outbox))
    case Some(w) => PutShadow(c.(outbox := outbox), w.key, w.version, BodyDoc(w.body))
  }

  /** Settles an accepted batch in one transaction. */
  function Ack(c: Client, batch: seq<Wire>, results: seq<PushResult>): Result<Client, SyncError> {
    if results == [] then Ok(c)
    else
      var before :- Ack(c, batch, results[..|results| - 1]);
      AckOne(before, batch, results[|results| - 1])
  }

  /** Parks every entity a 409 answer names. */
  function MarkHeads(outbox: seq<Queued>, heads: seq<Key>): seq<Queued> {
    if heads == [] then outbox
    else MarkConflicted(MarkHeads(outbox, heads[..|heads| - 1]), heads[|heads| - 1])
  }

  // ----- the invariant every operation keeps -----

  /** Record ids are unique and each entity's versions ascend in queue order. */
  ghost predicate Ordered(outbox: seq<Queued>) {
    forall i, j :: 0 <= i < j < |outbox| ==>
                     outbox[i].wire.id != outbox[j].wire.id
                     && (outbox[i].wire.key == outbox[j].wire.key ==> outbox[i].wire.version < outbox[j].wire.version)
  }

  /** Each entity's newest unsent document, or its shadow document when nothing is unsent. */
  function Basis(c: Client, key: Key): Option<Doc> {
    match Newest(c.outbox, key, QUEUED)
    case Some(q) => BodyDoc(q.wire.body)
    case None => if key in c.shadows then c.shadows[key].doc else None
  }

  predicate BasisAt(c: Client, key: Key) {
    View(c, key) == Basis(c, key)
  }
}
