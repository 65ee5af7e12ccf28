/** Three-way entity-document merge (crates/sync/src/merge.rs).

    A document is its entity object: a finite map from field names to JSON values.
    The merge takes the shadow base, the local side and the remote side. */
module Merge {
  import opened Wrappers

  /** A JSON value. Everything the merge never looks into is kept as text. */
  datatype Value = Null | Num(n: int) | Str(s: string) | Bool(b: bool) | Json(text: string)

  type Doc = map<string, Value>

  /** One side of the merge with its record clock and producer. */
  datatype Side = Side(doc: Doc, updatedAt: int, device: string)

  datatype Outcome = Outcome(doc: Doc, bodyConflict: bool)

  datatype MergeError = Malformed

  const BODY_FIELDS: seq<string> := ["content_plaintext", "content_ciphertext", "snippet_type", "security_level"]
  const TRIGGER_FIELDS: seq<string> := ["trigger", "trigger_mode"]
  const USAGE_FIELDS: seq<string> := ["usage_count", "last_used_at"]
  const VERSION_FIELD: string := "version"
  const U64_MAX: int := 0xFFFF_FFFF_FFFF_FFFF
  const I64_MIN: int := -0x8000_0000_0000_0000
  const I64_MAX: int := 0x7FFF_FFFF_FFFF_FFFF

  function Lookup(doc: Doc, field: string): Value {
    if field in doc then doc[field] else Null
  }

  function Projection(doc: Doc, fields: seq<string>): seq<Value> {
    seq(|fields|, i requires 0 <= i < |fields| => Lookup(doc, fields[i]))
  }

  function AsI64(v: Value): Option<int> {
    if v.Num? && I64_MIN <= v.n <= I64_MAX then Some(v.n) else None
  }

  function AsU64(v: Value): Option<int> {
    if v.Num? && 0 <= v.n <= U64_MAX then Some(v.n) else None
  }

  function Max(a: int, b: int): int {
    if a < b then b else a
  }

  /** Maximum of two JSON numbers; anything that is not one orders below. */
  function MaxValue(a: Value, b: Value): Value {
    match (AsI64(a), AsI64(b))
    case (Some(x), Some(y)) => Num(Max(x, y))
    case (Some(_), None) => a
    case (None, Some(_)) => b
    case (None, None) => Null
  }

  function MaxOption(a: Option<int>, b: Option<int>): Option<int> {
    match (a, b)
    case (Some(x), Some(y)) => Some(Max(x, y))
    case (None, y) => y
    case (x, None) => x
  }

  /** Strict lexicographic order on device ids. */
  predicate StringLess(a: string, b: string) {
    if b == [] then false
    else if a == [] then true
    else if a[0] != b[0] then a[0] < b[0]
    else StringLess(a[1..], b[1..])
  }

  /** Rule 2: the later record clock wins, ties go to the larger device id. */
  predicate LocalWins(local: Side, remote: Side) {
    remote.updatedAt < local.updatedAt
    || (remote.updatedAt == local.updatedAt && StringLess(remote.device, local.device))
  }

  predicate SameClock(a: Side, b: Side) {
    a.updatedAt == b.updatedAt && a.device == b.device
  }

  /** Rules 1 and 2 for a unit of fields: true selects the local side. */
  predicate PickLocal<T(==)>(base: T, local: T, remote: T, localWins: bool) {
    if local == remote || local == base then false
    else if remote == base then true
    else localWins
  }

  /** Rule 3 fires when both sides moved the body away from the base, to different states. */
  predicate BodyConflict(base: Doc, local: Doc, remote: Doc) {
    var (b, l, r) := (Projection(base, BODY_FIELDS), Projection(local, BODY_FIELDS), Projection(remote, BODY_FIELDS));
    l != r && l != b && r != b
  }

  function BaseDoc(base: Option<Doc>): Doc {
    if base.Some? then base.value else map[]
  }

  /** The version past both inputs, when at least one input carries a version. */
  function NextEntityVersion(local: Doc, remote: Doc): Option<int> {
    match MaxOption(AsU64(Lookup(local, VERSION_FIELD)), AsU64(Lookup(remote, VERSION_FIELD)))
    case None => None
    case Some(v) => Some(if v == U64_MAX then v else v + 1)
  }

  /** The side whose body block enters the merged snippet. */
  function BodySource(base: Doc, local: Doc, remote: Doc): Doc {
    if PickLocal(Projection(base, BODY_FIELDS), Projection(local, BODY_FIELDS), Projection(remote, BODY_FIELDS), false)
    then local else remote
  }

  function TriggerSource(base: Doc, local: Doc, remote: Doc, localWins: bool): Doc {
    if PickLocal(Projection(base, TRIGGER_FIELDS), Projection(local, TRIGGER_FIELDS),
                 Projection(remote, TRIGGER_FIELDS), localWins)
    then local else remote
  }

  /** A field outside the snippet groups. */
  function PlainField(base: Doc, local: Doc, remote: Doc, localWins: bool, field: string): Value {
    if PickLocal(Lookup(base, field), Lookup(local, field), Lookup(remote, field), localWins)
    then Lookup(local, field) else Lookup(remote, field)
  }

  /** A field of the snippet groups: body block, trigger pair, usage maxima, entity version. */
  function GroupField(body: Doc, trigger: Doc, local: Doc, remote: Doc, version: int, field: string): Value {
    if field in BODY_FIELDS then Lookup(body, field)
    else if field in TRIGGER_FIELDS then Lookup(trigger, field)
    else if field in USAGE_FIELDS then MaxValue(Lookup(local, field), Lookup(remote, field))
    else Num(version)
  }

  function MergedField(snippet: bool, base: Doc, local: Doc, remote: Doc, localWins: bool, version: int,
                       field: string): Value {
    if snippet && field in GroupFields()
    then GroupField(BodySource(base, local, remote), TriggerSource(base, local, remote, localWins), local, remote,
                    version, field)
    else PlainField(base, local, remote, localWins, field)
  }

  function GroupFields(): set<string> {
    (set f | f in BODY_FIELDS) + (set f | f in TRIGGER_FIELDS) + (set f | f in USAGE_FIELDS) + {VERSION_FIELD}
  }

  function MergedKeys(snippet: bool, local: Doc, remote: Doc): set<string> {
    local.Keys + remote.Keys + (if snippet then GroupFields() else {})
  }

  /** What the merge computes, field by field. */
  function Merged(snippet: bool, base: Option<Doc>, local: Side, remote: Side): Result<Outcome, MergeError> {
    var b := BaseDoc(base);
    var next := NextEntityVersion(local.doc, remote.doc);
    if snippet && next.None? then Err(Malformed)
    else
      var version := if next.Some? then next.value else 0;
      Ok(Outcome(
           map f | f in MergedKeys(snippet, local.doc, remote.doc) ::
             MergedField(snippet, b, local.doc, remote.doc, LocalWins(local, remote), version, f),
           snippet && BodyConflict(b, local.doc, remote.doc)))
  }

  /** Copies every field of a group from one side. */
  method InsertGroup(merged: Doc, source: Doc, fields: seq<string>) returns (out: Doc)
    ensures out == map f | f in merged.Keys + (set g | g in fields) ::
                     if f in fields then Lookup(source, f) else merged[f]
  {
    out := merged;
    for i := 0 to |fields|
      invariant out == map f | f in merged.Keys + (set g | g in fields[..i]) ::
                         if f in fields[..i] then Lookup(source, f) else merged[f]
    {
      out := out[fields[i] := Lookup(source, fields[i])];
      assert fields[..i + 1] == fields[..i] + [fields[i]];
    }
    assert fields[..|fields|] == fields;
  }

  /** The usage counters take the maximum of both sides. */
  method InsertUsage(merged: Doc, local: Doc, remote: Doc, fields: seq<string>) returns (out: Doc)
    ensures out.Keys == merged.Keys + (set g | g in fields)
    ensures forall f :: f in out ==>
                          out[f] == if f in fields then MaxValue(Lookup(local, f), Lookup(remote, f)) else merged[f]
  {
    out := merged;
    for i := 0 to |fields|
      invariant out.Keys == merged.Keys + (set g | g in fields[..i])
      invariant forall f :: f in out
                            ==> out[f] == if f in fields[..i] then MaxValue(Lookup(local, f), Lookup(remote, f))
                                          else merged[f]
    {
      out := out[fields[i] := MaxValue(Lookup(local, fields[i]), Lookup(remote, fields[i]))];
      assert fields[..i + 1] == fields[..i] + [fields[i]];
    }
    assert fields[..|fields|] == fields;
  }

  /** No field belongs to two groups. */
  lemma GroupsDisjoint()
    ensures forall f :: f in BODY_FIELDS ==> f !in TRIGGER_FIELDS && f !in USAGE_FIELDS && f != VERSION_FIELD
    ensures forall f :: f in TRIGGER_FIELDS ==> f !in USAGE_FIELDS && f != VERSION_FIELD
    ensures VERSION_FIELD !in USAGE_FIELDS
  {
  }

  /** The three snippet groups and the version, in the order the merge resolves them. */
  method InsertGroups(body: Doc, trigger: Doc, local: Doc, remote: Doc, version: int) returns (merged: Doc)
    ensures merged.Keys == GroupFields()
    ensures forall f :: f in merged ==> merged[f] == GroupField(body, trigger, local, remote, version, f)
  {
    GroupsDisjoint();
    var (bodyFields, triggerFields, usageFields) := (BODY_FIELDS, TRIGGER_FIELDS, USAGE_FIELDS);
    merged := InsertGroup(map[], body, bodyFields);
    merged := InsertGroup(merged, trigger, triggerFields);
    merged := InsertUsage(merged, local, remote, usageFields);
    merged := merged[VERSION_FIELD := Num(version)];
  }

  /** Every field not yet merged, one by one. */
  method InsertPlain(start: Doc, snippet: bool, base: Doc, local: Doc, remote: Doc, localWins: bool, ghost version: int)
    returns (merged: Doc)
    requires start.Keys == if snippet then GroupFields() else {}
    requires forall f :: f in start ==> start[f] == MergedField(snippet, base, local, remote, localWins, version, f)
    ensures merged.Keys == MergedKeys(snippet, local, remote)
    ensures forall f :: f in merged ==> merged[f] == MergedField(snippet, base, local, remote, localWins, version, f)
  {
    merged := start;
    var todo := local.Keys + remote.Keys;
    while todo != {}
      invariant todo <= local.Keys + remote.Keys
      invariant merged.Keys == start.Keys + (local.Keys + remote.Keys - todo)
      invariant forall f :: f in merged
                            ==> merged[f] == MergedField(snippet, base, local, remote, localWins, version, f)
      decreases todo
    {
      var field :| field in todo;
      todo := todo - {field};
      if field !in merged {
        merged := merged[field := PlainField(base, local, remote, localWins, field)];
      }
    }
  }

  /** Fields that are what the merge computes make the document it computes. */
  lemma MergedIs(snippet: bool, base: Option<Doc>, local: Side, remote: Side, version: int, merged: Doc)
    requires var next := NextEntityVersion(local.doc, remote.doc);
             version == (if next.Some? then next.value else 0) && !(snippet && next.None?)
    requires merged.Keys == MergedKeys(snippet, local.doc, remote.doc)
    requires forall f :: f in merged ==> merged[f] == MergedField(snippet, BaseDoc(base), local.doc, remote.doc,
                                                                  LocalWins(local, remote), version, f)
    ensures Merged(snippet, base, local, remote)
         == Ok(Outcome(merged, snippet && BodyConflict(BaseDoc(base), local.doc, remote.doc)))
  {
    hide MergedField, MergedKeys, BodyConflict, LocalWins, NextEntityVersion;
    assert merged == Merged(snippet, base, local, remote).value.doc;
  }

  /** The merge as it runs: groups first, then every remaining field once. */
  method MergeDocuments(snippet: bool, base: Option<Doc>, local: Side, remote: Side)
    returns (outcome: Result<Outcome, MergeError>)
    ensures outcome == Merged(snippet, base, local, remote)
  {
    hide PlainField, GroupField, BodyConflict, LocalWins, NextEntityVersion, MergedKeys, GroupFields, BodySource,
         TriggerSource;
    var b := BaseDoc(base);
    var localWins := LocalWins(local, remote);
    var merged: Doc := map[];
    var next := NextEntityVersion(local.doc, remote.doc);
    var version := if next.Some? then next.value else 0;
    if snippet {
      if next.None? {
        return Err(Malformed);
      }
      merged := InsertGroups(BodySource(b, local.doc, remote.doc), TriggerSource(b, local.doc, remote.doc, localWins),
                             local.doc, remote.doc, version);
    }
    merged := InsertPlain(merged, snippet, b, local.doc, remote.doc, localWins, version);
    outcome := Ok(Outcome(merged, snippet && BodyConflict(b, local.doc, remote.doc)));
    MergedIs(snippet, base, local, remote, version, merged);
  }

  // ----- the clock order is strict and total -----

  lemma {:induction false} StringLessTotal(a: string, b: string)
    ensures StringLess(a, b) || StringLess(b, a) || a == b
    ensures !(StringLess(a, b) && StringLess(b, a))
    ensures a == b ==> !StringLess(a, b)
  {
    if a != [] && b != [] && a[0] == b[0] {
      StringLessTotal(a[1..], b[1..]);
      assert a == [a[0]] + a[1..] && b == [b[0]] + b[1..];
    }
  }

  /** Exactly one side wins rule 2, unless clock and device coincide. */
  lemma OneWinner(local: Side, remote: Side)
    ensures SameClock(local, remote) ==> !LocalWins(local, remote) && !LocalWins(remote, local)
    ensures !SameClock(local, remote) ==> (LocalWins(local, remote) <==> !LocalWins(remote, local))
  {
    StringLessTotal(local.device, remote.device);
  }

  // ----- symmetry -----

  /** A unit both sides changed, differently: the only place where rule 2 decides. */
  predicate DoubleEdit<T(==)>(base: T, local: T, remote: T) {
    local != remote && local != base && remote != base
  }

  /** Whether rule 2 is consulted anywhere in this merge. */
  ghost predicate UsesClock(snippet: bool, base: Doc, local: Doc, remote: Doc) {
    || (snippet && DoubleEdit(Projection(base, TRIGGER_FIELDS), Projection(local, TRIGGER_FIELDS),
                              Projection(remote, TRIGGER_FIELDS)))
    || exists f :: f in local.Keys + remote.Keys && !(snippet && f in GroupFields())
                   && DoubleEdit(Lookup(base, f), Lookup(local, f), Lookup(remote, f))
  }

  lemma MaxValueCommutes(a: Value, b: Value)
    ensures MaxValue(a, b) == MaxValue(b, a)
  {
  }

  lemma NextVersionCommutes(local: Doc, remote: Doc)
    ensures NextEntityVersion(local, remote) == NextEntityVersion(remote, local)
  {
  }

  /** Equal projections agree on every field of the group. */
  lemma SameProjection(a: Doc, b: Doc, fields: seq<string>)
    ensures Projection(a, fields) == Projection(b, fields) <==> forall f :: f in fields ==> Lookup(a, f) == Lookup(b, f)
  {
    if Projection(a, fields) == Projection(b, fields) {
      forall f | f in fields ensures Lookup(a, f) == Lookup(b, f) {
        var i :| 0 <= i < |fields| && fields[i] == f;
        assert Projection(a, fields)[i] == Projection(b, fields)[i];
      }
    }
  }

  /** Swapping the sides of a unit keeps its value when the clocks decide or are not needed. */
  lemma PickSymmetric<T>(base: T, local: T, remote: T, localWins: bool, remoteWins: bool)
    requires (localWins <==> !remoteWins) || !DoubleEdit(base, local, remote)
    ensures (if PickLocal(base, local, remote, localWins) then local else remote)
         == (if PickLocal(base, remote, local, remoteWins) then remote else local)
  {
  }

  /** Swapping the sides changes a field only through a body conflict or an undecided clock. */
  lemma FieldSymmetric(snippet: bool, base: Doc, local: Side, remote: Side, version: int, f: string)
    requires !(snippet && BodyConflict(base, local.doc, remote.doc))
    requires SameClock(local, remote) ==> !UsesClock(snippet, base, local.doc, remote.doc)
    requires f in MergedKeys(snippet, local.doc, remote.doc)
    ensures MergedField(snippet, base, local.doc, remote.doc, LocalWins(local, remote), version, f)
         == MergedField(snippet, base, remote.doc, local.doc, LocalWins(remote, local), version, f)
  {
    OneWinner(local, remote);
    var (l, r) := (local.doc, remote.doc);
    if snippet && f in BODY_FIELDS {
      PickSymmetric(Projection(base, BODY_FIELDS), Projection(l, BODY_FIELDS), Projection(r, BODY_FIELDS), false,
                    false);
      SameProjection(l, r, BODY_FIELDS);
    } else if snippet && f in TRIGGER_FIELDS {
      PickSymmetric(Projection(base, TRIGGER_FIELDS), Projection(l, TRIGGER_FIELDS), Projection(r, TRIGGER_FIELDS),
                    LocalWins(local, remote), LocalWins(remote, local));
      SameProjection(l, r, TRIGGER_FIELDS);
    } else if snippet && f in USAGE_FIELDS {
      MaxValueCommutes(Lookup(l, f), Lookup(r, f));
    } else if !(snippet && f == VERSION_FIELD) {
      PickSymmetric(Lookup(base, f), Lookup(l, f), Lookup(r, f), LocalWins(local, remote), LocalWins(remote, local));
    }
  }

  /** A field on which the two directions differ tells the merged documents apart. */
  lemma DifferingField(snippet: bool, base: Option<Doc>, local: Side, remote: Side, version: int, f: string)
    requires Merged(snippet, base, local, remote).Ok? && Merged(snippet, base, remote, local).Ok?
    requires NextEntityVersion(local.doc, remote.doc) == NextEntityVersion(remote.doc, local.doc)
    requires version == match NextEntityVersion(local.doc, remote.doc) { case Some(v) => v case None => 0 }
    requires f in MergedKeys(snippet, local.doc, remote.doc) && f in MergedKeys(snippet, remote.doc, local.doc)
    ensures (MergedField(snippet, BaseDoc(base), local.doc, remote.doc, LocalWins(local, remote), version, f)
             == MergedField(snippet, BaseDoc(base), remote.doc, local.doc, LocalWins(remote, local), version, f))
       <==> Merged(snippet, base, local, remote).value.doc[f] == Merged(snippet, base, remote, local).value.doc[f]
  {
  }

  /** Both directions give the same document unless some body field differs. */
  lemma BodyConflictDiffers(base: Doc, local: Side, remote: Side, version: int)
    requires BodyConflict(base, local.doc, remote.doc)
    ensures exists f :: f in MergedKeys(true, local.doc, remote.doc)
             && MergedField(true, base, local.doc, remote.doc, LocalWins(local, remote), version, f)
             != MergedField(true, base, remote.doc, local.doc, LocalWins(remote, local), version, f)
  {
    SameProjection(local.doc, remote.doc, BODY_FIELDS);
    var f :| f in BODY_FIELDS && Lookup(local.doc, f) != Lookup(remote.doc, f);
    assert f in MergedKeys(true, local.doc, remote.doc);
    assert MergedField(true, base, local.doc, remote.doc, LocalWins(local, remote), version, f)
           == Lookup(remote.doc, f);
    assert MergedField(true, base, remote.doc, local.doc, LocalWins(remote, local), version, f) == Lookup(local.doc, f);
  }

  lemma SwappedOk(snippet: bool, base: Option<Doc>, local: Side, remote: Side)
    requires Merged(snippet, base, local, remote).Ok?
    ensures Merged(snippet, base, remote, local).Ok?
  {
    hide MergedField, MergedKeys, BodyConflict, LocalWins;
    NextVersionCommutes(local.doc, remote.doc);
  }

  /** The documentation calls the merge symmetric. It is, exactly when rule 3 stays out and,
      should both sides carry the same clock and device, rule 2 has nothing to decide. */
  lemma MergeSymmetric(snippet: bool, base: Option<Doc>, local: Side, remote: Side)
    requires Merged(snippet, base, local, remote).Ok?
    ensures Merged(snippet, base, remote, local).Ok?
    ensures Merged(snippet, base, local, remote).value.doc == Merged(snippet, base, remote, local).value.doc
       <==> !(snippet && BodyConflict(BaseDoc(base), local.doc, remote.doc))
            && (SameClock(local, remote) ==> !UsesClock(snippet, BaseDoc(base), local.doc, remote.doc))
  {
    hide Merged, MergedField, MergedKeys, BodyConflict, UsesClock, LocalWins, SameClock, NextEntityVersion;
    SwappedOk(snippet, base, local, remote);
    NextVersionCommutes(local.doc, remote.doc);
    SwappedKeys(snippet, base, local, remote);
    var b := BaseDoc(base);
    var version := match NextEntityVersion(local.doc, remote.doc) { case Some(v) => v case None => 0 };
    var there := Merged(snippet, base, local, remote).value.doc;
    var back := Merged(snippet, base, remote, local).value.doc;
    if snippet && BodyConflict(b, local.doc, remote.doc) {
      BodyConflictDiffers(b, local, remote, version);
      DirectionsDiffer(snippet, base, local, remote, version);
    } else if SameClock(local, remote) && UsesClock(snippet, b, local.doc, remote.doc) {
      OneWinner(local, remote);
      UndecidedFieldDiffers(snippet, b, local, remote, version);
      DirectionsDiffer(snippet, base, local, remote, version);
    } else {
      forall f | f in there ensures there[f] == back[f] {
        FieldSymmetric(snippet, b, local, remote, version, f);
        DifferingField(snippet, base, local, remote, version, f);
      }
    }
  }

  /** The engine never merges two sides of one device, because it skips its own records: there only
      rule 3 breaks the symmetry. */
  lemma DevicesMergeAlike(snippet: bool, base: Option<Doc>, local: Side, remote: Side)
    requires local.device != remote.device && Merged(snippet, base, local, remote).Ok?
    ensures Merged(snippet, base, remote, local).Ok?
    ensures Merged(snippet, base, local, remote).value.doc == Merged(snippet, base, remote, local).value.doc
       <==> !(snippet && BodyConflict(BaseDoc(base), local.doc, remote.doc))
  {
    hide Merged, BodyConflict, UsesClock;
    MergeSymmetric(snippet, base, local, remote);
  }

  /** Both directions merge the same set of fields. */
  lemma SwappedKeys(snippet: bool, base: Option<Doc>, local: Side, remote: Side)
    requires Merged(snippet, base, local, remote).Ok? && Merged(snippet, base, remote, local).Ok?
    ensures Merged(snippet, base, local, remote).value.doc.Keys == MergedKeys(snippet, local.doc, remote.doc)
    ensures Merged(snippet, base, remote, local).value.doc.Keys == MergedKeys(snippet, local.doc, remote.doc)
    ensures MergedKeys(snippet, remote.doc, local.doc) == MergedKeys(snippet, local.doc, remote.doc)
  {
    assert MergedKeys(snippet, local.doc, remote.doc) == MergedKeys(snippet, remote.doc, local.doc);
  }

  lemma DirectionsDiffer(snippet: bool, base: Option<Doc>, local: Side, remote: Side, version: int)
    requires Merged(snippet, base, local, remote).Ok? && Merged(snippet, base, remote, local).Ok?
    requires NextEntityVersion(local.doc, remote.doc) == NextEntityVersion(remote.doc, local.doc)
    requires version == match NextEntityVersion(local.doc, remote.doc) { case Some(v) => v case None => 0 }
    requires exists f :: f in MergedKeys(snippet, local.doc, remote.doc)
              && MergedField(snippet, BaseDoc(base), local.doc, remote.doc, LocalWins(local, remote), version, f)
              != MergedField(snippet, BaseDoc(base), remote.doc, local.doc, LocalWins(remote, local), version, f)
    ensures Merged(snippet, base, local, remote).value.doc != Merged(snippet, base, remote, local).value.doc
  {
    SwappedKeys(snippet, base, local, remote);
    var f :| f in MergedKeys(snippet, local.doc, remote.doc)
             && MergedField(snippet, BaseDoc(base), local.doc, remote.doc, LocalWins(local, remote), version, f)
             != MergedField(snippet, BaseDoc(base), remote.doc, local.doc, LocalWins(remote, local), version, f);
    DifferingField(snippet, base, local, remote, version, f);
  }

  lemma UndecidedFieldDiffers(snippet: bool, base: Doc, local: Side, remote: Side, version: int)
    requires UsesClock(snippet, base, local.doc, remote.doc)
    ensures exists f :: f in MergedKeys(snippet, local.doc, remote.doc)
             && MergedField(snippet, base, local.doc, remote.doc, false, version, f)
             != MergedField(snippet, base, remote.doc, local.doc, false, version, f)
  {
    var (l, r) := (local.doc, remote.doc);
    if snippet && DoubleEdit(Projection(base, TRIGGER_FIELDS), Projection(l, TRIGGER_FIELDS),
                             Projection(r, TRIGGER_FIELDS)) {
      SameProjection(l, r, TRIGGER_FIELDS);
      var f :| f in TRIGGER_FIELDS && Lookup(l, f) != Lookup(r, f);
      assert f in MergedKeys(snippet, l, r) && f !in BODY_FIELDS;
      assert MergedField(snippet, base, l, r, false, version, f) == Lookup(r, f);
      assert MergedField(snippet, base, r, l, false, version, f) == Lookup(l, f);
    } else {
      var f :| f in l.Keys + r.Keys && !(snippet && f in GroupFields())
               && DoubleEdit(Lookup(base, f), Lookup(l, f), Lookup(r, f));
      assert MergedField(snippet, base, l, r, false, version, f) == Lookup(r, f);
      assert MergedField(snippet, base, r, l, false, version, f) == Lookup(l, f);
    }
  }

  // ----- what survives a merge -----

  /** The two documents carry the same body: both content columns, the type and the security level. */
  predicate SameBody(a: Doc, b: Doc) {
    && Lookup(a, "content_plaintext") == Lookup(b, "content_plaintext")
    && Lookup(a, "content_ciphertext") == Lookup(b, "content_ciphertext")
    && Lookup(a, "snippet_type") == Lookup(b, "snippet_type")
    && Lookup(a, "security_level") == Lookup(b, "security_level")
  }

  predicate SameTrigger(a: Doc, b: Doc) {
    Lookup(a, "trigger") == Lookup(b, "trigger") && Lookup(a, "trigger_mode") == Lookup(b, "trigger_mode")
  }

  lemma SameBodyIs(a: Doc, b: Doc)
    ensures SameBody(a, b) <==> Projection(a, BODY_FIELDS) == Projection(b, BODY_FIELDS)
  {
    SameProjection(a, b, BODY_FIELDS);
    var fields := BODY_FIELDS;
    assert fields[0] in fields && fields[1] in fields && fields[2] in fields && fields[3] in fields;
  }

  lemma SameTriggerIs(a: Doc, b: Doc)
    ensures SameTrigger(a, b) <==> Projection(a, TRIGGER_FIELDS) == Projection(b, TRIGGER_FIELDS)
  {
    SameProjection(a, b, TRIGGER_FIELDS);
    var fields := TRIGGER_FIELDS;
    assert fields[0] in fields && fields[1] in fields;
  }

  /** The merged body block is one side's whole block, so a snippet can never end up with one side's
      security level over the other side's body: the side that alone edited it, and the incoming one when
      both did. Only the last case, with two different edits, is reported as a conflict. */
  lemma BodyBlockWhole(base: Option<Doc>, local: Side, remote: Side, out: Outcome)
    requires Merged(true, base, local, remote) == Ok(out)
    ensures var b := BaseDoc(base);
            if SameBody(remote.doc, b) && !SameBody(local.doc, b) then SameBody(out.doc, local.doc)
            else SameBody(out.doc, remote.doc)
    ensures var b := BaseDoc(base);
            out.bodyConflict
            <==> !SameBody(local.doc, remote.doc) && !SameBody(local.doc, b) && !SameBody(remote.doc, b)
  {
    var (b, l, r) := (BaseDoc(base), local.doc, remote.doc);
    SameProjection(out.doc, BodySource(b, l, r), BODY_FIELDS);
    hide SameBody, Projection;
    SameBodyIs(l, b);
    SameBodyIs(r, b);
    SameBodyIs(l, r);
    SameBodyIs(out.doc, l);
    SameBodyIs(out.doc, r);
  }

  /** A local body edit is in the merged document, or was made identically by the other side, or
      rule 3 reported it so that the caller keeps it in a conflict copy. */
  lemma LocalBodyNeverLost(base: Option<Doc>, local: Side, remote: Side, out: Outcome)
    requires Merged(true, base, local, remote) == Ok(out) && !SameBody(local.doc, BaseDoc(base))
    ensures out.bodyConflict <==> !SameBody(out.doc, local.doc)
  {
    hide Merged;
    BodyBlockWhole(base, local, remote, out);
  }

  /** The strict order of two device ids: one goes on where the other ends, or has the larger character
      where they first differ. */
  ghost predicate Above(a: string, b: string) {
    exists n: nat :: n < |a| && n <= |b| && a[..n] == b[..n] && (n == |b| || b[n] < a[n])
  }

  lemma SamePrefix(a: string, b: string, n: nat)
    requires n <= |a| && n <= |b| && a[..n] == b[..n]
    ensures forall i :: 0 <= i < n ==> a[i] == b[i]
  {
    assert forall i :: 0 <= i < n ==> a[..n][i] == a[i] && b[..n][i] == b[i];
  }

  lemma {:induction false} StringLessIs(a: string, b: string)
    ensures StringLess(b, a) <==> Above(a, b)
  {
    if a == [] {
    } else if b == [] {
      assert a[..0] == b[..0];
    } else if a[0] != b[0] {
      if b[0] < a[0] {
        assert a[..0] == b[..0];
      }
      forall n: nat | n < |a| && n <= |b| && a[..n] == b[..n] ensures n == 0 {
        SamePrefix(a, b, n);
      }
    } else {
      StringLessIs(a[1..], b[1..]);
      if n: nat :| n < |a| && n <= |b| && a[..n] == b[..n] && (n == |b| || b[n] < a[n]) {
        assert a[1..][..n - 1] == a[..n][1..] && b[1..][..n - 1] == b[..n][1..];
        assert Above(a[1..], b[1..]);
      }
      if n: nat :| n < |a[1..]| && n <= |b[1..]| && a[1..][..n] == b[1..][..n]
                   && (n == |b[1..]| || b[1..][n] < a[1..][n]) {
        assert a[..n + 1] == [a[0]] + a[1..][..n] && b[..n + 1] == [b[0]] + b[1..][..n];
        assert Above(a, b);
      }
    }
  }

  /** Rule 2's winner: the later record clock, and at equal clocks the larger device id. */
  ghost predicate Prevails(a: Side, b: Side) {
    a.updatedAt > b.updatedAt || (a.updatedAt == b.updatedAt && Above(a.device, b.device))
  }

  /** The trigger goes with its mode, by rules 1 and 2: untouched sides give way, of two different edits the
      later one stays. */
  lemma TriggerPairWhole(base: Option<Doc>, local: Side, remote: Side, out: Outcome)
    requires Merged(true, base, local, remote) == Ok(out)
    ensures var b := BaseDoc(base);
            && (SameTrigger(local.doc, b) ==> SameTrigger(out.doc, remote.doc))
            && (SameTrigger(remote.doc, b) ==> SameTrigger(out.doc, local.doc))
            && (!SameTrigger(local.doc, b) && !SameTrigger(remote.doc, b)
                ==> SameTrigger(out.doc, if Prevails(local, remote) then local.doc else remote.doc))
  {
    var (b, l, r) := (BaseDoc(base), local.doc, remote.doc);
    StringLessIs(local.device, remote.device);
    SameProjection(out.doc, TriggerSource(b, l, r, LocalWins(local, remote)), TRIGGER_FIELDS);
    hide SameTrigger, Projection, StringLess, Above;
    SameTriggerIs(l, b);
    SameTriggerIs(r, b);
    SameTriggerIs(l, r);
    SameTriggerIs(out.doc, l);
    SameTriggerIs(out.doc, r);
  }

  /** Every other field, by rules 1 and 2 on its own. */
  lemma FieldByItself(snippet: bool, base: Option<Doc>, local: Side, remote: Side, out: Outcome, field: string)
    requires Merged(snippet, base, local, remote) == Ok(out)
    requires snippet ==> field !in {"content_plaintext", "content_ciphertext", "snippet_type", "security_level",
                                    "trigger", "trigger_mode", "usage_count", "last_used_at", "version"}
    ensures var (b, l, r, m) := (Lookup(BaseDoc(base), field), Lookup(local.doc, field), Lookup(remote.doc, field),
                                 Lookup(out.doc, field));
            && (l == b ==> m == r)
            && (r == b ==> m == l)
            && (l != b && r != b ==> m == if Prevails(local, remote) then l else r)
    ensures field in local.doc || field in remote.doc <==> field in out.doc
  {
    StringLessIs(local.device, remote.device);
    hide StringLess, Above, BodyConflict;
  }

  /** A whole number of signed 64 bits. */
  predicate IsCount(v: Value) {
    v.Num? && -0x8000_0000_0000_0000 <= v.n <= 0x7FFF_FFFF_FFFF_FFFF
  }

  /** Usage only grows: each field is the larger of the two sides, and a side without a number gives way. */
  lemma UsageIsLargest(base: Option<Doc>, local: Side, remote: Side, out: Outcome, field: string)
    requires Merged(true, base, local, remote) == Ok(out) && field in {"usage_count", "last_used_at"}
    ensures var (l, r, m) := (Lookup(local.doc, field), Lookup(remote.doc, field), Lookup(out.doc, field));
            && m in {l, r, Null}
            && (IsCount(l) ==> m.Num? && m.n >= l.n)
            && (IsCount(r) ==> m.Num? && m.n >= r.n)
            && (m != Null ==> IsCount(m))
  {
    hide BodyConflict, LocalWins;
    assert field in USAGE_FIELDS && field !in BODY_FIELDS && field !in TRIGGER_FIELDS by {
      assert USAGE_FIELDS[0] in USAGE_FIELDS && USAGE_FIELDS[1] in USAGE_FIELDS;
    }
  }

  /** The version a document carries as an unsigned 64-bit number. */
  predicate Versioned(doc: Doc, v: int) {
    Lookup(doc, "version") == Num(v) && 0 <= v <= 0xFFFF_FFFF_FFFF_FFFF
  }

  /** The merged snippet is newer than both sides, until the counter is at its end: one past the larger
      version. Without a version on either side there is no merge, and that is the only way it fails. */
  lemma VersionMovesOn(snippet: bool, base: Option<Doc>, local: Side, remote: Side)
    ensures Merged(snippet, base, local, remote).Err?
            <==> snippet && forall v :: !Versioned(local.doc, v) && !Versioned(remote.doc, v)
    ensures snippet && Merged(snippet, base, local, remote).Ok?
            ==> exists v :: Versioned(Merged(snippet, base, local, remote).value.doc, v)
                            && (forall w :: Versioned(local.doc, w) || Versioned(remote.doc, w)
                                            ==> w < v || w == v == 0xFFFF_FFFF_FFFF_FFFF)
                            && (v == 0xFFFF_FFFF_FFFF_FFFF
                                || Versioned(local.doc, v - 1) || Versioned(remote.doc, v - 1))
  {
    hide BodyConflict, LocalWins;
    var (l, r) := (AsU64(Lookup(local.doc, VERSION_FIELD)), AsU64(Lookup(remote.doc, VERSION_FIELD)));
    assert l.Some? ==> Versioned(local.doc, l.value);
    assert r.Some? ==> Versioned(remote.doc, r.value);
    assert forall v :: Versioned(local.doc, v) ==> l == Some(v);
    assert forall v :: Versioned(remote.doc, v) ==> r == Some(v);
    if snippet && (l.Some? || r.Some?) {
      var m := Merged(snippet, base, local, remote).value.doc;
      var v := NextEntityVersion(local.doc, remote.doc).value;
      assert VERSION_FIELD !in BODY_FIELDS && VERSION_FIELD !in TRIGGER_FIELDS && VERSION_FIELD !in USAGE_FIELDS;
      assert m[VERSION_FIELD] == Num(v);
      assert Versioned(m, v);
    }
  }

  /** Rule 1: with the remote side untouched, the merge returns the local document, apart from the
      usage maxima and the advanced version of a snippet. */
  lemma OneSidedEdit(snippet: bool, base: Doc, local: Side, remote: Side, f: string)
    requires remote.doc == base
    requires Merged(snippet, Some(base), local, remote).Ok?
    requires f !in USAGE_FIELDS && f != VERSION_FIELD
    ensures Lookup(Merged(snippet, Some(base), local, remote).value.doc, f) == Lookup(local.doc, f)
  {
    SameProjection(local.doc, remote.doc, BODY_FIELDS);
    SameProjection(local.doc, remote.doc, TRIGGER_FIELDS);
  }

  /** The documentation says that without a base every differing field counts as changed on both
      sides, so rule 2 decides it. A missing base reads as null everywhere, so a side that holds
      null counts as unchanged: rule 2 is obeyed exactly when the winner's value is not null. */
  lemma NoBaseObeysClock(snippet: bool, local: Side, remote: Side, f: string)
    requires Merged(snippet, None, local, remote).Ok?
    requires f in local.doc.Keys + remote.doc.Keys
    requires !(snippet && f in GroupFields())
    requires Lookup(local.doc, f) != Lookup(remote.doc, f)
    ensures var winner := if LocalWins(local, remote) then local else remote;
            Merged(snippet, None, local, remote).value.doc[f] == Lookup(winner.doc, f)
            <==> Lookup(winner.doc, f) != Null
  {
    assert Lookup(BaseDoc(None), f) == Null;
  }

  /** A field outside the snippet groups, absent or not, merges as a plain field. */
  lemma MergedPlain(snippet: bool, base: Option<Doc>, local: Side, remote: Side, f: string)
    requires Merged(snippet, base, local, remote).Ok? && f !in GroupFields()
    ensures Lookup(Merged(snippet, base, local, remote).value.doc, f)
         == PlainField(BaseDoc(base), local.doc, remote.doc, LocalWins(local, remote), f)
    ensures Merged(snippet, base, local, remote).value.bodyConflict
            <==> snippet && BodyConflict(BaseDoc(base), local.doc, remote.doc)
  {
  }

  /** Two documents outside the recycle bin merge into one outside it. */
  lemma MergeKeepsLive(snippet: bool, base: Option<Doc>, local: Side, remote: Side)
    requires Merged(snippet, base, local, remote).Ok?
    requires !Lookup(local.doc, "deleted_at").Num? && !Lookup(remote.doc, "deleted_at").Num?
    ensures !Lookup(Merged(snippet, base, local, remote).value.doc, "deleted_at").Num?
  {
    assert "deleted_at" !in BODY_FIELDS && "deleted_at" !in TRIGGER_FIELDS && "deleted_at" !in USAGE_FIELDS;
  }

  // ----- the conflict copy of rule 3 -----

  function Text(v: Value): Option<string> {
    if v.Str? then Some(v.s) else None
  }

  /** The local version under a fresh identity, pointing back at its source. */
  function ConflictCopy(localEntity: Doc, folder: Value, copyId: string, deviceName: string, now: int)
    : (copy: Result<Doc, MergeError>)
    ensures copy.Ok? <==> Lookup(localEntity, "id").Str? && Lookup(localEntity, "title").Str?
    ensures copy.Ok? ==> Lookup(copy.value, "deleted_at") == Null
  {
    match (Text(Lookup(localEntity, "id")), Text(Lookup(localEntity, "title")))
    case (Some(source), Some(title)) =>
      Ok(localEntity
           ["title" := Str(title + " (conflict on " + deviceName + ")")]
           ["id" := Str(copyId)]
           ["conflict_of" := Str(source)]
           ["folder_id" := folder]
           ["trigger" := Null]
           ["trigger_mode" := Null]
           ["usage_count" := Num(0)]
           ["last_used_at" := Null]
           ["version" := Num(1)]
           ["created_at" := Num(now)]
           ["updated_at" := Num(now)]
           ["deleted_at" := Null])
    case _ => Err(Malformed)
  }

  /** The copy carries the losing body, and everything else that is not named here, unchanged, and names its
      source. */
  lemma CopyKeepsLocalBody(localEntity: Doc, folder: Value, copyId: string, deviceName: string, now: int, copy: Doc)
    requires ConflictCopy(localEntity, folder, copyId, deviceName, now) == Ok(copy)
    ensures SameBody(copy, localEntity)
    ensures Lookup(copy, "id") == Str(copyId) && Lookup(copy, "conflict_of") == Lookup(localEntity, "id")
    ensures forall f :: f !in {"id", "conflict_of", "title", "folder_id", "trigger", "trigger_mode", "last_used_at",
                               "deleted_at", "usage_count", "version", "created_at", "updated_at"}
                        ==> Lookup(copy, f) == Lookup(localEntity, f)
  {
  }

  /** It starts its own life: no trigger, as it would collide with the source's, no usage, the first version,
      outside the bin, in the given folder and under a title that tells where it comes from. */
  lemma CopyStartsAnew(localEntity: Doc, folder: Value, copyId: string, deviceName: string, now: int, copy: Doc)
    requires ConflictCopy(localEntity, folder, copyId, deviceName, now) == Ok(copy)
    ensures Lookup(copy, "title").Str? && Lookup(localEntity, "title").Str?
            && Lookup(copy, "title").s == Lookup(localEntity, "title").s + " (conflict on " + deviceName + ")"
    ensures Lookup(copy, "folder_id") == folder
    ensures Lookup(copy, "trigger") == Lookup(copy, "trigger_mode") == Lookup(copy, "last_used_at")
            == Lookup(copy, "deleted_at") == Null
    ensures Lookup(copy, "usage_count") == Num(0) && Lookup(copy, "version") == Num(1)
    ensures Lookup(copy, "created_at") == Lookup(copy, "updated_at") == Num(now)
  {
  }
}
