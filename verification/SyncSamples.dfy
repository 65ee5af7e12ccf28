/** Documents as the payload codec demands them (crates/sync/src/payload.rs), and devices whose tables take
    nothing else: the surroundings in which concrete runs are told. */
module SyncSamples {
  import opened Wrappers
  import opened Merge
  import opened SyncModel
  import opened SyncCascade
  import opened SyncConverge

  predicate IsText(doc: Doc, field: string) {
    Lookup(doc, field).Str?
  }

  predicate MaybeText(doc: Doc, field: string) {
    Lookup(doc, field).Str? || Lookup(doc, field).Null?
  }

  predicate IsNumber(doc: Doc, field: string) {
    Lookup(doc, field).Num?
  }

  predicate MaybeNumber(doc: Doc, field: string) {
    Lookup(doc, field).Num? || Lookup(doc, field).Null?
  }

  predicate IsFlag(doc: Doc, field: string) {
    Lookup(doc, field).Bool?
  }

  const SNIPPET_FIELDS: set<string> := {"id", "workspace_id", "title", "content_plaintext", "content_ciphertext",
                                        "snippet_type",
    "description", "folder_id", "trigger", "trigger_mode", "language", "security_level", "is_favorite", "is_pinned",
        "is_enabled",
    "platform_scope", "created_at", "updated_at", "last_used_at", "usage_count", "version", "deleted_at", "conflict_of"}
  const FOLDER_FIELDS: set<string> := {"id", "parent_id", "name", "sort_order", "created_at", "updated_at"}
  const FIELD_FIELDS: set<string> := {"id", "snippet_id", "name", "label", "field_type", "default_value", "options",
                                      "validation",
    "is_required", "sort_order", "platform_overrides"}

  predicate SnippetBody(doc: Doc) {
    && MaybeText(doc, "content_plaintext") && MaybeText(doc, "content_ciphertext")
    && IsText(doc, "content_plaintext") != IsText(doc, "content_ciphertext")
    && Lookup(doc, "snippet_type") == Str("text") && Lookup(doc, "security_level") == Str("normal")
  }

  predicate SnippetTrigger(doc: Doc) {
    MaybeText(doc, "trigger") && MaybeText(doc, "trigger_mode") && MaybeText(doc, "language")
  }

  predicate SnippetFlags(doc: Doc) {
    && IsFlag(doc, "is_favorite") && IsFlag(doc, "is_pinned") && IsFlag(doc, "is_enabled")
    && Lookup(doc, "platform_scope") == Json("[]")
    && IsNumber(doc, "created_at") && IsNumber(doc, "updated_at") && MaybeNumber(doc, "last_used_at")
    && IsNumber(doc, "usage_count") && IsNumber(doc, "version")
  }

  predicate CompleteSnippet(id: string, doc: Doc) {
    && doc.Keys == SNIPPET_FIELDS
    && Lookup(doc, "id") == Str(id) && IsText(doc, "workspace_id") && IsText(doc, "title")
    && MaybeText(doc, "description") && MaybeText(doc, "folder_id")
    && MaybeNumber(doc, "deleted_at") && MaybeText(doc, "conflict_of")
    && SnippetBody(doc) && SnippetTrigger(doc) && SnippetFlags(doc)
  }

  predicate CompleteFolder(id: string, doc: Doc) {
    && doc.Keys == FOLDER_FIELDS
    && Lookup(doc, "id") == Str(id)
    && MaybeText(doc, "parent_id") && IsText(doc, "name")
    && IsNumber(doc, "sort_order") && IsNumber(doc, "created_at") && IsNumber(doc, "updated_at")
  }

  predicate CompleteField(id: string, doc: Doc) {
    && doc.Keys == FIELD_FIELDS
    && Lookup(doc, "id") == Str(id)
    && IsText(doc, "snippet_id") && IsText(doc, "name") && IsText(doc, "label")
    && Lookup(doc, "field_type") == Str("text")
    && MaybeText(doc, "default_value") && Lookup(doc, "options") == Json("[]") && MaybeText(doc, "validation")
    && IsFlag(doc, "is_required") && IsNumber(doc, "sort_order") && MaybeText(doc, "platform_overrides")
  }

  /** A plain-text snippet, a folder or a template field with every field its document carries. */
  predicate Complete(key: Key, doc: Doc) {
    match key.kind
    case Snippet => CompleteSnippet(key.id, doc)
    case Folder => CompleteFolder(key.id, doc)
    case TemplateField => CompleteField(key.id, doc)
    case _ => false
  }

  /** Complete, and every reference resolves. */
  predicate Acceptable(rows: map<Key, Doc>, key: Key, doc: Doc) {
    Complete(key, doc) && References(key, doc) <= rows.Keys
  }

  // ----- devices -----

  /** The n-th id a device draws. */
  function DrawnId(device: string, n: nat): string {
    seq(n, i requires 0 <= i < n => 'u') + "-" + device
  }

  lemma IdsDiffer(d: string, m: nat, e: string, n: nat)
    requires DrawnId(d, m) == DrawnId(e, n)
    ensures d == e && m == n
  {
    var (a, b) := (DrawnId(d, m), DrawnId(e, n));
    assert (forall i :: 0 <= i < m ==> a[i] == 'u') && a[m] == '-';
    assert (forall i :: 0 <= i < n ==> b[i] == 'u') && b[n] == '-';
    assert a[m + 1..] == d && b[n + 1..] == e;
  }

  /** A device that has every key. */
  const OPEN: Access := Access(true, w => Opens, w => false)

  function Device(d: string): Env {
    Env(d, d, OPEN, (rows, k, doc) => Acceptable(rows, k, doc), (rows, k) => true,
        (k, doc) => Complete(k, doc), (n: nat) => DrawnId(d, n))
  }

  const DEVICES: Fleet := d => Device(d)

  lemma DevicesDistinct()
    ensures Distinct(DEVICES)
  {
    forall d, e: string, m: nat, n: nat | DEVICES(d).uuid(m) == DEVICES(e).uuid(n) ensures d == e && m == n {
      IdsDiffer(d, m, e, n);
    }
  }

  // ----- documents -----

  function FolderDoc(id: string, name: string, order: int, at: int): (doc: Doc)
    ensures CompleteFolder(id, doc) && Lookup(doc, "name") == Str(name) && Lookup(doc, "sort_order") == Num(order)
    ensures Lookup(doc, "parent_id") == Null
  {
    map["id" := Str(id), "parent_id" := Null, "name" := Str(name), "sort_order" := Num(order),
        "created_at" := Num(1), "updated_at" := Num(at)]
  }

  function SnippetDoc(id: string, title: string, folder: Value, version: int, at: int): Doc {
    map["id" := Str(id), "workspace_id" := Str("default"), "title" := Str(title),
        "content_plaintext" := Str("body"), "content_ciphertext" := Null, "snippet_type" := Str("text"),
        "description" := Null, "folder_id" := folder, "trigger" := Null, "trigger_mode" := Null,
        "language" := Null, "security_level" := Str("normal"), "is_favorite" := Bool(false),
        "is_pinned" := Bool(false), "is_enabled" := Bool(true), "platform_scope" := Json("[]"),
        "created_at" := Num(1), "updated_at" := Num(at), "last_used_at" := Null, "usage_count" := Num(0),
        "version" := Num(version), "deleted_at" := Null, "conflict_of" := Null]
  }

  lemma SnippetKeys(id: string, title: string, folder: Value, version: int, at: int)
    ensures SnippetDoc(id, title, folder, version, at).Keys == SNIPPET_FIELDS
  {
  }

  lemma SnippetNames(id: string, title: string, folder: Value, version: int, at: int)
    ensures var doc := SnippetDoc(id, title, folder, version, at);
            && Lookup(doc, "id") == Str(id) && Lookup(doc, "title") == Str(title)
               && Lookup(doc, "workspace_id") == Str("default")
  {
  }

  lemma SnippetLinks(id: string, title: string, folder: Value, version: int, at: int)
    ensures var doc := SnippetDoc(id, title, folder, version, at);
            && Lookup(doc, "folder_id") == folder && Lookup(doc, "conflict_of") == Null
            && Lookup(doc, "description") == Null && Lookup(doc, "deleted_at") == Null
  {
  }

  lemma SnippetBodied(id: string, title: string, folder: Value, version: int, at: int)
    ensures SnippetBody(SnippetDoc(id, title, folder, version, at))
  {
  }

  lemma SnippetTriggered(id: string, title: string, folder: Value, version: int, at: int)
    ensures SnippetTrigger(SnippetDoc(id, title, folder, version, at))
  {
  }

  lemma SnippetFlagged(id: string, title: string, folder: Value, version: int, at: int)
    ensures SnippetFlags(SnippetDoc(id, title, folder, version, at))
  {
  }

  lemma SnippetFacts(id: string, title: string, folder: Value, version: int, at: int)
    requires folder.Str? || folder.Null?
    ensures var doc := SnippetDoc(id, title, folder, version, at);
            && CompleteSnippet(id, doc) && Lookup(doc, "title") == Str(title) && Lookup(doc, "folder_id") == folder
            && Lookup(doc, "conflict_of") == Null && Lookup(doc, "deleted_at") == Null
  {
    hide SnippetDoc;
    SnippetKeys(id, title, folder, version, at);
    SnippetNames(id, title, folder, version, at);
    SnippetLinks(id, title, folder, version, at);
    SnippetBodied(id, title, folder, version, at);
    SnippetTriggered(id, title, folder, version, at);
    SnippetFlagged(id, title, folder, version, at);
  }

  function FieldDoc(id: string, snippet: string, text: string): (doc: Doc)
    ensures CompleteField(id, doc) && Lookup(doc, "label") == Str(text) && Lookup(doc, "snippet_id") == Str(snippet)
  {
    map["id" := Str(id), "snippet_id" := Str(snippet), "name" := Str("who"), "label" := Str(text),
        "field_type" := Str("text"), "default_value" := Null, "options" := Json("[]"), "validation" := Null,
        "is_required" := Bool(false), "sort_order" := Num(0), "platform_overrides" := Null]
  }

  /** A recycled snippet is still a complete document. */
  lemma BinnedComplete(id: string, doc: Doc, at: int)
    requires CompleteSnippet(id, doc)
    ensures CompleteSnippet(id, Binned(doc, at)) && Lookup(Binned(doc, at), "deleted_at") == Num(at)
    ensures Lookup(Binned(doc, at), "folder_id") == Lookup(doc, "folder_id")
  {
  }

  // ----- a folder and a snippet -----

  const INBOX: Key := Key(Folder, "f")
  const NOTE: Key := Key(Snippet, "s")

  lemma FolderAccepted(name: string, order: int, at: int)
    ensures Complete(INBOX, FolderDoc("f", name, order, at)) && Owners(INBOX, FolderDoc("f", name, order, at)) == {}
    ensures forall rows :: Acceptable(rows, INBOX, FolderDoc("f", name, order, at))
  {
    hide FolderDoc;
  }

  lemma SnippetAccepted(title: string, folder: Value, version: int, at: int)
    requires folder.Str? || folder.Null?
    ensures Complete(NOTE, SnippetDoc("s", title, folder, version, at))
            && Live(NOTE, SnippetDoc("s", title, folder, version, at))
    ensures Owners(NOTE, SnippetDoc("s", title, folder, version, at)) == {}
    ensures folder.Null? ==> forall rows :: Acceptable(rows, NOTE, SnippetDoc("s", title, folder, version, at))
  {
    hide SnippetDoc, CompleteSnippet;
    SnippetFacts("s", title, folder, version, at);
  }
}
