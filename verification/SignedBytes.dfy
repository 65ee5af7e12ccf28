/** The bytes root statements and device certificates are signed over (crates/sync/src/cert.rs). Fixed-length
    fields mix with zero-terminated ones, and two statement kinds share the encoding under different
    contexts; what makes the mix unambiguous is that terminated fields hold no zero byte. */
module SignedBytes {
  import opened Bytes
  import opened Wrappers

  const KEY_LENGTH: nat := 32
  const INT64_RANGE: nat := 0x1_0000_0000_0000_0000

  type Text = seq<Byte>
  type PublicKey = k: seq<Byte> | |k| == KEY_LENGTH witness seq(KEY_LENGTH, _ => 0)
  type Int64 = n: int | -0x8000_0000_0000_0000 <= n < 0x8000_0000_0000_0000

  datatype Platform = Windows | Macos | Ios | Android

  datatype Subject = Subject(
    deviceId: Text,
    signKey: PublicKey,
    exchangeKey: PublicKey,
    name: Text,
    platform: Platform,
    createdAt: Int64)

  datatype SignedError = FieldContainsNul

  function PlatformName(platform: Platform): Text {
    match platform
    case Windows => Ascii("windows")
    case Macos => Ascii("macos")
    case Ios => Ascii("ios")
    case Android => Ascii("android")
  }

  function RootContext(): Text {
    Ascii("typvia.root.v1")
  }

  function CertContext(): Text {
    Ascii("typvia.devcert.v1")
  }

  predicate NulFree(text: Text) {
    0 !in text
  }

  // ----- what is signed -----

  function Terminated(text: Text): Text {
    text + [0]
  }

  /** Two's complement, little endian. */
  function TimeBytes(n: Int64): (bytes: Text)
    ensures |bytes| == 8
  {
    LittleEndian(if n < 0 then n + INT64_RANGE else n, 8)
  }

  function SubjectFields(s: Subject): Text {
    Terminated(s.deviceId) + (s.signKey + (s.exchangeKey + (Terminated(s.name) + (Terminated(PlatformName(s.platform))
      + TimeBytes(s.createdAt)))))
  }

  predicate Encodable(s: Subject) {
    NulFree(s.deviceId) && NulFree(s.name)
  }

  function RootBytes(s: Subject): Result<Text, SignedError> {
    if Encodable(s) then Ok(RootContext() + SubjectFields(s)) else Err(FieldContainsNul)
  }

  function CertBytes(s: Subject, issuer: Text, issuedAt: Int64): Result<Text, SignedError> {
    if Encodable(s) && NulFree(issuer) then
      Ok(CertContext() + (SubjectFields(s) + (TimeBytes(issuedAt) + Terminated(issuer))))
    else Err(FieldContainsNul)
  }

  // ----- where each field stands -----

  predicate Spells(bytes: Text, text: string) {
    |bytes| == |text| && forall i :: 0 <= i < |text| ==> bytes[i] == text[i] as int
  }

  predicate NamesPlatform(bytes: Text, platform: Platform) {
    match platform
    case Windows => Spells(bytes, "windows")
    case Macos => Spells(bytes, "macos")
    case Ios => Spells(bytes, "ios")
    case Android => Spells(bytes, "android")
  }

  /** Each byte of a time is that many multiples of a power of 256, negative times counted downwards: two's
      complement, the lowest byte first. */
  lemma TimeOnWire(n: Int64)
    ensures var m: int := n;
            TimeBytes(n) == [m % 256, m / 0x100 % 256, m / 0x1_0000 % 256, m / 0x100_0000 % 256,
                             m / 0x1_0000_0000 % 256, m / 0x100_0000_0000 % 256, m / 0x1_0000_0000_0000 % 256,
                             m / 0x100_0000_0000_0000 % 256]
  {
    hide LittleEndian, TimeBytes;
    TimeByte(n, 0, 1, 0x100_0000_0000_0000);
    TimeByte(n, 1, 0x100, 0x1_0000_0000_0000);
    TimeByte(n, 2, 0x1_0000, 0x100_0000_0000);
    TimeByte(n, 3, 0x100_0000, 0x1_0000_0000);
    TimeByte(n, 4, 0x1_0000_0000, 0x100_0000);
    TimeByte(n, 5, 0x100_0000_0000, 0x1_0000);
    TimeByte(n, 6, 0x1_0000_0000_0000, 0x100);
    TimeByte(n, 7, 0x100_0000_0000_0000, 1);
  }

  lemma TimeByte(n: Int64, i: nat, c: nat, beyond: nat)
    requires i < 8 && c > 0 && c == Capacity(i) && c * (256 * beyond) == INT64_RANGE
    ensures TimeBytes(n)[i] == n as int / c % 256
  {
    hide LittleEndian, Capacity;
    PlaceValue(if n < 0 then n + INT64_RANGE else n, 8, i);
    SameByte(n, c, beyond);
  }

  /** Six fields written one after the other, and where each begins. */
  lemma Pieces(a: Text, b: Text, c: Text, d: Text, e: Text, f: Text, b0: nat, c0: nat, d0: nat, e0: nat, f0: nat)
    requires b0 == |a| && c0 == b0 + |b| && d0 == c0 + |c| && e0 == d0 + |d| && f0 == e0 + |e|
    ensures var whole := a + (b + (c + (d + (e + f))));
            && |whole| == f0 + |f|
            && whole[..b0] == a && whole[b0..c0] == b && whole[c0..d0] == c && whole[d0..e0] == d
            && whole[e0..f0] == e && whole[f0..] == f
  {
  }

  /** The subject: device id, signing key, exchange key, name, platform, creation time; a zero byte ends each
      field of no fixed length. */
  lemma SubjectOnWire(s: Subject, d: nat, n: nat, p: nat)
    requires d == |s.deviceId| && n == |s.name| && p == |PlatformName(s.platform)|
    ensures var f := SubjectFields(s);
            && |f| == d + n + p + 75
            && f[..d + 1] == s.deviceId + [0]
            && f[d + 1..d + 33] == s.signKey && f[d + 33..d + 65] == s.exchangeKey
            && f[d + 65..d + 66 + n] == s.name + [0]
            && f[d + 66 + n..d + 67 + n + p] == PlatformName(s.platform) + [0]
            && f[d + 67 + n + p..] == TimeBytes(s.createdAt)
    ensures NamesPlatform(PlatformName(s.platform), s.platform)
  {
    hide TimeBytes;
    Pieces(Terminated(s.deviceId), s.signKey, s.exchangeKey, Terminated(s.name), Terminated(PlatformName(s.platform)),
           TimeBytes(s.createdAt), d + 1, d + 33, d + 65, d + 66 + n, d + 67 + n + p);
  }

  /** A root statement: its context, then the subject. */
  lemma RootOnWire(s: Subject, bytes: Text)
    requires RootBytes(s) == Ok(bytes)
    ensures |bytes| == 14 + |SubjectFields(s)|
    ensures Spells(bytes[..14], "typvia.root.v1") && bytes[14..] == SubjectFields(s)
  {
    hide SubjectFields;
  }

  /** A certificate: another context, the subject, the time of issue and the issuer. */
  lemma CertOnWire(s: Subject, issuer: Text, issuedAt: Int64, bytes: Text, f: nat)
    requires CertBytes(s, issuer, issuedAt) == Ok(bytes) && f == |SubjectFields(s)|
    ensures |bytes| == 17 + f + 8 + |issuer| + 1
    ensures Spells(bytes[..17], "typvia.devcert.v1") && bytes[17..17 + f] == SubjectFields(s)
    ensures bytes[17 + f..25 + f] == TimeBytes(issuedAt)
    ensures bytes[25 + f..25 + f + |issuer|] == issuer && bytes[25 + f + |issuer|] == 0
  {
    hide SubjectFields, TimeBytes;
  }

  // ----- reading one field off the front -----

  /** A zero-terminated field ends at the first zero, so the split is the only one. */
  lemma TerminatedUnique(a: Text, b: Text, x: Text, y: Text)
    requires NulFree(a) && NulFree(b) && Terminated(a) + x == Terminated(b) + y
    ensures a == b && x == y
  {
    var whole := Terminated(a) + x;
    assert whole[|a|] == 0 && (Terminated(b) + y)[|b|] == 0;
    assert forall i :: 0 <= i < |a| ==> whole[i] == a[i];
    assert forall i :: 0 <= i < |b| ==> whole[i] == b[i];
    assert forall i :: 0 <= i < |a| ==> a[i] in a;
    assert forall i :: 0 <= i < |b| ==> b[i] in b;
    assert |a| == |b|;
    FixedUnique(Terminated(a), Terminated(b), x, y);
    assert a == Terminated(a)[..|a|] && b == Terminated(b)[..|b|];
  }

  lemma FixedUnique(a: Text, b: Text, x: Text, y: Text)
    requires |a| == |b| && a + x == b + y
    ensures a == b && x == y
  {
    assert a == (a + x)[..|a|] && b == (b + y)[..|b|];
    assert x == (a + x)[|a|..] && y == (b + y)[|b|..];
  }

  lemma TimeUnique(m: Int64, n: Int64)
    requires TimeBytes(m) == TimeBytes(n)
    ensures m == n
  {
    assert Capacity(8) == INT64_RANGE;
    ReadsBack(if m < 0 then m + INT64_RANGE else m, 8);
    ReadsBack(if n < 0 then n + INT64_RANGE else n, 8);
  }

  lemma PlatformUnique(p: Platform, q: Platform)
    requires PlatformName(p) == PlatformName(q)
    ensures p == q
  {
    assert PlatformName(Windows)[0] == 'w' as int && PlatformName(Macos)[0] == 'm' as int;
    assert PlatformName(Ios)[0] == 'i' as int && PlatformName(Android)[0] == 'a' as int;
  }

  lemma PlatformNulFree(p: Platform)
    ensures NulFree(PlatformName(p))
  {
  }

  // ----- injectivity -----

  /** The subject can be read back from any message that starts with its fields. */
  lemma SubjectUnique(s: Subject, t: Subject, x: Text, y: Text)
    requires Encodable(s) && Encodable(t) && SubjectFields(s) + x == SubjectFields(t) + y
    ensures s == t && x == y
  {
    hide Terminated, TimeBytes, PlatformName, NulFree;
    var (d, d') := (Terminated(s.deviceId), Terminated(t.deviceId));
    var (k, k') := (s.signKey, t.signKey);
    var (e, e') := (s.exchangeKey, t.exchangeKey);
    var (n, n') := (Terminated(s.name), Terminated(t.name));
    var (p, p') := (Terminated(PlatformName(s.platform)), Terminated(PlatformName(t.platform)));
    var (c, c') := (TimeBytes(s.createdAt), TimeBytes(t.createdAt));
    Nest(d, k, e, n, p, c, x);
    Nest(d', k', e', n', p', c', y);
    TerminatedUnique(s.deviceId, t.deviceId, k + (e + (n + (p + (c + x)))), k' + (e' + (n' + (p' + (c' + y)))));
    FixedUnique(k, k', e + (n + (p + (c + x))), e' + (n' + (p' + (c' + y))));
    FixedUnique(e, e', n + (p + (c + x)), n' + (p' + (c' + y)));
    TerminatedUnique(s.name, t.name, p + (c + x), p' + (c' + y));
    PlatformNulFree(s.platform);
    PlatformNulFree(t.platform);
    TerminatedUnique(PlatformName(s.platform), PlatformName(t.platform), c + x, c' + y);
    PlatformUnique(s.platform, t.platform);
    FixedUnique(c, c', x, y);
    TimeUnique(s.createdAt, t.createdAt);
  }

  lemma Nest(d: Text, k: Text, e: Text, n: Text, p: Text, c: Text, x: Text)
    ensures (d + (k + (e + (n + (p + c))))) + x == d + (k + (e + (n + (p + (c + x)))))
  {
  }

  /** No root encoding is the start of another, nor equal to it. */
  lemma RootBytesUnique(s: Subject, t: Subject, x: Text, y: Text)
    requires RootBytes(s).Ok? && RootBytes(t).Ok?
    requires RootBytes(s).value + x == RootBytes(t).value + y
    ensures s == t && x == y
  {
    hide SubjectFields;
    assert RootBytes(s).value + x == RootContext() + (SubjectFields(s) + x);
    assert RootBytes(t).value + y == RootContext() + (SubjectFields(t) + y);
    FixedUnique(RootContext(), RootContext(), SubjectFields(s) + x, SubjectFields(t) + y);
    SubjectUnique(s, t, x, y);
  }

  /** No certificate encoding is the start of another, nor equal to it. */
  lemma CertBytesUnique(s: Subject, issuer: Text, at: Int64, t: Subject, issuer': Text, at': Int64, x: Text, y: Text)
    requires CertBytes(s, issuer, at).Ok? && CertBytes(t, issuer', at').Ok?
    requires CertBytes(s, issuer, at).value + x == CertBytes(t, issuer', at').value + y
    ensures s == t && issuer == issuer' && at == at' && x == y
  {
    hide SubjectFields, TimeBytes, Terminated;
    var (rest, rest') := (TimeBytes(at) + (Terminated(issuer) + x), TimeBytes(at') + (Terminated(issuer') + y));
    assert CertBytes(s, issuer, at).value + x == CertContext() + (SubjectFields(s) + rest);
    assert CertBytes(t, issuer', at').value + y == CertContext() + (SubjectFields(t) + rest');
    FixedUnique(CertContext(), CertContext(), SubjectFields(s) + rest, SubjectFields(t) + rest');
    SubjectUnique(s, t, rest, rest');
    FixedUnique(TimeBytes(at), TimeBytes(at'), Terminated(issuer) + x, Terminated(issuer') + y);
    TimeUnique(at, at');
    TerminatedUnique(issuer, issuer', x, y);
  }

  /** A message signed as one kind of statement can never be read as the other. */
  lemma RootIsNeverCert(s: Subject, t: Subject, issuer: Text, at: Int64, x: Text, y: Text)
    requires RootBytes(s).Ok? && CertBytes(t, issuer, at).Ok?
    ensures RootBytes(s).value + x != CertBytes(t, issuer, at).value + y
  {
    hide SubjectFields, TimeBytes, Terminated;
    Contexts();
    var (rest, rest') := (SubjectFields(s) + x, SubjectFields(t) + (TimeBytes(at) + (Terminated(issuer) + y)));
    assert RootBytes(s).value + x == RootContext() + rest;
    assert CertBytes(t, issuer, at).value + y == CertContext() + rest';
    assert (RootContext() + rest)[7] != (CertContext() + rest')[7];
  }

  lemma Contexts()
    ensures |RootContext()| > 7 && |CertContext()| > 7 && RootContext()[7] != CertContext()[7]
  {
    assert RootContext()[7] == 'r' as int && CertContext()[7] == 'd' as int;
  }

  // ----- the buffer they are written to -----

  /** A growing byte buffer. A refused field leaves what was written before it. */
  class SignedBuffer {
    var bytes: Text

    constructor (context: Text)
      ensures bytes == context
    {
      bytes := context;
    }

    method Extend(more: Text)
      modifies this
      ensures bytes == old(bytes) + more
    {
      bytes := bytes + more;
    }

    method PushText(value: Text) returns (ok: bool)
      modifies this
      ensures ok <==> NulFree(value)
      ensures bytes == old(bytes) + if ok then Terminated(value) else []
    {
      ok := 0 !in value;
      if ok {
        bytes := bytes + value;
        bytes := bytes + [0];
      }
    }

    method PushSubject(s: Subject) returns (ok: bool)
      modifies this
      ensures ok <==> Encodable(s)
      ensures ok ==> bytes == old(bytes) + SubjectFields(s)
    {
      hide Terminated, TimeBytes, PlatformName;
      ok := PushText(s.deviceId);
      if ok {
        Extend(s.signKey);
        Extend(s.exchangeKey);
        ok := PushText(s.name);
      }
      if ok {
        PlatformNulFree(s.platform);
        ok := PushText(PlatformName(s.platform));
        Extend(TimeBytes(s.createdAt));
        Flatten(old(bytes), Terminated(s.deviceId), s.signKey, s.exchangeKey, Terminated(s.name),
                Terminated(PlatformName(s.platform)), TimeBytes(s.createdAt));
      }
    }
  }

  lemma Flatten(z: Text, d: Text, k: Text, e: Text, n: Text, p: Text, c: Text)
    ensures z + d + k + e + n + p + c == z + (d + (k + (e + (n + (p + c)))))
  {
  }

  method RootSignedBytes(s: Subject) returns (r: Result<Text, SignedError>)
    ensures r == RootBytes(s)
  {
    hide SubjectFields;
    var buffer := new SignedBuffer(RootContext());
    var ok := buffer.PushSubject(s);
    r := if ok then Ok(buffer.bytes) else Err(FieldContainsNul);
  }

  method CertSignedBytes(s: Subject, issuer: Text, issuedAt: Int64) returns (r: Result<Text, SignedError>)
    ensures r == CertBytes(s, issuer, issuedAt)
  {
    hide SubjectFields, TimeBytes, Terminated;
    var buffer := new SignedBuffer(CertContext());
    var ok := buffer.PushSubject(s);
    if !ok {
      return Err(FieldContainsNul);
    }
    buffer.Extend(TimeBytes(issuedAt));
    ok := buffer.PushText(issuer);
    if !ok {
      return Err(FieldContainsNul);
    }
    Regroup(CertContext(), SubjectFields(s), TimeBytes(issuedAt), Terminated(issuer));
    r := Ok(buffer.bytes);
  }

  lemma Regroup(z: Text, s: Text, t: Text, i: Text)
    ensures z + s + t + i == z + (s + (t + i))
  {
  }
}
