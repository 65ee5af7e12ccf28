/** Certificate chains from a pinned root, and the trust state a pulled directory yields
    (crates/sync/src/cert.rs, crates/sync/src/directory.rs). Signatures are an arbitrary checking function;
    what a check proves is stated as an assumption only where it is used. */
module Trust {
  import opened Bytes
  import opened Wrappers
  import opened SignedBytes

  type Signature = seq<Byte>
  type Fingerprint = seq<Byte>

  datatype TrustError =
    | UnknownRoot | EmptyChain | BrokenChain | IssuerRevoked | NulInField | MalformedKey | BadSignature

  /** Signature checking and key fingerprints, both arbitrary. */
  datatype Crypto = Crypto(check: (PublicKey, Text, Signature) -> Result<(), TrustError>,
                           fingerprint: PublicKey -> Fingerprint)

  datatype RootStatement = RootStatement(subject: Subject, signature: Signature)

  datatype Certificate = Certificate(subject: Subject, issuerId: Text, issuedAt: Int64, signature: Signature)

  type Revocations = map<Text, Int64>

  /** Who signs the next link: a device and its key. */
  datatype Signer = Signer(id: Text, key: PublicKey)

  function SubjectSigner(s: Subject): Signer {
    Signer(s.deviceId, s.signKey)
  }

  // ----- the root statement -----

  function RootVerdict(crypto: Crypto, root: RootStatement): Result<(), TrustError> {
    match RootBytes(root.subject)
    case Err(_) => Err(NulInField)
    case Ok(bytes) => crypto.check(root.subject.signKey, bytes, root.signature)
  }

  predicate Pinned(crypto: Crypto, pin: Fingerprint, root: RootStatement) {
    crypto.fingerprint(root.subject.signKey) == pin && RootVerdict(crypto, root).Ok?
  }

  // ----- links and paths -----

  predicate RevokedBy(revoked: Revocations, cert: Certificate) {
    cert.issuerId in revoked && revoked[cert.issuerId] <= cert.issuedAt
  }

  predicate SignedBy(crypto: Crypto, key: PublicKey, cert: Certificate) {
    CertBytes(cert.subject, cert.issuerId, cert.issuedAt).Ok?
    && crypto.check(key, CertBytes(cert.subject, cert.issuerId, cert.issuedAt).value, cert.signature).Ok?
  }

  /** One device vouches for another, and could still do so at the time. */
  predicate Vouches(crypto: Crypto, signer: Signer, cert: Certificate, revoked: Revocations) {
    cert.issuerId == signer.id && !RevokedBy(revoked, cert) && SignedBy(crypto, signer.key, cert)
  }

  /** What is wrong with a link, the first complaint that applies. */
  function Complaint(crypto: Crypto, signer: Signer, cert: Certificate, revoked: Revocations): (e: Option<TrustError>)
    ensures e.None? <==> Vouches(crypto, signer, cert, revoked)
  {
    if cert.issuerId != signer.id then Some(BrokenChain)
    else if RevokedBy(revoked, cert) then Some(IssuerRevoked)
    else
      match CertBytes(cert.subject, cert.issuerId, cert.issuedAt)
      case Err(_) => Some(NulInField)
      case Ok(bytes) =>
        match crypto.check(signer.key, bytes, cert.signature)
        case Err(e) => Some(e)
        case Ok(_) => None
  }

  /** Who must have signed the link after these. */
  function LastSigner(root: RootStatement, chain: seq<Certificate>): Signer {
    SubjectSigner(if chain == [] then root.subject else chain[|chain| - 1].subject)
  }

  /** A path grows by one certificate its last subject vouches for. */
  predicate Path(crypto: Crypto, root: RootStatement, chain: seq<Certificate>, revoked: Revocations) {
    chain == []
    || (Path(crypto, root, chain[..|chain| - 1], revoked)
        && Vouches(crypto, LastSigner(root, chain[..|chain| - 1]), chain[|chain| - 1], revoked))
  }

  predicate Trusted(crypto: Crypto, pin: Fingerprint, root: RootStatement, chain: seq<Certificate>,
                    revoked: Revocations) {
    Pinned(crypto, pin, root) && chain != [] && Path(crypto, root, chain, revoked)
  }

  lemma {:induction false} PathPrefix(crypto: Crypto, root: RootStatement, chain: seq<Certificate>,
                                      revoked: Revocations, n: nat)
    requires Path(crypto, root, chain, revoked) && n <= |chain|
    ensures Path(crypto, root, chain[..n], revoked)
  {
    if n < |chain| {
      PathPrefix(crypto, root, chain[..|chain| - 1], revoked, n);
      assert chain[..|chain| - 1][..n] == chain[..n];
    } else {
      assert chain[..n] == chain;
    }
  }

  /** Any nonempty prefix of an accepted chain is accepted: every device on it is trusted too. */
  lemma TrustedPrefix(crypto: Crypto, pin: Fingerprint, root: RootStatement, chain: seq<Certificate>,
                      revoked: Revocations, n: nat)
    requires Trusted(crypto, pin, root, chain, revoked) && 0 < n <= |chain|
    ensures Trusted(crypto, pin, root, chain[..n], revoked)
  {
    PathPrefix(crypto, root, chain, revoked, n);
  }

  lemma {:induction false} PathLinks(crypto: Crypto, root: RootStatement, chain: seq<Certificate>, revoked: Revocations)
    ensures Path(crypto, root, chain, revoked)
       <==> forall i :: 0 <= i < |chain| ==> Vouches(crypto, LastSigner(root, chain[..i]), chain[i], revoked)
  {
    hide Vouches, LastSigner;
    if chain != [] {
      var rest := chain[..|chain| - 1];
      PathLinks(crypto, root, rest, revoked);
      assert forall i :: 0 <= i < |rest| ==> rest[..i] == chain[..i] && rest[i] == chain[i];
    }
  }

  /** Revocations only take away: a chain is accepted under them exactly when it is accepted under none
      and each certificate was issued strictly before its issuer's revocation. */
  lemma RevocationsTakeAway(crypto: Crypto, pin: Fingerprint, root: RootStatement, chain: seq<Certificate>,
                            revoked: Revocations)
    ensures Trusted(crypto, pin, root, chain, revoked)
       <==> Trusted(crypto, pin, root, chain, map[]) && forall i :: 0 <= i < |chain| ==> !RevokedBy(revoked, chain[i])
  {
    hide Path, LastSigner, SignedBy, Pinned;
    PathLinks(crypto, root, chain, revoked);
    PathLinks(crypto, root, chain, map[]);
    forall i | 0 <= i < |chain|
      ensures Vouches(crypto, LastSigner(root, chain[..i]), chain[i], revoked)
         <==> Vouches(crypto, LastSigner(root, chain[..i]), chain[i], map[]) && !RevokedBy(revoked, chain[i])
    {
    }
  }

  /** More revocations, or earlier ones, never make a rejected chain acceptable. */
  lemma RevocationsAntitone(crypto: Crypto, pin: Fingerprint, root: RootStatement, chain: seq<Certificate>,
                            less: Revocations, more: Revocations)
    requires forall d :: d in less ==> d in more && more[d] <= less[d]
    requires Trusted(crypto, pin, root, chain, more)
    ensures Trusted(crypto, pin, root, chain, less)
  {
    hide Trusted;
    RevocationsTakeAway(crypto, pin, root, chain, less);
    RevocationsTakeAway(crypto, pin, root, chain, more);
    forall i | 0 <= i < |chain| ensures !RevokedBy(less, chain[i]) {
      assert !RevokedBy(more, chain[i]);
    }
  }

  // ----- the verifier -----

  /** Walks the chain from the root. It accepts exactly the trusted paths, and a rejection for a link
      names that link's first complaint after a path that was good. */
  method VerifyCertificateChain(crypto: Crypto, pin: Fingerprint, root: RootStatement, chain: seq<Certificate>,
                                revoked: Revocations)
    returns (r: Result<(), TrustError>)
    ensures r.Ok? <==> Trusted(crypto, pin, root, chain, revoked)
    ensures crypto.fingerprint(root.subject.signKey) != pin ==> r == Err(UnknownRoot)
    ensures crypto.fingerprint(root.subject.signKey) == pin && RootVerdict(crypto, root).Err?
            ==> r == RootVerdict(crypto, root)
    ensures Pinned(crypto, pin, root) && chain == [] ==> r == Err(EmptyChain)
    ensures Pinned(crypto, pin, root) && chain != [] && r.Err? ==>
              exists i :: 0 <= i < |chain| && Path(crypto, root, chain[..i], revoked)
                          && Complaint(crypto, LastSigner(root, chain[..i]), chain[i], revoked) == Some(r.error)
  {
    if crypto.fingerprint(root.subject.signKey) != pin {
      return Err(UnknownRoot);
    }
    var selfSigned := RootVerdict(crypto, root);
    if selfSigned.Err? {
      return selfSigned;
    }
    if chain == [] {
      return Err(EmptyChain);
    }
    var issuer := Signer(root.subject.deviceId, root.subject.signKey);
    for i := 0 to |chain|
      invariant Path(crypto, root, chain[..i], revoked)
      invariant issuer == LastSigner(root, chain[..i])
    {
      hide RootBytes, CertBytes, SignedBy;
      var cert := chain[i];
      assert chain[..i + 1][..i] == chain[..i];
      var problem := Complaint(crypto, issuer, cert, revoked);
      if problem.Some? {
        if Path(crypto, root, chain, revoked) {
          PathPrefix(crypto, root, chain, revoked, i + 1);
        }
        return Err(problem.value);
      }
      issuer := Signer(cert.subject.deviceId, cert.subject.signKey);
    }
    assert chain[..|chain|] == chain;
    r := Ok(());
  }

  // ----- what acceptance proves -----

  /** A statement a key holder signed. */
  datatype Statement = IsRoot(subject: Subject) | Vouched(subject: Subject, issuerId: Text, issuedAt: Int64)

  function StatementBytes(st: Statement): Result<Text, SignedError> {
    match st
    case IsRoot(subject) => RootBytes(subject)
    case Vouched(subject, issuerId, issuedAt) => CertBytes(subject, issuerId, issuedAt)
  }

  /** Signatures check only over messages their key holder signed, each the encoding of a statement. */
  ghost predicate Unforgeable(crypto: Crypto, signed: (PublicKey, Statement) -> bool) {
    forall key, message, signature :: crypto.check(key, message, signature).Ok? ==>
                                        exists st :: signed(key, st) && StatementBytes(st) == Ok(message)
  }

  /** Every link of an accepted chain is word for word a certificate its predecessor's key signed: no
      other certificate's signature, and no root statement's, can stand in for it. */
  lemma AcceptedWasIssued(crypto: Crypto, pin: Fingerprint, root: RootStatement, chain: seq<Certificate>,
                          revoked: Revocations, signed: (PublicKey, Statement) -> bool, i: nat)
    requires Unforgeable(crypto, signed) && Trusted(crypto, pin, root, chain, revoked) && i < |chain|
    ensures signed(LastSigner(root, chain[..i]).key,
                   Vouched(chain[i].subject, LastSigner(root, chain[..i]).id, chain[i].issuedAt))
    ensures signed(root.subject.signKey, IsRoot(root.subject))
  {
    hide Path, RootBytes, CertBytes, LastSigner;
    PathLinks(crypto, root, chain, revoked);
    var cert := chain[i];
    assert Vouches(crypto, LastSigner(root, chain[..i]), cert, revoked);
    OneCertStatement(crypto, signed, LastSigner(root, chain[..i]).key, cert);
    OneRootStatement(crypto, signed, root);
  }

  lemma OneCertStatement(crypto: Crypto, signed: (PublicKey, Statement) -> bool, key: PublicKey, cert: Certificate)
    requires Unforgeable(crypto, signed) && SignedBy(crypto, key, cert)
    ensures signed(key, Vouched(cert.subject, cert.issuerId, cert.issuedAt))
  {
    hide RootBytes, CertBytes;
    var message := CertBytes(cert.subject, cert.issuerId, cert.issuedAt).value;
    var st :| signed(key, st) && StatementBytes(st) == Ok(message);
    assert message + [] == message;
    match st
    case IsRoot(subject) => RootIsNeverCert(subject, cert.subject, cert.issuerId, cert.issuedAt, [], []);
    case Vouched(subject, issuerId, issuedAt) =>
      CertBytesUnique(subject, issuerId, issuedAt, cert.subject, cert.issuerId, cert.issuedAt, [], []);
  }

  lemma OneRootStatement(crypto: Crypto, signed: (PublicKey, Statement) -> bool, root: RootStatement)
    requires Unforgeable(crypto, signed) && RootVerdict(crypto, root).Ok?
    ensures signed(root.subject.signKey, IsRoot(root.subject))
  {
    hide RootBytes, CertBytes;
    var message := RootBytes(root.subject).value;
    var st :| signed(root.subject.signKey, st) && StatementBytes(st) == Ok(message);
    assert message + [] == message;
    match st
    case IsRoot(subject) => RootBytesUnique(subject, root.subject, [], []);
    case Vouched(subject, issuerId, issuedAt) => RootIsNeverCert(root.subject, subject, issuerId, issuedAt, [], []);
  }

  // ----- trust state from a directory -----

  /** A directory row; its chain is what parsing the row's JSON gave. */
  datatype DeviceRow = DeviceRow(id: Text, chain: Result<seq<Certificate>, TrustError>, revokedAt: Option<Int64>)

  datatype RevocationRow = RevocationRow(deviceId: Text, revokedAt: Int64)

  datatype Directory = Directory(devices: seq<DeviceRow>, revocations: seq<RevocationRow>)

  datatype TrustState = TrustState(root: RootStatement, chains: map<Text, seq<Certificate>>, revokedAt: Revocations)

  /** The last row of a device with a chain, or with a revocation time. */
  function LastChain(rows: seq<DeviceRow>, id: Text): Option<Result<seq<Certificate>, TrustError>> {
    if rows == [] then None
    else if rows[|rows| - 1].id == id then Some(rows[|rows| - 1].chain)
    else LastChain(rows[..|rows| - 1], id)
  }

  function LastRevoked(rows: seq<DeviceRow>, id: Text): Option<Int64> {
    if rows == [] then None
    else if rows[|rows| - 1].id == id && rows[|rows| - 1].revokedAt.Some? then rows[|rows| - 1].revokedAt
    else LastRevoked(rows[..|rows| - 1], id)
  }

  function Earlier(a: Option<Int64>, b: Option<Int64>): Option<Int64> {
    match (a, b)
    case (None, _) => b
    case (_, None) => a
    case (Some(x), Some(y)) => if x <= y then a else b
  }

  /** The earliest revocation statement about a device. */
  function EarliestStatement(rows: seq<RevocationRow>, id: Text): Option<Int64> {
    if rows == [] then None
    else
      var rest := EarliestStatement(rows[..|rows| - 1], id);
      if rows[|rows| - 1].deviceId == id then Earlier(rest, Some(rows[|rows| - 1].revokedAt)) else rest
  }

  function At(revoked: Revocations, id: Text): Option<Int64> {
    if id in revoked then Some(revoked[id]) else None
  }

  predicate Parses(rows: seq<DeviceRow>, rootId: Text) {
    forall i :: 0 <= i < |rows| && rows[i].id != rootId ==> rows[i].chain.Ok?
  }

  /** The state's revocation times are the directory's. */
  ghost predicate Assembled(directory: Directory, state: TrustState) {
    forall id :: At(state.revokedAt, id)
                 == Earlier(LastRevoked(directory.devices, id), EarliestStatement(directory.revocations, id))
  }

  /** Assembles the state: one unparsable chain rejects the directory; otherwise each other device has
      its last row's chain, and each device its earliest revocation among the statements and its last
      row that carries one. */
  method WithRoot(crypto: Crypto, root: RootStatement, directory: Directory) returns (r: Result<TrustState, TrustError>)
    ensures RootVerdict(crypto, root).Err? ==> r == Err(RootVerdict(crypto, root).error)
    ensures r.Ok? <==> RootVerdict(crypto, root).Ok? && Parses(directory.devices, root.subject.deviceId)
    ensures r.Ok? ==> r.value.root == root
    ensures r.Ok? ==> forall id ::
              LastChain(directory.devices, id) == if id in r.value.chains then Some(Ok(r.value.chains[id]))
                                                  else if id == root.subject.deviceId
                                                    then LastChain(directory.devices, id)
                                                  else None
    ensures r.Ok? ==> root.subject.deviceId !in r.value.chains
    ensures r.Ok? ==> Assembled(directory, r.value)
  {
    hide RootBytes;
    var selfSigned := RootVerdict(crypto, root);
    if selfSigned.Err? {
      return Err(selfSigned.error);
    }
    var chains: map<Text, seq<Certificate>> := map[];
    var revokedAt: Revocations := map[];
    var rows := directory.devices;
    var rootId := root.subject.deviceId;
    for i := 0 to |rows|
      invariant Parses(rows[..i], rootId) && rootId !in chains
      invariant forall id :: id != rootId ==>
                  LastChain(rows[..i], id) == if id in chains then Some(Ok(chains[id])) else None
      invariant forall id :: At(revokedAt, id) == LastRevoked(rows[..i], id)
    {
      assert rows[..i + 1][..i] == rows[..i];
      var device := rows[i];
      if device.id != rootId {
        if device.chain.Err? {
          return Err(device.chain.error);
        }
        chains := chains[device.id := device.chain.value];
      }
      if device.revokedAt.Some? {
        revokedAt := revokedAt[device.id := device.revokedAt.value];
      }
    }
    assert rows[..|rows|] == rows;
    var statements := directory.revocations;
    for i := 0 to |statements|
      invariant forall id :: At(revokedAt, id) == Earlier(LastRevoked(rows, id), EarliestStatement(statements[..i], id))
    {
      assert statements[..i + 1][..i] == statements[..i];
      var statement := statements[i];
      var earliest := statement.revokedAt;
      if statement.deviceId in revokedAt && revokedAt[statement.deviceId] <= earliest {
        earliest := revokedAt[statement.deviceId];
      }
      ghost var before := revokedAt;
      revokedAt := revokedAt[statement.deviceId := earliest];
      forall id ensures At(revokedAt, id)
          == Earlier(LastRevoked(rows, id), EarliestStatement(statements[..i + 1], id)) {
        assert At(before, id) == Earlier(LastRevoked(rows, id), EarliestStatement(statements[..i], id));
      }
    }
    assert statements[..|statements|] == statements;
    r := Ok(TrustState(root, chains, revokedAt));
  }

  /** The root must also be the pinned one when it is the directory's own. */
  method FromDirectory(crypto: Crypto, listed: Result<RootStatement, TrustError>, pin: Fingerprint,
                       directory: Directory)
    returns (r: Result<TrustState, TrustError>)
    ensures r.Ok? ==> listed.Ok? && r.value.root == listed.value && Pinned(crypto, pin, r.value.root)
    ensures r.Ok? ==> Assembled(directory, r.value)
    ensures r.Ok? <==> listed.Ok? && Pinned(crypto, pin, listed.value)
                       && Parses(directory.devices, listed.value.subject.deviceId)
    ensures listed.Ok? && crypto.fingerprint(listed.value.subject.signKey) != pin ==> r == Err(UnknownRoot)
  {
    if listed.Err? {
      return Err(listed.error);
    }
    if crypto.fingerprint(listed.value.subject.signKey) != pin {
      return Err(UnknownRoot);
    }
    r := WithRoot(crypto, listed.value, directory);
  }

  /** Every time the directory gives for a device, in rows or statements. */
  ghost predicate Listed(directory: Directory, id: Text, time: Int64) {
    DeviceRowRevoked(directory, id, time) || RevocationRow(id, time) in directory.revocations
  }

  ghost predicate DeviceRowRevoked(directory: Directory, id: Text, time: Int64) {
    exists i :: 0 <= i < |directory.devices| && directory.devices[i].id == id
                && directory.devices[i].revokedAt == Some(time)
  }

  predicate UniqueRows(rows: seq<DeviceRow>) {
    forall i, j :: 0 <= i < j < |rows| ==> rows[i].id != rows[j].id
  }

  lemma {:induction false} EarliestIsMinimum(rows: seq<RevocationRow>, id: Text)
    ensures EarliestStatement(rows, id).Some? ==> RevocationRow(id, EarliestStatement(rows, id).value) in rows
    ensures forall time :: RevocationRow(id, time) in rows ==>
                             EarliestStatement(rows, id).Some? && EarliestStatement(rows, id).value <= time
  {
    if rows != [] {
      EarliestIsMinimum(rows[..|rows| - 1], id);
      assert rows == rows[..|rows| - 1] + [rows[|rows| - 1]];
    }
  }

  lemma {:induction false} LastRevokedIsRow(rows: seq<DeviceRow>, id: Text)
    ensures match LastRevoked(rows, id)
            case Some(time) => exists i :: 0 <= i < |rows| && rows[i].id == id && rows[i].revokedAt == Some(time)
            case None => forall i :: 0 <= i < |rows| && rows[i].id == id ==> rows[i].revokedAt.None?
    ensures UniqueRows(rows) ==> forall i :: 0 <= i < |rows| && rows[i].id == id && rows[i].revokedAt.Some?
                                             ==> LastRevoked(rows, id) == rows[i].revokedAt
  {
    if rows != [] {
      var rest := rows[..|rows| - 1];
      LastRevokedIsRow(rest, id);
      assert forall i :: 0 <= i < |rest| ==> rest[i] == rows[i];
      if LastRevoked(rest, id).Some? {
        var i :| 0 <= i < |rest| && rest[i].id == id && rest[i].revokedAt == Some(LastRevoked(rest, id).value);
        assert rows[i].id == id && rows[i].revokedAt == LastRevoked(rest, id);
      }
    }
  }

  /** Every time a row gives for the device is at or above what its last timed row gives, or at or above
      some statement about it: no earlier time is hidden by a later row. */
  ghost predicate NoTimeHidden(directory: Directory, id: Text) {
    forall time :: DeviceRowRevoked(directory, id, time) ==>
      (LastRevoked(directory.devices, id).Some? && LastRevoked(directory.devices, id).value <= time)
      || exists stated: Int64 :: stated <= time && RevocationRow(id, stated) in directory.revocations
  }

  /** The recorded time is one the directory lists, and there is one exactly when it lists any. It is the
      earliest listed if and only if no earlier time is hidden by a later row. */
  lemma EarliestListed(directory: Directory, state: TrustState, id: Text)
    requires Assembled(directory, state)
    ensures id in state.revokedAt ==> Listed(directory, id, state.revokedAt[id])
    ensures forall time :: Listed(directory, id, time) ==> id in state.revokedAt
    ensures (forall time :: Listed(directory, id, time) ==> state.revokedAt[id] <= time)
            <==> NoTimeHidden(directory, id)
  {
    hide LastRevoked, EarliestStatement, UniqueRows;
    LastRevokedIsRow(directory.devices, id);
    EarliestIsMinimum(directory.revocations, id);
    assert At(state.revokedAt, id)
           == Earlier(LastRevoked(directory.devices, id), EarliestStatement(directory.revocations, id));
    if forall time :: Listed(directory, id, time) ==> state.revokedAt[id] <= time {
      forall time | DeviceRowRevoked(directory, id, time)
        ensures (LastRevoked(directory.devices, id).Some? && LastRevoked(directory.devices, id).value <= time)
             || exists stated: Int64 :: stated <= time && RevocationRow(id, stated) in directory.revocations
      {
        assert Listed(directory, id, time);
      }
    }
  }

  /** As it is with one row per device. */
  lemma UniqueRowsHideNothing(directory: Directory, id: Text)
    requires UniqueRows(directory.devices)
    ensures NoTimeHidden(directory, id)
  {
    hide LastRevoked, UniqueRows;
    LastRevokedIsRow(directory.devices, id);
  }

  /** No certificate on an accepted chain was issued at or after any revocation time the directory
      lists for its issuer, unless a later row hides that time. */
  lemma NothingIssuedAfterRevocation(crypto: Crypto, pin: Fingerprint, directory: Directory, state: TrustState,
                                     chain: seq<Certificate>, i: nat, time: Int64)
    requires Assembled(directory, state)
    requires Trusted(crypto, pin, state.root, chain, state.revokedAt) && i < |chain|
    requires NoTimeHidden(directory, chain[i].issuerId) && Listed(directory, chain[i].issuerId, time)
    ensures chain[i].issuedAt < time
  {
    hide Trusted, Listed, Assembled, NoTimeHidden;
    EarliestListed(directory, state, chain[i].issuerId);
    RevocationsTakeAway(crypto, pin, state.root, chain, state.revokedAt);
  }

  // ----- a directory whose later row hides a time -----

  function Device(id: string): Subject
    requires forall i :: 0 <= i < |id| ==> id[i] as int < 128
  {
    Subject(Ascii(id), seq(KEY_LENGTH, _ => 1), seq(KEY_LENGTH, _ => 2), [], Macos, 0)
  }

  function Certified(subject: string, issuer: string, at: Int64): Certificate
    requires forall i :: 0 <= i < |subject| ==> subject[i] as int < 128
    requires forall i :: 0 <= i < |issuer| ==> issuer[i] as int < 128
  {
    Certificate(Device(subject), Ascii(issuer), at, [])
  }

  /** The root certified a phone at 1, the phone a tablet at 7. */
  function TabletChain(): seq<Certificate> {
    [Certified("phone", "root", 1), Certified("tablet", "phone", 7)]
  }

  /** The phone is listed twice, as revoked at 5 and then as revoked at 9. */
  function TwiceListed(): Directory {
    Directory([DeviceRow(Ascii("phone"), Ok(TabletChain()[..1]), Some(5)),
               DeviceRow(Ascii("phone"), Ok(TabletChain()[..1]), Some(9)),
               DeviceRow(Ascii("tablet"), Ok(TabletChain()), None)], [])
  }

  /** Every signature checks, as the real ones of these three devices do. */
  function Accepting(): Crypto {
    Crypto((key, message, signature) => Ok(()), key => key)
  }

  lemma NamesDiffer()
    ensures Ascii("root") != Ascii("phone") && Ascii("tablet") != Ascii("phone") && Ascii("tablet") != Ascii("root")
    ensures NulFree(Ascii("root")) && NulFree(Ascii("phone")) && NulFree(Ascii("tablet"))
  {
    assert Ascii("root")[0] == 114 && Ascii("phone")[0] == 112 && Ascii("tablet")[0] == 116;
  }

  lemma PhoneTimes()
    ensures LastRevoked(TwiceListed().devices, Ascii("phone")) == Some(9)
    ensures LastRevoked(TwiceListed().devices, Ascii("root")) == None
    ensures LastChain(TwiceListed().devices, Ascii("tablet")) == Some(Ok(TabletChain()))
    ensures Listed(TwiceListed(), Ascii("phone"), 5)
  {
    hide Ascii, TabletChain;
    NamesDiffer();
    var rows := TwiceListed().devices;
    assert rows[..2][..1] == rows[..1] && rows[..1][..0] == [];
    assert LastRevoked(rows[..1], Ascii("root")) == None;
    var two := rows[..2];
    assert |two| == 2 && two[1].id == Ascii("phone") && two[..|two| - 1] == rows[..1];
    assert LastRevoked(two, Ascii("root")) == LastRevoked(two[..|two| - 1], Ascii("root"));
    assert rows[0].id == Ascii("phone") && rows[0].revokedAt == Some(5);
  }

  lemma TabletTrusted(root: RootStatement, revoked: Revocations)
    requires root == RootStatement(Device("root"), []) && At(revoked, Ascii("phone")) == Some(9)
             && Ascii("root") !in revoked
    ensures Trusted(Accepting(), root.subject.signKey, root, TabletChain(), revoked)
  {
    NamesDiffer();
    var chain := TabletChain();
    assert chain[..1] == [chain[0]] && chain[..1][..0] == [];
    assert Path(Accepting(), root, chain[..0], revoked) && Path(Accepting(), root, chain[..1], revoked);
  }

  /** A directory that lists a device twice: the state built from it records the later row's time, and
      trusts a certificate the device issued after the time the earlier row gives. */
  method LaterRowHides() returns (state: TrustState, keys: Option<(PublicKey, PublicKey)>)
    ensures Assembled(TwiceListed(), state) && Listed(TwiceListed(), Ascii("phone"), 5)
    ensures At(state.revokedAt, Ascii("phone")) == Some(9)
    ensures Trusted(Accepting(), state.root.subject.signKey, state.root, TabletChain(), state.revokedAt)
    ensures TabletChain()[1].issuerId == Ascii("phone") && TabletChain()[1].issuedAt == 7
    ensures keys == Some((Device("tablet").signKey, Device("tablet").exchangeKey))
  {
    hide LastRevoked, LastChain, Path, Listed;
    var root := RootStatement(Device("root"), []);
    NamesDiffer();
    PhoneTimes();
    var made := WithRoot(Accepting(), root, TwiceListed());
    state := made.value;
    TabletTrusted(root, state.revokedAt);
    keys := VerifiedDeviceKeys(Accepting(), state, root.subject.signKey, Ascii("tablet"));
  }

  // ----- the keys a device may be addressed with -----

  /** The signing and exchange key of a device: the root's from its statement, any other's from the leaf
      of its trusted chain. */
  method VerifiedDeviceKeys(crypto: Crypto, state: TrustState, pin: Fingerprint, id: Text)
    returns (keys: Option<(PublicKey, PublicKey)>)
    ensures id == state.root.subject.deviceId
            ==> keys == Some((state.root.subject.signKey, state.root.subject.exchangeKey))
    ensures id != state.root.subject.deviceId ==>
              match keys
              case Some(k) => id in state.chains && Trusted(crypto, pin, state.root, state.chains[id], state.revokedAt)
                              && LeafKeys(state.chains[id], id, k)
              case None => id !in state.chains || !Trusted(crypto, pin, state.root, state.chains[id], state.revokedAt)
                           || state.chains[id][|state.chains[id]| - 1].subject.deviceId != id
  {
    if id == state.root.subject.deviceId {
      return Some((state.root.subject.signKey, state.root.subject.exchangeKey));
    }
    if id !in state.chains {
      return None;
    }
    var chain := state.chains[id];
    var verified := VerifyCertificateChain(crypto, pin, state.root, chain, state.revokedAt);
    if verified.Err? {
      return None;
    }
    var leaf := chain[|chain| - 1];
    keys := if leaf.subject.deviceId == id then Some((leaf.subject.signKey, leaf.subject.exchangeKey)) else None;
  }

  predicate LeafKeys(chain: seq<Certificate>, id: Text, keys: (PublicKey, PublicKey)) {
    && chain != []
    && var leaf := chain[|chain| - 1].subject;
       leaf.deviceId == id && keys == (leaf.signKey, leaf.exchangeKey)
  }

  /** Whatever the server put in the directory, keys handed out for another device were certified under
      its id by the last device of a path that starts at the pinned root. */
  lemma KeysWereCertified(crypto: Crypto, pin: Fingerprint, state: TrustState, id: Text, keys: (PublicKey, PublicKey),
                          signed: (PublicKey, Statement) -> bool)
    requires Unforgeable(crypto, signed)
    requires id in state.chains && Trusted(crypto, pin, state.root, state.chains[id], state.revokedAt)
    requires LeafKeys(state.chains[id], id, keys)
    ensures exists path: seq<Certificate>, subject: Subject, at: Int64 ::
              Path(crypto, state.root, path, state.revokedAt)
              && signed(LastSigner(state.root, path).key, Vouched(subject, LastSigner(state.root, path).id, at))
              && subject.deviceId == id && (subject.signKey, subject.exchangeKey) == keys
  {
    hide Path, RootBytes, CertBytes;
    var chain := state.chains[id];
    var n := |chain| - 1;
    AcceptedWasIssued(crypto, pin, state.root, chain, state.revokedAt, signed, n);
    PathPrefix(crypto, state.root, chain, state.revokedAt, n);
    assert Path(crypto, state.root, chain[..n], state.revokedAt)
           && signed(LastSigner(state.root, chain[..n]).key,
                     Vouched(chain[n].subject, LastSigner(state.root, chain[..n]).id, chain[n].issuedAt));
  }
}
