/** Signed envelopes: what is signed, what is handed out and what is verified.
    SHA-256 and Ed25519 enter as functions. Keys live between two instants; a header
    carries the whole seconds of its issue time. */
module Signatures {
  import opened Prelude
  import opened Encoding
  import opened CanonicalJson
  import JR = JsonReader

  datatype ArtifactType =
    | Quote | Utt | Rtt | EtkS | EtkR | ExecutionEvent | IdentityAttestation | SettlementEvidence
    | ReplayCheckpoint | ApiRequestAudit | CapabilityManifest | CertificationReport

  datatype KeyPurpose =
    | QuoteSigning | ExecutionSigning | IdentitySigning | SettlementSigning | ReplaySigning
    | AccessTokenSigning | ApiAuditSigning

  datatype KeyStatus = KeyActive | KeyRetired | KeyRevoked

  datatype KeyRecord = KeyRecord(keyId: string, owner: string, purpose: KeyPurpose, publicKey: seq<byte>,
                                 status: KeyStatus, notBefore: int, notAfter: int)

  datatype Crypto = Crypto(sha: seq<byte> -> string,
                           sign: (string, seq<byte>) -> seq<byte>,
                           check: (seq<byte>, seq<byte>, seq<byte>) -> bool)

  datatype Envelope = Envelope(header: Value, payload: Value, signature: string)

  datatype SignError = UnknownKey | PurposeMismatch | KeyNotActive | PayloadInvalid | MalformedEnvelope

  datatype Verdict =
    | Valid | UnsupportedAlgorithm | UnsupportedVersion | KeyIdMissing | ArtifactTypeInvalid
    | ArtifactTypeMismatch | KeyNotFound | IssuerMismatch | KeyPurposeMismatch | KeyIsRevoked
    | IssuedAtInvalid | KeyNotValidAtIssuance | PayloadHashMismatch | SignatureInvalid

  function TypeName(t: ArtifactType): string {
    match t
    case Quote => "railone.quote"
    case Utt => "railone.utt"
    case Rtt => "railone.rtt"
    case EtkS => "railone.etk_s"
    case EtkR => "railone.etk_r"
    case ExecutionEvent => "railone.execution_event"
    case IdentityAttestation => "railone.identity_attestation"
    case SettlementEvidence => "railone.settlement_evidence"
    case ReplayCheckpoint => "railone.replay_checkpoint"
    case ApiRequestAudit => "railone.api_request_audit"
    case CapabilityManifest => "railone.institution_capability_manifest"
    case CertificationReport => "railone.partner_certification_report"
  }

  function TypeOf(name: string): Option<ArtifactType> {
    if name == "railone.quote" then Some(Quote)
    else if name == "railone.utt" then Some(Utt)
    else if name == "railone.rtt" then Some(Rtt)
    else if name == "railone.etk_s" then Some(EtkS)
    else if name == "railone.etk_r" then Some(EtkR)
    else if name == "railone.execution_event" then Some(ExecutionEvent)
    else if name == "railone.identity_attestation" then Some(IdentityAttestation)
    else if name == "railone.settlement_evidence" then Some(SettlementEvidence)
    else if name == "railone.replay_checkpoint" then Some(ReplayCheckpoint)
    else if name == "railone.api_request_audit" then Some(ApiRequestAudit)
    else if name == "railone.institution_capability_manifest" then Some(CapabilityManifest)
    else if name == "railone.partner_certification_report" then Some(CertificationReport)
    else None
  }

  function PurposeFor(t: ArtifactType): KeyPurpose {
    match t
    case Quote => QuoteSigning
    case IdentityAttestation => IdentitySigning
    case SettlementEvidence => SettlementSigning
    case ReplayCheckpoint => ReplaySigning
    case ApiRequestAudit => ApiAuditSigning
    case _ => ExecutionSigning
  }

  function Field(name: string, value: Value): Entry { Entry(TextKey(name), value) }

  /** Dictionary lookup; a missing key reads as null. */
  function Get(entries: seq<Entry>, name: string): Value {
    if entries == [] then Null
    else if entries[0].key == TextKey(name) then entries[0].value
    else Get(entries[1..], name)
  }

  function Header(key: KeyRecord, t: ArtifactType, issuedAt: int, payloadHash: string): Value {
    Mapping(false, [
      Field("alg", Text("EdDSA")), Field("crv", Text("Ed25519")), Field("kid", Text(key.keyId)),
      Field("iss", Text(key.owner)), Field("typ", Text(TypeName(t))), Field("v", Int(1)),
      Field("iat", Int(issuedAt)), Field("payload_sha256", Text(payloadHash))])
  }

  const DOMAIN_PREFIX: string := "RAILONE-SIGNED-ARTIFACT-V1\0"

  function Signed(h: Value, p: Value): Value {
    Mapping(false, [Field("protected", h), Field("payload", p)])
  }

  function SigningInput(header: Value, payload: Value): Result<seq<byte>, Error> {
    match CanonicalBytes(Signed(header, payload))
    case Ok(bytes) => Ok(Utf8(DOMAIN_PREFIX) + bytes)
    case Err(e) => Err(e)
  }

  /** Constructing an envelope freezes both of its mappings. */
  function MakeEnvelope(header: Value, payload: Value, signature: string): Envelope {
    Envelope(Freeze(header), Freeze(payload), signature)
  }

  function SignArtifact(c: Crypto, keys: map<string, KeyRecord>, keyId: string, t: ArtifactType,
                        payload: Value, at: int): Result<Envelope, SignError>
  {
    if keyId !in keys then Err(UnknownKey)
    else
      var key := keys[keyId];
      if key.purpose != PurposeFor(t) then Err(PurposeMismatch)
      else if !(key.status.KeyActive? && key.notBefore <= at < key.notAfter) then Err(KeyNotActive)
      else match CanonicalBytes(payload)
        case Err(_) => Err(PayloadInvalid)
        case Ok(bytes) =>
          var header := Header(key, t, Seconds(at), c.sha(bytes));
          match SigningInput(header, payload)
          case Err(_) => Err(PayloadInvalid)
          case Ok(input) => Ok(MakeEnvelope(header, payload, Base64Url(c.sign(keyId, input))))
  }

  /** The plain dictionaries an envelope is stored or sent as. */
  function ToDict(e: Envelope): Envelope { Envelope(Thaw(e.header), Thaw(e.payload), e.signature) }

  function FromDict(d: Envelope): Result<Envelope, SignError> {
    if d.header.Mapping? && d.payload.Mapping? && d.signature != ""
    then Ok(MakeEnvelope(d.header, d.payload, d.signature)) else Err(MalformedEnvelope)
  }

  /** Python counts the booleans among the integers. */
  function AsInt(v: Value): Option<int> {
    match v
    case Int(n) => Some(n)
    case Bool(b) => Some(if b then 1 else 0)
    case _ => None
  }

  datatype Claims = Claims(kid: string, artifact: ArtifactType)

  /** The checks that need the protected header alone. */
  function ReadHeader(h: seq<Entry>, expected: Option<ArtifactType>): Result<Claims, Verdict> {
    if Get(h, "alg") != Text("EdDSA") || Get(h, "crv") != Text("Ed25519") then Err(UnsupportedAlgorithm)
    else if AsInt(Get(h, "v")) != Some(1) then Err(UnsupportedVersion)
    else if !Get(h, "kid").Text? || Get(h, "kid").text == "" then Err(KeyIdMissing)
    else if !Get(h, "typ").Text? then Err(ArtifactTypeInvalid)
    else match TypeOf(Get(h, "typ").text)
      case None => Err(ArtifactTypeInvalid)
      case Some(t) =>
        if expected.Some? && expected.value != t then Err(ArtifactTypeMismatch)
        else Ok(Claims(Get(h, "kid").text, t))
  }

  /** A key is live at a whole second. */
  predicate LiveAt(key: KeyRecord, iat: int) { key.notBefore <= iat * SECOND < key.notAfter }

  /** The checks of the key named by the header. */
  function CheckKey(key: KeyRecord, h: seq<Entry>, t: ArtifactType, historical: bool): Verdict {
    if Text(key.owner) != Get(h, "iss") then IssuerMismatch
    else if key.purpose != PurposeFor(t) then KeyPurposeMismatch
    else if key.status.KeyRevoked? && !historical then KeyIsRevoked
    else match AsInt(Get(h, "iat"))
      case None => IssuedAtInvalid
      case Some(iat) => if LiveAt(key, iat) then Valid else KeyNotValidAtIssuance
  }

  /** The payload hash, then the signature over header and payload. */
  function CheckContent(c: Crypto, key: KeyRecord, e: Envelope): Verdict
    requires e.header.Mapping?
  {
    match CanonicalBytes(e.payload)
    case Err(_) => SignatureInvalid
    case Ok(bytes) =>
      if Get(e.header.entries, "payload_sha256") != Text(c.sha(bytes)) then PayloadHashMismatch
      else match (DecodeBase64Url(e.signature), SigningInput(e.header, e.payload))
        case (Some(sig), Ok(input)) => if c.check(key.publicKey, sig, input) then Valid else SignatureInvalid
        case _ => SignatureInvalid
  }

  function VerifyArtifact(c: Crypto, keys: map<string, KeyRecord>, e: Envelope,
                          expected: Option<ArtifactType>, historical: bool): Verdict
  {
    if !e.header.Mapping? then UnsupportedAlgorithm
    else match ReadHeader(e.header.entries, expected)
    case Err(v) => v
    case Ok(claims) =>
      if claims.kid !in keys then KeyNotFound
      else
        var v := CheckKey(keys[claims.kid], e.header.entries, claims.artifact, historical);
        if v.Valid? then CheckContent(c, keys[claims.kid], e) else v
  }

  lemma TypeNames(t: ArtifactType)
    ensures TypeOf(TypeName(t)) == Some(t)
  {
  }

  lemma {:induction false} GetFrozen(entries: seq<Entry>, name: string)
    ensures Get(Freeze(Mapping(false, entries)).entries, name) == Freeze(Get(entries, name))
  {
    if entries != [] {
      GetFrozen(entries[1..], name);
      var f := Freeze(Mapping(false, entries)).entries;
      assert f[1..] == Freeze(Mapping(false, entries[1..])).entries;
    }
  }

  /** The fields of a header have different names. */
  lemma HeaderNames(h: seq<Entry>, key: KeyRecord, t: ArtifactType, at: int, hash: string)
    requires h == Header(key, t, at, hash).entries
    ensures |h| == 8 && forall i :: 0 <= i < 8 ==> h[i].key.TextKey?
    ensures forall i, j :: 0 <= i < j < 8 ==> h[i].key != h[j].key
  {
    assert Place(h[0]) == 0 && Place(h[1]) == 1 && Place(h[2]) == 2 && Place(h[3]) == 3;
    assert Place(h[4]) == 4 && Place(h[5]) == 5 && Place(h[6]) == 6 && Place(h[7]) == 7;
    hide Place;
    assert forall i :: 0 <= i < 8 ==> Place(h[i]) == i;
  }

  /** The place of a header field, told by the first letters of its name. */
  function Place(e: Entry): int {
    if !e.key.TextKey? || e.key.text == "" then -1
    else match e.key.text[0]
      case 'a' => 0
      case 'c' => 1
      case 'k' => 2
      case 'i' => if |e.key.text| > 1 && e.key.text[1] == 's' then 3 else 6
      case 't' => 4
      case 'v' => 5
      case 'p' => 7
      case _ => -1
  }

  lemma {:induction false} GetAt(h: seq<Entry>, k: nat)
    requires k < |h| && h[k].key.TextKey?
    requires forall i, j :: 0 <= i < j < |h| ==> h[i].key != h[j].key
    ensures Get(h, h[k].key.text) == h[k].value
  {
    if k > 0 {
      GetAt(h[1..], k - 1);
    }
  }

  /** The frozen header of an envelope still reads as it was written. */
  lemma HeaderField(key: KeyRecord, t: ArtifactType, at: int, hash: string, k: nat)
    requires k < 8
    ensures var e := Header(key, t, at, hash).entries[k];
            e.key.TextKey? && Get(Freeze(Header(key, t, at, hash)).entries, e.key.text) == Freeze(e.value)
  {
    var h := Header(key, t, at, hash).entries;
    HeaderNames(h, key, t, at, hash);
    GetAt(h, k);
    GetFrozen(h, h[k].key.text);
  }

  lemma HeaderFields(key: KeyRecord, t: ArtifactType, at: int, hash: string)
    ensures var h := Freeze(Header(key, t, at, hash)).entries;
            && Get(h, "alg") == Text("EdDSA") && Get(h, "crv") == Text("Ed25519")
            && Get(h, "kid") == Text(key.keyId) && Get(h, "iss") == Text(key.owner)
            && Get(h, "typ") == Text(TypeName(t)) && Get(h, "v") == Int(1)
            && Get(h, "iat") == Int(at) && Get(h, "payload_sha256") == Text(hash)
  {
    forall k | 0 <= k < 8
      ensures var e := Header(key, t, at, hash).entries[k];
              e.key.TextKey? && Get(Freeze(Header(key, t, at, hash)).entries, e.key.text) == Freeze(e.value)
    {
      HeaderField(key, t, at, hash, k);
    }
    var h := Header(key, t, at, hash).entries;
    assert h[0] == Field("alg", Text("EdDSA")) && h[1] == Field("crv", Text("Ed25519"));
    assert h[2] == Field("kid", Text(key.keyId)) && h[3] == Field("iss", Text(key.owner));
    assert h[4] == Field("typ", Text(TypeName(t))) && h[5] == Field("v", Int(1));
    assert h[6] == Field("iat", Int(at)) && h[7] == Field("payload_sha256", Text(hash));
  }

  /** Header and payload enter the signing input through their JSON values only. */
  lemma {:induction false} SigningInputIgnoresForm(h: Value, p: Value, h': Value, p': Value)
    requires CanonicalBytes(h) == CanonicalBytes(h') && CanonicalBytes(p) == CanonicalBytes(p')
    requires Representable(h) ==> Canon(h) == Canon(h')
    requires Representable(p) ==> Canon(p) == Canon(p')
    ensures SigningInput(h, p) == SigningInput(h', p')
  {
    hide Canon, Render, Utf8;
    var a, b := Signed(h, p), Signed(h', p');
    assert Representable(h) == Representable(h') && Representable(p) == Representable(p');
    hide CanonicalBytes, Representable;
    assert a.entries[0] == Field("protected", h) && a.entries[1] == Field("payload", p);
    assert b.entries[0] == Field("protected", h') && b.entries[1] == Field("payload", p');
    EntriesDecideBytes(a, b);
  }

  /** A signed artifact survives any number of trips through its plain dictionary
      form. It verifies, whether or not its key has since retired, exactly when the
      key has a name, is not revoked, and was live at the whole second that the
      signing instant was cut off to. */
  lemma SignedArtifactVerifies(c: Crypto, keys: map<string, KeyRecord>, later: map<string, KeyRecord>,
                               keyId: string, t: ArtifactType, payload: Value, at: int)
    requires forall k: string, m: seq<byte> :: k in keys ==>
               |c.sign(k, m)| > 0 && c.check(keys[k].publicKey, c.sign(k, m), m)
    requires forall k :: k in keys ==> keys[k].keyId == k
    requires payload.Mapping? && SignArtifact(c, keys, keyId, t, payload, at).Ok?
    requires keyId in later && later[keyId] == keys[keyId].(status := later[keyId].status)
    ensures var e := SignArtifact(c, keys, keyId, t, payload, at).value;
            var verdict := VerifyArtifact(c, later, e, Some(t), false);
            && FromDict(ToDict(e)) == Ok(e)
            && (verdict == Valid <==>
                  keyId != "" && !later[keyId].status.KeyRevoked? && LiveAt(keys[keyId], Seconds(at)))
            && (keyId != "" && !later[keyId].status.KeyRevoked? && !LiveAt(keys[keyId], Seconds(at)) ==>
                  verdict == KeyNotValidAtIssuance)
            && (at >= 0 ==> (LiveAt(keys[keyId], Seconds(at)) <==> keys[keyId].notBefore <= Seconds(at) * SECOND))
  {
    hide Header, ReadsAs, VerifyArtifact, CanonicalBytes, SigningInput, Freeze, FromDict, ToDict, Base64Url,
         PurposeFor, Seconds;
    var key := keys[keyId];
    CutOffStaysBelow(key, at);
    var hash := c.sha(CanonicalBytes(payload).value);
    var header := Header(key, t, Seconds(at), hash);
    HeaderRead(key, t, Seconds(at), hash);
    EnvelopeVerifies(c, later, key, header, payload, t, Seconds(at), CanonicalBytes(payload).value,
                     SigningInput(header, payload).value, SignArtifact(c, keys, keyId, t, payload, at).value);
  }

  /** Cutting off never passes the end of the key's life. */
  lemma CutOffStaysBelow(key: KeyRecord, at: int)
    requires key.notBefore <= at < key.notAfter
    ensures at >= 0 ==> (LiveAt(key, Seconds(at)) <==> key.notBefore <= Seconds(at) * SECOND)
  {
  }

  /** A key that becomes valid within a second signs, in the rest of that second,
      what does not verify: 10.5 s is its first instant, 10.7 s the signing instant. */
  lemma TruncationRejects(c: Crypto, key: KeyRecord, t: ArtifactType, payload: Value)
    requires key == KeyRecord("K", "O", PurposeFor(t), [], KeyActive, 10_500_000, 20_000_000)
    requires forall m: seq<byte> :: |c.sign("K", m)| > 0 && c.check([], c.sign("K", m), m)
    requires payload.Mapping? && CanonicalBytes(payload).Ok?
    ensures var signed := SignArtifact(c, map["K" := key], "K", t, payload, 10_700_000);
            signed.Ok? && VerifyArtifact(c, map["K" := key], signed.value, Some(t), false) == KeyNotValidAtIssuance
  {
    hide VerifyArtifact, FromDict, ToDict, CanonicalBytes, SigningInput, Freeze, Base64Url, Header, PurposeFor;
    var hash := c.sha(CanonicalBytes(payload).value);
    assert Seconds(10_700_000) == 10;
    HeaderRead(key, t, 10, hash);
    HeaderSigns(key, t, 10, hash, payload);
    SignedArtifactVerifies(c, map["K" := key], map["K" := key], "K", t, payload, 10_700_000);
  }

  /** A header never keeps a payload from being signed. */
  lemma {:induction false} HeaderSigns(key: KeyRecord, t: ArtifactType, at: int, hash: string, payload: Value)
    requires CanonicalBytes(payload).Ok?
    ensures SigningInput(Header(key, t, at, hash), payload).Ok?
  {
    hide Canon, Render, Utf8, TypeName;
    var h := Header(key, t, at, hash);
    assert forall i :: 0 <= i < |h.entries| ==> h.entries[i].key.TextKey? && Representable(h.entries[i].value);
    assert Representable(h) && Representable(payload);
    var both := Signed(h, payload);
    assert both.entries[0] == Field("protected", h) && both.entries[1] == Field("payload", payload);
    assert Representable(both);
  }

  lemma EnvelopeVerifies(c: Crypto, later: map<string, KeyRecord>, key: KeyRecord, header: Value, payload: Value,
                         t: ArtifactType, iat: int, bytes: seq<byte>, input: seq<byte>, e: Envelope)
    requires header.Mapping? && payload.Mapping? && SigningInput(header, payload) == Ok(input)
    requires CanonicalBytes(payload) == Ok(bytes)
    requires e == MakeEnvelope(header, payload, Base64Url(c.sign(key.keyId, input)))
    requires e.header.Mapping? && ReadsAs(e.header.entries, key, t, iat, c.sha(bytes))
    requires key.keyId in later && later[key.keyId] == key.(status := later[key.keyId].status)
    requires key.purpose == PurposeFor(t)
    requires |c.sign(key.keyId, input)| > 0 && c.check(key.publicKey, c.sign(key.keyId, input), input)
    ensures FromDict(ToDict(e)) == Ok(e)
    ensures VerifyArtifact(c, later, e, Some(t), false) == VerdictFor(later[key.keyId], iat)
  {
    hide Freeze, Thaw, CanonicalBytes, SigningInput, ReadsAs, VerifyArtifact, Base64Url, DecodeBase64Url, VerdictFor;
    var sig := c.sign(key.keyId, input);
    EnvelopeRoundTrips(header, payload, sig);
    FrozenInput(header, payload);
    Base64UrlRoundTrip(sig);
    ContentVerifies(c, later, key, e, t, iat, bytes, input, sig);
  }

  /** What the verifier says of an untouched artifact, from its key and its issue time. */
  function VerdictFor(key: KeyRecord, iat: int): Verdict {
    if key.keyId == "" then KeyIdMissing
    else if key.status.KeyRevoked? then KeyIsRevoked
    else if LiveAt(key, iat) then Valid
    else KeyNotValidAtIssuance
  }

  lemma ContentVerifies(c: Crypto, later: map<string, KeyRecord>, key: KeyRecord, e: Envelope, t: ArtifactType,
                        iat: int, bytes: seq<byte>, input: seq<byte>, sig: seq<byte>)
    requires e.header.Mapping? && ReadsAs(e.header.entries, key, t, iat, c.sha(bytes))
    requires CanonicalBytes(e.payload) == Ok(bytes) && SigningInput(e.header, e.payload) == Ok(input)
    requires DecodeBase64Url(e.signature) == Some(sig) && c.check(key.publicKey, sig, input)
    requires key.keyId in later && later[key.keyId] == key.(status := later[key.keyId].status)
    requires key.purpose == PurposeFor(t)
    ensures VerifyArtifact(c, later, e, Some(t), false) == VerdictFor(later[key.keyId], iat)
  {
    hide ReadHeader, CheckContent, CheckKey, CanonicalBytes, SigningInput, DecodeBase64Url;
    if key.keyId != "" { KeyChecked(later[key.keyId], e.header.entries, t, iat); }
    ContentAccepted(c, later[key.keyId], e, bytes, input, sig);
  }

  lemma {:induction false} KeyChecked(key: KeyRecord, h: seq<Entry>, t: ArtifactType, iat: int)
    requires Get(h, "iss") == Text(key.owner) && Get(h, "iat") == Int(iat) && key.purpose == PurposeFor(t)
    requires key.keyId != ""
    ensures CheckKey(key, h, t, false) == VerdictFor(key, iat)
  {
  }

  lemma ContentAccepted(c: Crypto, key: KeyRecord, e: Envelope, bytes: seq<byte>, input: seq<byte>, sig: seq<byte>)
    requires e.header.Mapping? && Get(e.header.entries, "payload_sha256") == Text(c.sha(bytes))
    requires CanonicalBytes(e.payload) == Ok(bytes) && SigningInput(e.header, e.payload) == Ok(input)
    requires DecodeBase64Url(e.signature) == Some(sig) && c.check(key.publicKey, sig, input)
    ensures CheckContent(c, key, e) == Valid
  {
  }

  /** A stored header that names this key, type, issue time and payload hash. */
  ghost predicate ReadsAs(h: seq<Entry>, key: KeyRecord, t: ArtifactType, at: int, hash: string) {
    && ReadHeader(h, Some(t)) == (if key.keyId == "" then Err(KeyIdMissing) else Ok(Claims(key.keyId, t)))
    && Get(h, "iss") == Text(key.owner) && Get(h, "iat") == Int(at)
    && Get(h, "payload_sha256") == Text(hash)
  }

  lemma HeaderRead(key: KeyRecord, t: ArtifactType, at: int, hash: string)
    ensures Header(key, t, at, hash).Mapping? && Freeze(Header(key, t, at, hash)).Mapping?
    ensures ReadsAs(Freeze(Header(key, t, at, hash)).entries, key, t, at, hash)
  {
    HeaderFields(key, t, at, hash);
    TypeNames(t);
  }

  /** The verifier recomputes exactly the bytes that were hashed and signed. */
  lemma {:induction false} FrozenInput(header: Value, payload: Value)
    ensures CanonicalBytes(Freeze(payload)) == CanonicalBytes(payload)
    ensures SigningInput(Freeze(header), Freeze(payload)) == SigningInput(header, payload)
  {
    FreezeAndThawKeepBytes(payload);
    FreezeAndThawKeepBytes(header);
    FreezeKeepsCanon(payload);
    FreezeKeepsCanon(header);
    SigningInputIgnoresForm(header, payload, Freeze(header), Freeze(payload));
  }

  lemma {:induction false} EnvelopeRoundTrips(header: Value, payload: Value, sig: seq<byte>)
    requires header.Mapping? && payload.Mapping? && |sig| > 0
    ensures var e := MakeEnvelope(header, payload, Base64Url(sig)); FromDict(ToDict(e)) == Ok(e)
  {
    FreezeThawFreeze(header);
    FreezeThawFreeze(payload);
  }

  function Pair(k: Key, v: Value, l: Key, w: Value): Value { Mapping(false, [Entry(k, v), Entry(l, w)]) }

  lemma {:induction false} PairEntries(k: Key, l: Key, v: Value, w: Value, v': Value, w': Value)
    requires k != l
    ensures HasEntry(Pair(k, v, l, w), 0, Pair(k, v', l, w')) <==> SameJson(v, v')
    ensures HasEntry(Pair(k, v, l, w), 1, Pair(k, v', l, w')) <==> SameJson(w, w')
  {
    var a, b := Pair(k, v, l, w), Pair(k, v', l, w');
    assert a.entries[0] == Entry(k, v) && a.entries[1] == Entry(l, w);
    assert b.entries[0] == Entry(k, v') && b.entries[1] == Entry(l, w');
  }

  lemma {:induction false} PairSources(k: Key, l: Key, v: Value, w: Value, v': Value, w': Value)
    requires k != l
    ensures HasSource(Pair(k, v, l, w), 0, Pair(k, v', l, w')) <==> SameJson(v, v')
    ensures HasSource(Pair(k, v, l, w), 1, Pair(k, v', l, w')) <==> SameJson(w, w')
  {
    var a, b := Pair(k, v, l, w), Pair(k, v', l, w');
    assert a.entries[0] == Entry(k, v) && a.entries[1] == Entry(l, w);
    assert b.entries[0] == Entry(k, v') && b.entries[1] == Entry(l, w');
  }

  lemma {:induction false} PairIffSame(k: Key, l: Key, v: Value, w: Value, v': Value, w': Value)
    requires k != l
    ensures SameJson(Pair(k, v, l, w), Pair(k, v', l, w')) <==> SameJson(v, v') && SameJson(w, w')
  {
    hide HasEntry, HasSource;
    PairEntries(k, l, v, w, v', w');
    PairSources(k, l, v, w, v', w');
  }

  lemma {:induction false} SignedIffSame(h: Value, p: Value, h': Value, p': Value)
    ensures SameJson(Signed(h, p), Signed(h', p')) <==> SameJson(h, h') && SameJson(p, p')
  {
    hide SameJson;
    assert "protected"[1] != "payload"[1];
    PairIffSame(TextKey("protected"), TextKey("payload"), h, p, h', p');
  }

  lemma {:induction false} SignedWellFormed(h: Value, p: Value)
    requires WellFormed(h) && WellFormed(p)
    ensures WellFormed(Signed(h, p))
  {
    assert "protected"[1] != "payload"[1];
  }

  /** One signing input binds one header and one payload, up to JSON equality:
      a signature over it can vouch for no other content. */
  lemma {:induction false} SigningInputBinds(h: Value, p: Value, h': Value, p': Value)
    requires WellFormed(h) && WellFormed(p) && WellFormed(h') && WellFormed(p')
    requires SigningInput(h, p).Ok? && SigningInput(h', p').Ok?
    ensures SigningInput(h, p) == SigningInput(h', p') <==> SameJson(h, h') && SameJson(p, p')
  {
    hide SameJson, WellFormed, CanonicalBytes, Signed, Utf8;
    var a, b := Signed(h, p), Signed(h', p');
    SignedWellFormed(h, p);
    SignedWellFormed(h', p');
    SignedIffSame(h, p, h', p');
    BytesIffSameJson(a, b);
    if SigningInput(h, p) == SigningInput(h', p') {
      CutFront(Utf8(DOMAIN_PREFIX), Utf8(DOMAIN_PREFIX), CanonicalBytes(a).value, CanonicalBytes(b).value);
    }
  }

  // ------------------------------------------------ what verification means

  /** The purpose a key must have for a type of artifact. */
  ghost predicate RightPurpose(t: ArtifactType, purpose: KeyPurpose) {
    && (t == Quote <==> purpose == QuoteSigning)
    && (t == IdentityAttestation <==> purpose == IdentitySigning)
    && (t == SettlementEvidence <==> purpose == SettlementSigning)
    && (t == ReplayCheckpoint <==> purpose == ReplaySigning)
    && (t == ApiRequestAudit <==> purpose == ApiAuditSigning)
    && (t in {Utt, Rtt, EtkS, EtkR, ExecutionEvent, CapabilityManifest, CertificationReport} <==>
          purpose == ExecutionSigning)
  }

  /** The header names this key and this type, in the one supported format. */
  ghost predicate NamesKey(h: seq<Entry>, key: KeyRecord, kid: string, t: ArtifactType) {
    && Get(h, "alg") == Text("EdDSA") && Get(h, "crv") == Text("Ed25519")
    && (Get(h, "v") == Int(1) || Get(h, "v") == Bool(true))
    && kid != "" && Get(h, "kid") == Text(kid) && Get(h, "typ") == Text(TypeName(t))
    && Get(h, "iss") == Text(key.owner) && RightPurpose(t, key.purpose)
  }

  /** The header's issue time lies within the key's life. */
  ghost predicate IssuedInLife(h: seq<Entry>, key: KeyRecord) {
    match Get(h, "iat")
    case Int(n) => key.notBefore <= n * 1_000_000 < key.notAfter
    case Bool(b) => key.notBefore <= (if b then 1_000_000 else 0) < key.notAfter
    case _ => false
  }

  /** The header's hash is that of the payload, and the signature holds of both. */
  ghost predicate SignedBy(c: Crypto, key: KeyRecord, e: Envelope)
    requires e.header.Mapping?
  {
    && CanonicalBytes(e.payload).Ok? && SigningInput(e.header, e.payload).Ok? && DecodeBase64Url(e.signature).Some?
    && Get(e.header.entries, "payload_sha256") == Text(c.sha(CanonicalBytes(e.payload).value))
    && c.check(key.publicKey, DecodeBase64Url(e.signature).value, SigningInput(e.header, e.payload).value)
  }

  ghost predicate Vouches(c: Crypto, keys: map<string, KeyRecord>, e: Envelope, expected: Option<ArtifactType>,
                          historical: bool, kid: string, t: ArtifactType)
  {
    && e.header.Mapping? && kid in keys && (expected == None || expected == Some(t))
    && NamesKey(e.header.entries, keys[kid], kid, t) && (keys[kid].status == KeyRevoked ==> historical)
    && IssuedInLife(e.header.entries, keys[kid]) && SignedBy(c, keys[kid], e)
  }

  lemma TypesAreNamed(name: string)
    ensures TypeOf(name).Some? ==> name == TypeName(TypeOf(name).value)
  {
    if name == "railone.quote" {
      assert TypeOf(name) == Some(Quote);
    } else if name == "railone.utt" {
      assert TypeOf(name) == Some(Utt);
    } else if name == "railone.rtt" {
      assert TypeOf(name) == Some(Rtt);
    } else if name == "railone.etk_s" {
      assert TypeOf(name) == Some(EtkS);
    } else if name == "railone.etk_r" {
      assert TypeOf(name) == Some(EtkR);
    } else if name == "railone.execution_event" {
      assert TypeOf(name) == Some(ExecutionEvent);
    } else if name == "railone.identity_attestation" {
      assert TypeOf(name) == Some(IdentityAttestation);
    } else if name == "railone.settlement_evidence" {
      assert TypeOf(name) == Some(SettlementEvidence);
    } else if name == "railone.replay_checkpoint" {
      assert TypeOf(name) == Some(ReplayCheckpoint);
    } else if name == "railone.api_request_audit" {
      assert TypeOf(name) == Some(ApiRequestAudit);
    } else if name == "railone.institution_capability_manifest" {
      assert TypeOf(name) == Some(CapabilityManifest);
    } else if name == "railone.partner_certification_report" {
      assert TypeOf(name) == Some(CertificationReport);
    }
  }

  lemma PurposesAreRight(t: ArtifactType, purpose: KeyPurpose)
    ensures purpose == PurposeFor(t) <==> RightPurpose(t, purpose)
  {
  }

  lemma ContentIsSigned(c: Crypto, key: KeyRecord, e: Envelope)
    requires e.header.Mapping?
    ensures CheckContent(c, key, e) == Valid <==> SignedBy(c, key, e)
  {
    hide CanonicalBytes, SigningInput, DecodeBase64Url, Get;
  }

  lemma {:induction false} KeyIsChecked(key: KeyRecord, h: seq<Entry>, t: ArtifactType, historical: bool)
    ensures CheckKey(key, h, t, historical) == Valid <==>
              && Get(h, "iss") == Text(key.owner) && RightPurpose(t, key.purpose)
              && (key.status == KeyRevoked ==> historical) && IssuedInLife(h, key)
  {
    hide Get, PurposeFor, RightPurpose;
    PurposesAreRight(t, key.purpose);
  }

  lemma {:induction false} HeaderIsRead(h: seq<Entry>, expected: Option<ArtifactType>, kid: string, t: ArtifactType)
    ensures ReadHeader(h, expected) == Ok(Claims(kid, t)) <==>
              && Get(h, "alg") == Text("EdDSA") && Get(h, "crv") == Text("Ed25519")
              && (Get(h, "v") == Int(1) || Get(h, "v") == Bool(true)) && kid != "" && Get(h, "kid") == Text(kid)
              && Get(h, "typ") == Text(TypeName(t)) && (expected == None || expected == Some(t))
  {
    hide Get, TypeName, TypeOf;
    TypeNames(t);
    if Get(h, "typ").Text? { TypesAreNamed(Get(h, "typ").text); }
  }

  lemma HeaderErrs(h: seq<Entry>, expected: Option<ArtifactType>)
    ensures ReadHeader(h, expected) != Err(Valid)
  {
    hide Get, TypeOf;
  }

  /** An envelope is Valid exactly when its header, in the one supported format, names a
      stored key of the right purpose and that key's owner, the key is not revoked (or
      history is asked for) and lived at the issue time, the header's hash is that of the
      payload, and the key's check accepts the signature over header and payload. */
  lemma {:induction false} ValidExactly(c: Crypto, keys: map<string, KeyRecord>, e: Envelope,
                                        expected: Option<ArtifactType>, historical: bool)
    ensures VerifyArtifact(c, keys, e, expected, historical) == Valid <==>
              exists kid, t :: Vouches(c, keys, e, expected, historical, kid, t)
  {
    hide Get, ReadHeader, CheckKey, CheckContent, SignedBy, IssuedInLife, RightPurpose, TypeName;
    if e.header.Mapping? {
      var h := e.header.entries;
      forall kid, t ensures Vouches(c, keys, e, expected, historical, kid, t) <==>
                            && ReadHeader(h, expected) == Ok(Claims(kid, t)) && kid in keys
                            && CheckKey(keys[kid], h, t, historical) == Valid
                            && CheckContent(c, keys[kid], e) == Valid {
        HeaderIsRead(h, expected, kid, t);
        if kid in keys {
          KeyIsChecked(keys[kid], h, t, historical);
          ContentIsSigned(c, keys[kid], e);
        }
      }
      if VerifyArtifact(c, keys, e, expected, historical) == Valid {
        HeaderErrs(h, expected);
        var claims := ReadHeader(h, expected).value;
        assert Vouches(c, keys, e, expected, historical, claims.kid, claims.artifact);
      }
    }
  }

  /** What was signed, by which key. */
  datatype Issue = Issue(keyId: string, header: Value, payload: Value)

  ghost predicate Covers(issued: set<Issue>, kid: string, input: seq<byte>) {
    exists x :: x in issued && x.keyId == kid && SigningInput(x.header, x.payload) == Ok(input)
  }

  /** A check accepts only what its key signed. */
  ghost predicate Unforgeable(c: Crypto, keys: map<string, KeyRecord>, issued: set<Issue>) {
    forall kid, sig, input :: kid in keys && c.check(keys[kid].publicKey, sig, input) ==> Covers(issued, kid, input)
  }

  ghost predicate Genuine(issued: set<Issue>, kid: string, e: Envelope) {
    exists x :: x in issued && x.keyId == kid && SameJson(x.header, e.header) && SameJson(x.payload, e.payload)
  }

  /** If signatures cannot be forged, a Valid envelope has the header and the payload, up to
      JSON equality, of something the key it names has signed: no field of either can be
      altered. */
  lemma {:induction false} ForgeriesAreRefused(c: Crypto, keys: map<string, KeyRecord>, issued: set<Issue>, e: Envelope,
                                               expected: Option<ArtifactType>, historical: bool)
    requires Unforgeable(c, keys, issued) && WellFormed(e.header) && WellFormed(e.payload)
    requires forall x :: x in issued ==> WellFormed(x.header) && WellFormed(x.payload)
    requires VerifyArtifact(c, keys, e, expected, historical) == Valid
    ensures e.header.Mapping? && Get(e.header.entries, "kid").Text?
    ensures Genuine(issued, Get(e.header.entries, "kid").text, e)
  {
    hide VerifyArtifact, Get, RightPurpose, IssuedInLife, SigningInput, CanonicalBytes, SameJson, WellFormed,
         DecodeBase64Url;
    ValidExactly(c, keys, e, expected, historical);
    var kid, t :| Vouches(c, keys, e, expected, historical, kid, t);
    var input := SigningInput(e.header, e.payload).value;
    assert Covers(issued, kid, input);
    var x :| x in issued && x.keyId == kid && SigningInput(x.header, x.payload) == Ok(input);
    SigningInputBinds(x.header, x.payload, e.header, e.payload);
  }

  /** Signing answers for the first thing that is wrong: an unknown key, a key of another
      purpose, a key that is not active or not alive at that instant, a payload with no
      canonical form. Otherwise it signs. */
  lemma SignsExactly(c: Crypto, keys: map<string, KeyRecord>, keyId: string, t: ArtifactType, payload: Value, at: int)
    ensures var r := SignArtifact(c, keys, keyId, t, payload, at);
            if keyId !in keys then r == Err(UnknownKey)
            else if !RightPurpose(t, keys[keyId].purpose) then r == Err(PurposeMismatch)
            else if keys[keyId].status != KeyActive || at < keys[keyId].notBefore || keys[keyId].notAfter <= at
            then r == Err(KeyNotActive)
            else if CanonicalBytes(payload).Err? then r == Err(PayloadInvalid)
            else
              && r.Ok?
              && var h := Header(keys[keyId], t, Seconds(at), c.sha(CanonicalBytes(payload).value));
                 && SigningInput(h, payload).Ok?
                 && r.value == MakeEnvelope(h, payload, Base64Url(c.sign(keyId, SigningInput(h, payload).value)))
  {
    hide PurposeFor, RightPurpose, CanonicalBytes, SigningInput, Header, Base64Url, MakeEnvelope, Seconds;
    if keyId in keys {
      PurposesAreRight(t, keys[keyId].purpose);
      if CanonicalBytes(payload).Ok? {
        HeaderSigns(keys[keyId], t, Seconds(at), c.sha(CanonicalBytes(payload).value), payload);
      }
    }
  }

  /** What is signed is a tag and then a JSON text that reads back as one object: the payload
      and the protected header, and nothing else. */
  lemma {:induction false} SignedTextReads(h: Value, p: Value)
    requires WellFormed(h) && WellFormed(p) && SigningInput(h, p).Ok?
    ensures Representable(h) && Representable(p)
    ensures var input, tag := SigningInput(h, p).value, Utf8("RAILONE-SIGNED-ARTIFACT-V1\0");
            && tag <= input
            && var text := DecodeUtf8(input[|tag|..]);
            && text.Some?
            && JR.ReadValue(text.value)
               == Some((JObject([Member("payload", Canon(p)), Member("protected", Canon(h))]), ""))
  {
    hide Canon, Utf8, DecodeUtf8, JR.ReadValue, WellFormed;
    var both := Signed(h, p);
    var tag := Utf8(DOMAIN_PREFIX);
    assert both.entries[0] == Field("protected", h) && both.entries[1] == Field("payload", p);
    assert SigningInput(h, p).value[|tag|..] == CanonicalBytes(both).value;
    SignedWellFormed(h, p);
    JR.CanonicalBytesReadBack(both);
    SignedMembers(h, p);
  }

  lemma {:induction false} SignedEntries(h: Value, p: Value, m: Member)
    requires Representable(h) && Representable(p) && Representable(Signed(h, p)) && JR.IsEntryOf(Signed(h, p), m)
    ensures m == Member("payload", Canon(p)) || m == Member("protected", Canon(h))
  {
    hide Canon, Representable;
    var both := Signed(h, p);
    assert both.entries[0] == Field("protected", h) && both.entries[1] == Field("payload", p);
  }

  lemma {:induction false} SignedMembers(h: Value, p: Value)
    requires Representable(h) && Representable(p) && Representable(Signed(h, p)) && WellFormed(Signed(h, p))
    ensures Canon(Signed(h, p)) == JObject([Member("payload", Canon(p)), Member("protected", Canon(h))])
  {
    var both := Signed(h, p);
    assert Canon(both).JObject? && |both.entries| == 2;
    JR.MembersAscend(both);
    hide Canon, WellFormed, Representable, JR.IsEntryOf, StrLt, Signed;
    var ms := Canon(both).members;
    assert ms[0] in ms && ms[1] in ms;
    SignedEntries(h, p, ms[0]);
    SignedEntries(h, p, ms[1]);
    PayloadFirst();
    assert ms == [Member("payload", Canon(p)), Member("protected", Canon(h))];
  }

  lemma PayloadFirst()
    ensures StrLt("payload", "protected") && !StrLt("protected", "payload")
    ensures !StrLt("payload", "payload") && !StrLt("protected", "protected")
  {
    var a, b := "payload", "protected";
    assert a[0] == b[0] && a[1..][0] == 'a' && b[1..][0] == 'r';
    assert StrLt(a[1..], b[1..]);
    StrLtAsymmetric(a, b);
    if StrLt(a, a) { StrLtAsymmetric(a, a); }
    if StrLt(b, b) { StrLtAsymmetric(b, b); }
  }
}
