/** Identity continuity: one append-only chain of revisions per identity, kept
    under two lookup maps, with onboarding and revising callers interleaving. */
module Identity {
  import opened Prelude
  import opened Encoding

  datatype Status = Active | ReverificationRequired | Suspended | Revoked

  datatype Genesis = Genesis(rigId: string, uid: string, keyId: string, fingerprint: string, providerId: string,
                             reference: string, evidenceSha: string, attestationId: string, createdAt: int)

  datatype Revision = Revision(rivId: string, rioId: string, uid: string, number: int, tier: string, status: Status,
                               reason: string, attestationId: string, createdAt: int)

  datatype Object = Object(rioId: string, railoneId: string, uid: string, rigId: string, activeRiv: string,
                           corridor: string, status: Status, createdAt: int)

  datatype Bundle = Bundle(genesis: Genesis, identity: Object, active: Revision)

  datatype IdentityError =
    | FingerprintExists | UidExists | IdentityNotFound | ChangedConcurrently | MustAdvanceOnce | AnchorChanged
    | ProjectionMismatch | LineageMismatch | AttestationReused | RevokedIdentity
    | TextRequired | AttestationRejected | SubjectMismatch | CountryMismatch

  datatype Repo = Repo(byFingerprint: map<string, Bundle>, byUid: map<string, Bundle>,
                       revisions: map<string, seq<Revision>>)

  const NO_IDENTITIES := Repo(map[], map[], map[])

  function Save(r: Repo, b: Bundle): Result<Repo, IdentityError> {
    if b.genesis.fingerprint in r.byFingerprint then Err(FingerprintExists)
    else if b.identity.uid in r.byUid then Err(UidExists)
    else Ok(Repo(r.byFingerprint[b.genesis.fingerprint := b], r.byUid[b.identity.uid := b],
                 r.revisions[b.identity.uid := [b.active]]))
  }

  /** The anchor fields a revision must leave alone. */
  predicate SameAnchor(a: Bundle, b: Bundle) {
    a.genesis == b.genesis && a.identity.(activeRiv := b.identity.activeRiv, status := b.identity.status) == b.identity
  }

  function HistoryOf(r: Repo, uid: string): seq<Revision> { if uid in r.revisions then r.revisions[uid] else [] }

  predicate Attested(h: seq<Revision>, attestationId: string) {
    exists i :: 0 <= i < |h| && h[i].attestationId == attestationId
  }

  function AppendRevision(r: Repo, expected: int, b: Bundle): Result<Repo, IdentityError> {
    var uid := b.identity.uid;
    if uid !in r.byUid then Err(IdentityNotFound)
    else if r.byUid[uid].active.number != expected then Err(ChangedConcurrently)
    else if b.active.number != expected + 1 then Err(MustAdvanceOnce)
    else if !SameAnchor(r.byUid[uid], b) then Err(AnchorChanged)
    else if b.identity.activeRiv != b.active.rivId || b.identity.status != b.active.status then Err(ProjectionMismatch)
    else if b.active.rioId != b.identity.rioId || b.active.uid != uid then Err(LineageMismatch)
    else if Attested(HistoryOf(r, uid), b.active.attestationId) then Err(AttestationReused)
    else
      Ok(Repo(r.byFingerprint[r.byUid[uid].genesis.fingerprint := b], r.byUid[uid := b],
              r.revisions[uid := HistoryOf(r, uid) + [b.active]]))
  }

  // ---------------------------------------------------------------- service

  /** Who is to be identified, as the caller states it. */
  datatype Seed = Seed(providerId: string, subject: string, country: string)

  /** What an attestation says; valid is the verdict of its verifier for the seed's provider. */
  datatype Claims = Claims(valid: bool, subject: string, country: string, reference: string, evidenceSha: string,
                           attestationId: string, tier: string)

  /** The key in use, the fingerprint it gives a seed, and the text derived from that. */
  datatype Config = Config(keyId: string, fingerprint: Seed -> string, segment: string -> string)

  function Normal(s: string): string { Upper(Strip(s)) }

  function NormalSeed(seed: Seed): Seed { Seed(Normal(seed.providerId), Normal(seed.subject), Normal(seed.country)) }

  /** The checks that onboarding and revising share, in order. */
  function ClaimsProblem(seed: Seed, k: Claims): Option<IdentityError> {
    if Strip(seed.providerId) == "" || Strip(seed.subject) == "" || Strip(seed.country) == "" then Some(TextRequired)
    else if !k.valid then Some(AttestationRejected)
    else if Strip(k.subject) == "" then Some(TextRequired)
    else if Normal(k.subject) != Normal(seed.subject) then Some(SubjectMismatch)
    else if Strip(k.country) == "" then Some(TextRequired)
    else if Normal(k.country) != Normal(seed.country) then Some(CountryMismatch)
    else None
  }

  function FirstBundle(c: Config, seed: Seed, k: Claims, corridor: string, at: int): Bundle {
    var fingerprint := c.fingerprint(seed);
    var seg := c.segment(fingerprint);
    Bundle(Genesis("RIG-" + seg, "CUID-" + seg, c.keyId, fingerprint, seed.providerId, k.reference, k.evidenceSha,
                   k.attestationId, at),
           Object("RIO-" + seg, "R1-" + corridor + "-" + seg, "CUID-" + seg, "RIG-" + seg, "RIV-" + seg + "-R1",
                  corridor, Active, at),
           Revision("RIV-" + seg + "-R1", "RIO-" + seg, "CUID-" + seg, 1, k.tier, Active, "INITIAL_VERIFIED_ONBOARDING",
                    k.attestationId, at))
  }

  function Tail(uid: string): string { if |uid| >= 5 then uid[5..] else "" }

  function Revised(b: Bundle, k: Claims, status: Status, reason: string, at: int): Bundle {
    var n := b.active.number + 1;
    var riv := "RIV-" + Tail(b.identity.uid) + "-R" + Decimal(n);
    Bundle(b.genesis, b.identity.(activeRiv := riv, status := status),
           Revision(riv, b.identity.rioId, b.identity.uid, n, k.tier, status, reason, k.attestationId, at))
  }

  /** onboard, uninterrupted: the stored bundle, and whether it was there before. */
  function Onboard(c: Config, r: Repo, seed: Seed, k: Claims, corridor: string, at: int)
    : (Repo, Result<(Bundle, bool), IdentityError>)
  {
    var fingerprint := c.fingerprint(NormalSeed(seed));
    if ClaimsProblem(seed, k).Some? then (r, Err(ClaimsProblem(seed, k).value))
    else if fingerprint in r.byFingerprint then (r, Ok((r.byFingerprint[fingerprint], true)))
    else if Strip(corridor) == "" then (r, Err(TextRequired))
    else
      var b := FirstBundle(c, NormalSeed(seed), k, Normal(corridor), at);
      match Save(r, b)
      case Err(e) => (r, Err(e))
      case Ok(r') => (r', Ok((b, false)))
  }

  /** revise, uninterrupted. */
  function Revise(c: Config, r: Repo, seed: Seed, k: Claims, status: Status, reason: string, at: int)
    : (Repo, Result<Bundle, IdentityError>)
  {
    var fingerprint := c.fingerprint(NormalSeed(seed));
    if Strip(reason) == "" then (r, Err(TextRequired))
    else if ClaimsProblem(seed, k).Some? then (r, Err(ClaimsProblem(seed, k).value))
    else if fingerprint !in r.byFingerprint then (r, Err(IdentityNotFound))
    else
      var b := r.byFingerprint[fingerprint];
      if b.identity.status == Revoked then (r, Err(RevokedIdentity))
      else
        var updated := Revised(b, k, status, Normal(reason), at);
        match AppendRevision(r, b.active.number, updated)
        case Err(e) => (r, Err(e))
        case Ok(r') => (r', Ok(updated))
  }

  class InMemoryIdentityRepository {
    var byFingerprint: map<string, Bundle>
    var byUid: map<string, Bundle>
    var revisions: map<string, seq<Revision>>

    ghost function View(): Repo
      reads this
    {
      Repo(byFingerprint, byUid, revisions)
    }

    constructor ()
      ensures View() == NO_IDENTITIES
    {
      byFingerprint, byUid, revisions := map[], map[], map[];
    }

    method SaveBundle(b: Bundle) returns (r: Result<(), IdentityError>)
      modifies this
      ensures match Save(old(View()), b)
              case Ok(repo) => r == Ok(()) && View() == repo
              case Err(e) => r == Err(e) && View() == old(View())
    {
      if b.genesis.fingerprint in byFingerprint {
        return Err(FingerprintExists);
      }
      if b.identity.uid in byUid {
        return Err(UidExists);
      }
      byFingerprint := byFingerprint[b.genesis.fingerprint := b];
      byUid := byUid[b.identity.uid := b];
      revisions := revisions[b.identity.uid := [b.active]];
      r := Ok(());
    }

    method Append(expected: int, b: Bundle) returns (r: Result<(), IdentityError>)
      modifies this
      ensures match AppendRevision(old(View()), expected, b)
              case Ok(repo) => r == Ok(()) && View() == repo
              case Err(e) => r == Err(e) && View() == old(View())
    {
      var uid := b.identity.uid;
      if uid !in byUid {
        return Err(IdentityNotFound);
      }
      var current := byUid[uid];
      if current.active.number != expected {
        return Err(ChangedConcurrently);
      }
      if b.active.number != expected + 1 {
        return Err(MustAdvanceOnce);
      }
      if !SameAnchor(current, b) {
        return Err(AnchorChanged);
      }
      if b.identity.activeRiv != b.active.rivId || b.identity.status != b.active.status {
        return Err(ProjectionMismatch);
      }
      if b.active.rioId != b.identity.rioId || b.active.uid != uid {
        return Err(LineageMismatch);
      }
      var history := if uid in revisions then revisions[uid] else [];
      if Attested(history, b.active.attestationId) {
        return Err(AttestationReused);
      }
      revisions := revisions[uid := history + [b.active]];
      byUid := byUid[uid := b];
      byFingerprint := byFingerprint[current.genesis.fingerprint := b];
      r := Ok(());
    }
  }

  class IdentityContinuityService {
    const config: Config
    const repository: InMemoryIdentityRepository

    constructor (config: Config, repository: InMemoryIdentityRepository)
      ensures this.config == config && this.repository == repository
    {
      this.config, this.repository := config, repository;
    }

    method OnboardIdentity(seed: Seed, k: Claims, corridor: string, at: int)
      returns (r: Result<(Bundle, bool), IdentityError>)
      modifies repository
      ensures (repository.View(), r) == Onboard(config, old(repository.View()), seed, k, corridor, at)
    {
      hide FirstBundle, ClaimsProblem, Strip, NormalSeed;
      var problem := ClaimsProblem(seed, k);
      if problem.Some? {
        return Err(problem.value);
      }
      var fingerprint := config.fingerprint(NormalSeed(seed));
      if fingerprint in repository.byFingerprint {
        return Ok((repository.byFingerprint[fingerprint], true));
      }
      if Strip(corridor) == "" {
        return Err(TextRequired);
      }
      var b := FirstBundle(config, NormalSeed(seed), k, Normal(corridor), at);
      var saved := repository.SaveBundle(b);
      r := if saved.Ok? then Ok((b, false)) else Err(saved.error);
    }

    method ReviseIdentity(seed: Seed, k: Claims, status: Status, reason: string, at: int)
      returns (r: Result<Bundle, IdentityError>)
      modifies repository
      ensures (repository.View(), r) == Revise(config, old(repository.View()), seed, k, status, reason, at)
    {
      hide Revised, AppendRevision, ClaimsProblem, Strip, NormalSeed;
      if Strip(reason) == "" {
        return Err(TextRequired);
      }
      var problem := ClaimsProblem(seed, k);
      if problem.Some? {
        return Err(problem.value);
      }
      var fingerprint := config.fingerprint(NormalSeed(seed));
      if fingerprint !in repository.byFingerprint {
        return Err(IdentityNotFound);
      }
      var current := repository.byFingerprint[fingerprint];
      if current.identity.status == Revoked {
        return Err(RevokedIdentity);
      }
      var updated := Revised(current, k, status, Normal(reason), at);
      var appended := repository.Append(current.active.number, updated);
      r := if appended.Ok? then Ok(updated) else Err(appended.error);
    }
  }

  // ------------------------------------------------------------------- runs

  datatype Caller =
    | Away
    | Absent(seed: Seed, claims: Claims, corridor: string)
    | Saw(bundle: Bundle, claims: Claims, status: Status, reason: string)

  datatype World = World(repo: Repo, callers: map<int, Caller>)

  const START := World(NO_IDENTITIES, map[])

  datatype Action =
    | LookToOnboard(caller: int, seed: Seed, claims: Claims, corridor: string)
    | LookToRevise(caller: int, seed: Seed, claims: Claims, status: Status, reason: string)
    | Write(caller: int, at: int)
    | Crash(caller: int)

  function CallerOf(w: World, k: int): Caller { if k in w.callers then w.callers[k] else Away }

  function Put(w: World, k: int, c: Caller): World { w.(callers := w.callers[k := c]) }

  function DoWrite(c: Config, w: World, k: int, at: int): World {
    var repo :=
      match CallerOf(w, k)
      case Away => Err(IdentityNotFound)
      case Absent(seed, claims, corridor) => Save(w.repo, FirstBundle(c, seed, claims, corridor, at))
      case Saw(b, claims, status, reason) =>
        AppendRevision(w.repo, b.active.number, Revised(b, claims, status, reason, at));
    if repo.Ok? then Put(w, k, Away).(repo := repo.value) else Put(w, k, Away)
  }

  function Do(c: Config, w: World, a: Action): World {
    match a
    case LookToOnboard(k, seed, claims, corridor) =>
      Put(w, k, if ClaimsProblem(seed, claims).None? && c.fingerprint(NormalSeed(seed)) !in w.repo.byFingerprint
                   && Strip(corridor) != ""
                then Absent(NormalSeed(seed), claims, Normal(corridor)) else Away)
    case LookToRevise(k, seed, claims, status, reason) =>
      var f := c.fingerprint(NormalSeed(seed));
      Put(w, k, if Strip(reason) != "" && ClaimsProblem(seed, claims).None? && f in w.repo.byFingerprint
                   && w.repo.byFingerprint[f].identity.status != Revoked
                then Saw(w.repo.byFingerprint[f], claims, status, Normal(reason)) else Away)
    case Write(k, at) => DoWrite(c, w, k, at)
    case Crash(k) => Put(w, k, Away)
  }

  function Exec(c: Config, w: World, actions: seq<Action>): World
    decreases |actions|
  {
    if actions == [] then w else Exec(c, Do(c, w, actions[0]), actions[1..])
  }

  // -------------------------------------------------------------- invariant

  /** Revisions 1 to n of one identity, each with its own attestation, none after a revocation. */
  ghost predicate ChainOk(h: seq<Revision>, uid: string, rioId: string) {
    && h != []
    && (forall i :: 0 <= i < |h| ==> h[i].number == i + 1 && h[i].uid == uid && h[i].rioId == rioId)
    && (forall i, j :: 0 <= i < j < |h| ==> h[i].attestationId != h[j].attestationId && h[i].status != Revoked)
  }

  /** One identity: both maps hold the same bundle, whose active revision is the last. */
  ghost predicate IdentityOk(r: Repo, uid: string) {
    uid in r.byUid ==>
      var b, h := r.byUid[uid], HistoryOf(r, uid);
      && b.identity.uid == uid && ChainOk(h, uid, b.identity.rioId)
      && b.active == h[|h| - 1] && b.identity.activeRiv == b.active.rivId && b.identity.status == b.active.status
      && b.genesis.uid == uid && b.genesis.attestationId == h[0].attestationId
      && b.genesis.fingerprint in r.byFingerprint && r.byFingerprint[b.genesis.fingerprint] == b
  }

  ghost predicate FingerprintOk(r: Repo, f: string) {
    f in r.byFingerprint ==>
      var b := r.byFingerprint[f];
      b.genesis.fingerprint == f && b.identity.uid in r.byUid && r.byUid[b.identity.uid] == b
  }

  /** What a caller read is an earlier state of the same identity, and not a revoked one. */
  ghost predicate CallerOk(r: Repo, c: Caller) {
    c.Saw? ==>
      && c.bundle.identity.status != Revoked && c.bundle.identity.uid in r.byUid
      && var now := r.byUid[c.bundle.identity.uid];
      && c.bundle.active.number <= now.active.number
      && (c.bundle.active.number == now.active.number ==> c.bundle == now)
  }

  ghost predicate RepoOk(r: Repo) {
    && (forall uid :: IdentityOk(r, uid)) && (forall f :: FingerprintOk(r, f)) && r.revisions.Keys == r.byUid.Keys
  }

  ghost predicate Inv(w: World) {
    RepoOk(w.repo) && forall k :: k in w.callers ==> CallerOk(w.repo, w.callers[k])
  }

  /** An identity is never dropped, its anchor never changes, its history only grows,
      and once it is revoked it stays exactly as it is. */
  ghost predicate Continues(r: Repo, r': Repo) {
    forall uid :: uid in r.byUid ==>
      && uid in r'.byUid && SameAnchor(r.byUid[uid], r'.byUid[uid])
      && HistoryOf(r, uid) <= HistoryOf(r', uid)
      && (r.byUid[uid].identity.status == Revoked ==>
            r'.byUid[uid] == r.byUid[uid] && HistoryOf(r', uid) == HistoryOf(r, uid))
  }

  lemma SaveKeeps(c: Config, r: Repo, seed: Seed, k: Claims, corridor: string, at: int)
    requires RepoOk(r) && Save(r, FirstBundle(c, seed, k, corridor, at)).Ok?
    ensures var r' := Save(r, FirstBundle(c, seed, k, corridor, at)).value;
            RepoOk(r') && Continues(r, r') && forall u :: u in r.byUid ==> u in r'.byUid && r'.byUid[u] == r.byUid[u]
  {
    var b := FirstBundle(c, seed, k, corridor, at);
    FirstIsWhole(c, seed, k, corridor, at);
    hide FirstBundle, ChainOk, SameAnchor, Continues;
    var r' := Save(r, b).value;
    OneIsAChain(b.active, b.identity.uid, b.identity.rioId);
    forall uid ensures IdentityOk(r', uid) { assert IdentityOk(r, uid); }
    forall g ensures FingerprintOk(r', g) { assert FingerprintOk(r, g); }
    NewcomerContinues(r, r', b);
  }

  lemma OneIsAChain(first: Revision, uid: string, rioId: string)
    requires first.number == 1 && first.uid == uid && first.rioId == rioId
    ensures ChainOk([first], uid, rioId)
  {
  }

  lemma NewcomerContinues(r: Repo, r': Repo, b: Bundle)
    requires b.identity.uid !in r.byUid && r'.byUid == r.byUid[b.identity.uid := b]
    requires r'.revisions == r.revisions[b.identity.uid := [b.active]]
    ensures Continues(r, r')
  {
  }

  lemma FirstIsWhole(c: Config, seed: Seed, k: Claims, corridor: string, at: int)
    ensures var b := FirstBundle(c, seed, k, corridor, at);
            && b.genesis.fingerprint == c.fingerprint(seed) && b.genesis.uid == b.identity.uid
            && b.active.uid == b.identity.uid
            && b.active.number == 1 && b.active.rioId == b.identity.rioId && b.identity.activeRiv == b.active.rivId
            && b.identity.status == b.active.status && b.genesis.attestationId == b.active.attestationId
  {
  }

  lemma ChainGrows(h: seq<Revision>, uid: string, rioId: string, next: Revision)
    requires ChainOk(h, uid, rioId) && next.number == |h| + 1 && next.uid == uid && next.rioId == rioId
    requires !Attested(h, next.attestationId) && h[|h| - 1].status != Revoked
    ensures ChainOk(h + [next], uid, rioId)
  {
    var h' := h + [next];
    forall i, j | 0 <= i < j < |h'| ensures h'[i].attestationId != h'[j].attestationId && h'[i].status != Revoked {
      assert j == |h| ==> h'[i] == h[i];
    }
  }

  /** An append that goes through extends the chain of an identity that is not revoked. */
  lemma AppendKeeps(r: Repo, expected: int, b: Bundle)
    requires RepoOk(r) && AppendRevision(r, expected, b).Ok? && r.byUid[b.identity.uid].identity.status != Revoked
    ensures var r' := AppendRevision(r, expected, b).value; RepoOk(r') && Continues(r, r')
  {
    hide ChainOk, Continues, Attested;
    var uid := b.identity.uid;
    var r' := AppendRevision(r, expected, b).value;
    var h := HistoryOf(r, uid);
    assert IdentityOk(r, uid);
    ChainLength(h, uid, r.byUid[uid].identity.rioId);
    ChainGrows(h, uid, b.identity.rioId, b.active);
    AppendContinues(r, r', b);
    hide IdentityOk;
    forall u ensures IdentityOk(r', u) { OthersKept(r, r', b, u); }
    forall f ensures FingerprintOk(r', f) { assert FingerprintOk(r, f); }
  }

  lemma AppendContinues(r: Repo, r': Repo, b: Bundle)
    requires b.identity.uid in r.byUid && SameAnchor(r.byUid[b.identity.uid], b)
    requires r.byUid[b.identity.uid].identity.status != Revoked && r'.byUid == r.byUid[b.identity.uid := b]
    requires r'.revisions == r.revisions[b.identity.uid := HistoryOf(r, b.identity.uid) + [b.active]]
    ensures Continues(r, r')
  {
  }

  lemma ChainLength(h: seq<Revision>, uid: string, rioId: string)
    requires ChainOk(h, uid, rioId)
    ensures h != [] && h[|h| - 1].number == |h|
  {
  }

  lemma OthersKept(r: Repo, r': Repo, b: Bundle, u: string)
    requires RepoOk(r) && b.identity.uid in r.byUid && SameAnchor(r.byUid[b.identity.uid], b)
    requires r' == Repo(r.byFingerprint[b.genesis.fingerprint := b], r.byUid[b.identity.uid := b],
                        r.revisions[b.identity.uid := HistoryOf(r, b.identity.uid) + [b.active]])
    requires b.identity.activeRiv == b.active.rivId && b.identity.status == b.active.status
    requires ChainOk(HistoryOf(r, b.identity.uid) + [b.active], b.identity.uid, b.identity.rioId)
    requires HistoryOf(r, b.identity.uid) != []
    ensures IdentityOk(r', u)
  {
    hide ChainOk;
    assert IdentityOk(r, u) && IdentityOk(r, b.identity.uid);
  }

  lemma WriteKeepsInv(c: Config, w: World, k: int, at: int)
    requires Inv(w)
    ensures Inv(DoWrite(c, w, k, at)) && Continues(w.repo, DoWrite(c, w, k, at).repo)
  {
    hide RepoOk, Continues, FirstBundle, AppendRevision, Save, Revised;
    var w' := DoWrite(c, w, k, at);
    var caller := CallerOf(w, k);
    ContinuesItself(w.repo);
    if caller.Absent? {
      var b := FirstBundle(c, caller.seed, caller.claims, caller.corridor, at);
      if Save(w.repo, b).Ok? {
        SaveKeeps(c, w.repo, caller.seed, caller.claims, caller.corridor, at);
        CallersKept(w, w', k);
      }
    } else if caller.Saw? {
      var b := Revised(caller.bundle, caller.claims, caller.status, caller.reason, at);
      if AppendRevision(w.repo, caller.bundle.active.number, b).Ok? {
        AppendShape(w.repo, caller, at);
        AppendKeeps(w.repo, caller.bundle.active.number, b);
        CallersKept(w, w', k);
      }
    }
  }

  lemma ContinuesItself(r: Repo)
    ensures Continues(r, r)
  {
  }

  /** A successful append was decided on the identity as it is now. */
  lemma AppendShape(r: Repo, c: Caller, at: int)
    requires c.Saw? && CallerOk(r, c)
    requires AppendRevision(r, c.bundle.active.number, Revised(c.bundle, c.claims, c.status, c.reason, at)).Ok?
    ensures var b := Revised(c.bundle, c.claims, c.status, c.reason, at);
            && b.identity.uid in r.byUid && r.byUid[b.identity.uid].identity.status != Revoked
            && b.active.number == r.byUid[b.identity.uid].active.number + 1
            && AppendRevision(r, c.bundle.active.number, b).value.byUid == r.byUid[b.identity.uid := b]
  {
  }

  /** Numbers only rise, so what other callers hold stays an earlier state. */
  lemma CallersKept(w: World, w': World, k: int)
    requires Inv(w) && w'.callers == w.callers[k := Away]
    requires forall u :: u in w.repo.byUid ==>
               u in w'.repo.byUid
               && (w'.repo.byUid[u] == w.repo.byUid[u]
                   || w'.repo.byUid[u].active.number > w.repo.byUid[u].active.number)
    ensures forall j :: j in w'.callers ==> CallerOk(w'.repo, w'.callers[j])
  {
    hide RepoOk;
  }

  lemma StepKeepsInv(c: Config, w: World, a: Action)
    requires Inv(w)
    ensures Inv(Do(c, w, a)) && Continues(w.repo, Do(c, w, a).repo)
  {
    hide DoWrite, Continues, IdentityOk, ClaimsProblem, Strip, NormalSeed, Upper;
    ContinuesItself(w.repo);
    if a.Write? {
      WriteKeepsInv(c, w, a.caller, a.at);
    } else if a.LookToRevise? {
      assert FingerprintOk(w.repo, c.fingerprint(NormalSeed(a.seed)));
    }
  }

  lemma {:induction false} RunKeepsInv(c: Config, w: World, actions: seq<Action>)
    requires Inv(w)
    ensures Inv(Exec(c, w, actions)) && Continues(w.repo, Exec(c, w, actions).repo)
    decreases |actions|
  {
    hide Inv, Do, Continues;
    ContinuesItself(w.repo);
    if actions != [] {
      var w1 := Do(c, w, actions[0]);
      StepKeepsInv(c, w, actions[0]);
      RunKeepsInv(c, w1, actions[1..]);
      ContinuesOn(w.repo, w1.repo, Exec(c, w1, actions[1..]).repo);
    }
  }

  lemma ContinuesOn(a: Repo, b: Repo, c: Repo)
    requires Continues(a, b) && Continues(b, c)
    ensures Continues(a, c)
  {
  }

  lemma StartInv()
    ensures Inv(START)
  {
  }

  /** In every reachable state, under every interleaving of onboarding and revising
      callers: each identity's history is exactly revisions 1 to n with distinct
      attestations, both maps hold one bundle whose active revision is the last, and
      nothing follows a revocation. */
  lemma {:induction false} EveryIdentityIsWhole(c: Config, actions: seq<Action>)
    ensures var r := Exec(c, START, actions).repo;
            && (forall uid :: IdentityOk(r, uid)) && (forall f :: FingerprintOk(r, f))
            && r.revisions.Keys == r.byUid.Keys
  {
    hide Exec, IdentityOk, FingerprintOk;
    StartInv();
    RunKeepsInv(c, START, actions);
  }

  /** From any reachable state on, anchors stay, histories grow, and REVOKED is absorbing. */
  lemma {:induction false} IdentitiesContinue(c: Config, before: seq<Action>, after: seq<Action>)
    ensures Continues(Exec(c, START, before).repo, Exec(c, Exec(c, START, before), after).repo)
  {
    hide Exec, Continues, Inv;
    StartInv();
    RunKeepsInv(c, START, before);
    RunKeepsInv(c, Exec(c, START, before), after);
  }

  /** A caller that is never interrupted does exactly what the service does. */
  lemma UninterruptedCallerWrites(c: Config, w: World, k: int, seed: Seed, claims: Claims, corridor: string,
                                  status: Status, reason: string, at: int)
    ensures DoWrite(c, Do(c, w, LookToOnboard(k, seed, claims, corridor)), k, at).repo
            == Onboard(c, w.repo, seed, claims, corridor, at).0
    ensures DoWrite(c, Do(c, w, LookToRevise(k, seed, claims, status, reason)), k, at).repo
            == Revise(c, w.repo, seed, claims, status, reason, at).0
  {
    hide FirstBundle, Revised, Save, AppendRevision, ClaimsProblem, Strip, NormalSeed;
  }
}
