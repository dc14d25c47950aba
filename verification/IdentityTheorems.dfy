/** What onboarding and revising ask of a caller and what they store, written out. */
module IdentityTheorems {
  import opened Prelude
  import opened Encoding
  import opened Identity

  /** The same text up to case and surrounding blanks. */
  ghost predicate SameText(a: string, b: string) { Upper(Strip(a)) == Upper(Strip(b)) }

  ghost predicate SomeBlank(seed: Seed) {
    Strip(seed.providerId) == "" || Strip(seed.subject) == "" || Strip(seed.country) == ""
  }

  /** The attestation is accepted and speaks of the same person in the same country. */
  ghost predicate SpeaksOf(k: Claims, seed: Seed) {
    && k.valid && Strip(k.subject) != "" && SameText(k.subject, seed.subject)
    && Strip(k.country) != "" && SameText(k.country, seed.country)
  }

  /** The seed in capitals without surrounding blanks. */
  ghost predicate Plain(seed: Seed, n: Seed) {
    && n.providerId == Upper(Strip(seed.providerId)) && n.subject == Upper(Strip(seed.subject))
    && n.country == Upper(Strip(seed.country))
  }

  ghost predicate UsedBefore(h: seq<Revision>, attestationId: string) {
    exists i :: 0 <= i < |h| && h[i].attestationId == attestationId
  }

  lemma ClaimsAre(seed: Seed, k: Claims)
    ensures ClaimsProblem(seed, k) == None <==> !SomeBlank(seed) && SpeaksOf(k, seed)
    ensures SomeBlank(seed) ==> ClaimsProblem(seed, k) == Some(TextRequired)
    ensures !SomeBlank(seed) && !k.valid ==> ClaimsProblem(seed, k) == Some(AttestationRejected)
    ensures !SomeBlank(seed) && k.valid && Strip(k.subject) != "" && !SameText(k.subject, seed.subject) ==>
              ClaimsProblem(seed, k) == Some(SubjectMismatch)
    ensures !SomeBlank(seed) && k.valid && Strip(k.subject) != "" && SameText(k.subject, seed.subject)
            && Strip(k.country) != "" && !SameText(k.country, seed.country) ==>
              ClaimsProblem(seed, k) == Some(CountryMismatch)
    ensures Plain(seed, NormalSeed(seed))
  {
    hide Strip, Upper;
  }

  /** The bundle of a new identity. */
  ghost predicate IsFirst(c: Config, n: Seed, k: Claims, corridor: string, at: int, b: Bundle) {
    var f := c.fingerprint(n);
    var seg := c.segment(f);
    && b.genesis == Genesis("RIG-" + seg, "CUID-" + seg, c.keyId, f, n.providerId, k.reference, k.evidenceSha,
                            k.attestationId, at)
    && b.identity.rioId == "RIO-" + seg && b.identity.railoneId == "R1-" + corridor + "-" + seg
    && b.identity.uid == "CUID-" + seg && b.identity.rigId == "RIG-" + seg && b.identity.activeRiv == b.active.rivId
    && b.identity.corridor == corridor && b.identity.status == Active && b.identity.createdAt == at
    && b.active.rivId == "RIV-" + seg + "-R1" && b.active.rioId == b.identity.rioId && b.active.uid == b.identity.uid
    && b.active.number == 1 && b.active.tier == k.tier && b.active.status == Active
    && b.active.reason == "INITIAL_VERIFIED_ONBOARDING" && b.active.attestationId == k.attestationId
    && b.active.createdAt == at
  }

  lemma FirstIs(c: Config, n: Seed, k: Claims, corridor: string, at: int)
    ensures IsFirst(c, n, k, corridor, at, FirstBundle(c, n, k, corridor, at))
  {
  }

  /** onboard after any run, in every branch: blank or contradicted claims are refused; a
      fingerprint that is known is answered with its bundle and nothing changes; otherwise
      the first bundle is stored under fingerprint and identifier with a history of one
      revision, unless the identifier is taken. */
  lemma {:induction false} OnboardExactly(c: Config, actions: seq<Action>, seed: Seed, k: Claims, corridor: string,
                                          at: int)
    ensures var r := Exec(c, START, actions).repo;
            var (r', result) := Onboard(c, r, seed, k, corridor, at);
            var f := c.fingerprint(NormalSeed(seed));
            && Plain(seed, NormalSeed(seed))
            && if SomeBlank(seed) || !SpeaksOf(k, seed) then
                 r' == r && result.Err? && result == Err(ClaimsProblem(seed, k).value)
               else if f in r.byFingerprint then r' == r && result == Ok((r.byFingerprint[f], true))
               else if Strip(corridor) == "" then r' == r && result == Err(TextRequired)
               else if "CUID-" + c.segment(f) in r.byUid then r' == r && result == Err(UidExists)
               else
                 && result.Ok? && !result.value.1
                 && var b := result.value.0;
                    && IsFirst(c, NormalSeed(seed), k, Upper(Strip(corridor)), at, b)
                    && r'.byFingerprint == r.byFingerprint[f := b] && r'.byUid == r.byUid[b.identity.uid := b]
                    && r'.revisions == r.revisions[b.identity.uid := [b.active]]
  {
    hide Exec, Strip, Upper, ClaimsProblem, FirstBundle;
    ClaimsAre(seed, k);
    FirstIs(c, NormalSeed(seed), k, Normal(corridor), at);
    FirstIsWhole(c, NormalSeed(seed), k, Normal(corridor), at);
  }

  /** The next revision of an identity: one on, with the tier and attestation claimed, the
      status and reason given; the genesis and everything else of the identity as they were. */
  ghost predicate IsNext(b: Bundle, k: Claims, status: Status, reason: string, at: int, b': Bundle) {
    && b'.genesis == b.genesis && b'.identity == b.identity.(activeRiv := b'.active.rivId, status := status)
    && b'.active.number == b.active.number + 1 && b'.active.status == status && b'.active.reason == reason
    && b'.active.tier == k.tier && b'.active.attestationId == k.attestationId && b'.active.createdAt == at
    && b'.active.rioId == b.identity.rioId && b'.active.uid == b.identity.uid
    && (|b.identity.uid| >= 5 ==>
          b'.active.rivId == "RIV-" + b.identity.uid[5..] + "-R" + Decimal(b.active.number + 1))
  }

  lemma NextIs(b: Bundle, k: Claims, status: Status, reason: string, at: int)
    ensures IsNext(b, k, status, reason, at, Revised(b, k, status, reason, at))
  {
  }

  /** What is found under a fingerprint is what is found under its identifier, with a history. */
  lemma {:induction false} FoundTwice(c: Config, actions: seq<Action>, f: string)
    requires f in Exec(c, START, actions).repo.byFingerprint
    ensures var r := Exec(c, START, actions).repo;
            var b := r.byFingerprint[f];
            && b.genesis.fingerprint == f && b.identity.uid in r.byUid && r.byUid[b.identity.uid] == b
            && b.identity.uid in r.revisions && b.active.uid == b.identity.uid
  {
    hide Exec, ChainOk;
    EveryIdentityIsWhole(c, actions);
    var r := Exec(c, START, actions).repo;
    assert FingerprintOk(r, f);
    assert IdentityOk(r, r.byFingerprint[f].identity.uid);
    assert ChainOk(HistoryOf(r, r.byFingerprint[f].identity.uid), r.byFingerprint[f].identity.uid,
                   r.byFingerprint[f].identity.rioId);
    LastOfChain(HistoryOf(r, r.byFingerprint[f].identity.uid), r.byFingerprint[f].identity.uid,
                r.byFingerprint[f].identity.rioId);
  }

  lemma LastOfChain(h: seq<Revision>, uid: string, rioId: string)
    requires ChainOk(h, uid, rioId)
    ensures h != [] && h[|h| - 1].uid == uid
  {
  }

  /** revise after any run, in every branch: a blank reason, blank or contradicted claims, an
      unknown or revoked identity and an attestation used before in its history are refused
      and change nothing. Otherwise the next revision is stored: history, both maps. */
  lemma {:induction false} ReviseExactly(c: Config, actions: seq<Action>, seed: Seed, k: Claims, status: Status,
                                         reason: string, at: int)
    ensures var r := Exec(c, START, actions).repo;
            var (r', result) := Revise(c, r, seed, k, status, reason, at);
            var f := c.fingerprint(NormalSeed(seed));
            && Plain(seed, NormalSeed(seed))
            && if Strip(reason) == "" then r' == r && result == Err(TextRequired)
               else if SomeBlank(seed) || !SpeaksOf(k, seed) then r' == r && result.Err?
               else if f !in r.byFingerprint then r' == r && result == Err(IdentityNotFound)
               else
                 var b := r.byFingerprint[f];
                 var uid := b.identity.uid;
                 && uid in r.revisions
                 && if b.identity.status == Revoked then r' == r && result == Err(RevokedIdentity)
                    else if UsedBefore(r.revisions[uid], k.attestationId)
                    then r' == r && result == Err(AttestationReused)
                    else
                      && result.Ok?
                      && var b' := result.value;
                         && IsNext(b, k, status, Upper(Strip(reason)), at, b')
                         && r'.byFingerprint == r.byFingerprint[f := b'] && r'.byUid == r.byUid[uid := b']
                         && r'.revisions == r.revisions[uid := r.revisions[uid] + [b'.active]]
  {
    hide Exec, Strip, Upper, ClaimsProblem, Revised, NormalSeed;
    ClaimsAre(seed, k);
    var r := Exec(c, START, actions).repo;
    var f := c.fingerprint(NormalSeed(seed));
    if f in r.byFingerprint {
      FoundTwice(c, actions, f);
      NextIs(r.byFingerprint[f], k, status, Normal(reason), at);
    }
  }
}
