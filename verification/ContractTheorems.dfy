/** What quote acceptance asks of a command and what a stored contract holds, written out. */
module ContractTheorems {
  import opened Prelude
  import opened Contracts

  /** The origin as it was stated, every text trimmed and the system in capitals. */
  ghost predicate TrimmedOrigin(o: Origin, t: Origin) {
    && t.system == Upper(Strip(o.system)) && t.intentId == Strip(o.intentId)
    && t.context == o.context && t.purpose == o.purpose
    && Trims(o.continuityUid, t.continuityUid) && Trims(o.merchantId, t.merchantId)
    && Trims(o.branchId, t.branchId) && Trims(o.partnerId, t.partnerId)
  }

  ghost predicate Trims(a: Option<string>, b: Option<string>) {
    (a == None && b == None) || (a.Some? && b == Some(Strip(a.value)))
  }

  ghost predicate TrimmedRequest(q: Request, t: Request) {
    && t.quote == q.quote && TrimmedOrigin(q.origin, t.origin) && t.authorization == Strip(q.authorization)
    && t.reference == Strip(q.reference) && t.ttl == q.ttl
  }

  ghost predicate Given(t: Option<string>) { t.Some? && t.value != "" }

  ghost predicate Blanks(t: Option<string>) { t.Some? && Strip(t.value) == "" }

  /** The parties an origin must name for its context. */
  ghost predicate NamesParties(o: Origin) {
    match o.context
    case Merchant => Given(o.merchantId)
    case Partner => Given(o.partnerId)
    case P2P => o.purpose == "PERSON_TO_PERSON" && Given(o.continuityUid)
  }

  ghost predicate SomeBlank(o: Origin) {
    || Strip(o.system) == "" || Strip(o.intentId) == "" || Blanks(o.continuityUid) || Blanks(o.merchantId)
    || Blanks(o.branchId) || Blanks(o.partnerId)
  }

  /** A request that may be accepted at an instant: a quote that verifies and is live, for the
      same purpose, paid by the merchant or the person it is for, and a permitted lifetime. */
  ghost predicate Acceptable(t: Request, at: int) {
    && t.quote.valid && t.quote.issuedAt <= Seconds(at) < t.quote.expiresAt && t.quote.purpose == t.origin.purpose
    && PaidBy(t) && 1 <= t.ttl <= 900
  }

  /** The payer of the quote is the merchant or the person the context is about. */
  ghost predicate PaidBy(t: Request) {
    && (t.origin.context == Merchant ==> t.origin.merchantId == Some(t.quote.payerId))
    && (t.origin.context == P2P ==> t.origin.continuityUid == Some(t.quote.payerId))
  }

  /** The contract of a request accepted at an instant. */
  ghost predicate ContractFor(c: Contract, t: Request, at: int) {
    && c.request == t && c.quoteId == t.quote.quoteId && c.acceptedAt == at
    && c.authorityUntil == at + t.ttl * 1_000_000
    && c.uttId.quote == t.quote && c.uttId.origin == t.origin && c.uttId.acceptedAt == Seconds(at)
    && c.uttId.request == t
  }

  lemma MaterialTrims(q: Request)
    ensures TrimmedRequest(q, Material(q))
  {
    hide Strip, Upper;
  }

  lemma {:induction false} ProblemsAre(key: string, q: Request, at: int)
    ensures CommandProblem(key, q) == None <==>
              && Strip(key) != "" && NamesParties(q.origin) && !SomeBlank(q.origin)
              && Strip(q.authorization) != "" && Strip(q.reference) != ""
    ensures QuoteProblem(q, at) == None <==> Acceptable(q, at)
  {
    hide Strip, Seconds;
  }

  /** accept, in every branch: the first that fails of the command's texts, its origin, the
      key's earlier use, the quote and the services that issue authority and signature; then
      the quote must not have been accepted before. What is stored is the contract of the
      trimmed request, under the key, the quote and its UTT. */
  lemma {:induction false} AcceptExactly(s: Store, key: string, q: Request, i: Issuer, at: int)
    ensures var (s', r) := Accept(s, key, q, i, at);
            var k, t := Strip(key), Material(q);
            && TrimmedRequest(q, t)
            && if k == "" then s' == s && r == Err(TextRequired)
               else if !NamesParties(q.origin) then s' == s && r == Err(OriginIncomplete)
               else if SomeBlank(q.origin) || Strip(q.authorization) == "" || Strip(q.reference) == ""
               then s' == s && r == Err(TextRequired)
               else if k in s.idempotency then
                 && s' == s
                 && r == if s.idempotency[k].request == t then Ok(Accepted(s.idempotency[k], true)) else Err(KeyReused)
               else if !Acceptable(t, at) then
                 && s' == s && r.Err?
                 && (!t.quote.valid ==> r.error == QuoteRejected)
                 && (t.quote.valid && Seconds(at) < t.quote.issuedAt ==> r.error == QuoteNotYetValid)
                 && (t.quote.valid && t.quote.issuedAt <= Seconds(at) && t.quote.expiresAt <= Seconds(at) ==>
                       r.error == QuoteExpired)
                 && (t.quote.valid && t.quote.issuedAt <= Seconds(at) < t.quote.expiresAt ==>
                       r.error == if t.quote.purpose != t.origin.purpose then PurposeMismatch
                                  else if 1 <= t.ttl <= 900 then PayerMismatch
                                  else if PaidBy(t) then TtlOutOfRange else PayerMismatch)
               else if !i.authorizes then s' == s && r == Err(AuthorityRefused)
               else if !i.signs then s' == s && r == Err(SigningRefused)
               else if t.quote.quoteId in s.quoteToUtt then s' == s && r == Err(QuoteAlreadyAccepted)
               else
                 r == Err(UttCollision) ||
                 (r.Ok? && !r.value.replayed && ContractFor(r.value.contract, t, at)
                  && var c := r.value.contract;
                     && c.uttId !in s.utts && s'.idempotency == s.idempotency[k := c]
                     && s'.quoteToUtt == s.quoteToUtt[c.quoteId := c.uttId] && s'.utts == s.utts[c.uttId := c])
  {
    hide Strip, Upper, Seconds, Material;
    MaterialTrims(q);
    ProblemsAre(key, Material(q), at);
    ProblemsAre(key, q, at);
    AcceptBody(s, key, q, i, at);
  }

  lemma {:induction false} AcceptBody(s: Store, key: string, q: Request, i: Issuer, at: int)
    ensures var (s', r) := Accept(s, key, q, i, at);
            var k, t := Strip(key), Material(q);
            if CommandProblem(key, q).Some? then
              && s' == s && r == Err(CommandProblem(key, q).value)
            else if k in s.idempotency then
              && s' == s
              && r == if s.idempotency[k].request == t then Ok(Accepted(s.idempotency[k], true)) else Err(KeyReused)
            else if QuoteProblem(t, at).Some? then s' == s && r == Err(QuoteProblem(t, at).value)
            else if IssueProblem(i).Some? then s' == s && r == Err(IssueProblem(i).value)
            else if t.quote.quoteId in s.quoteToUtt then s' == s && r == Err(QuoteAlreadyAccepted)
            else if Derive(t, at).uttId in s.utts then s' == s && r == Err(UttCollision)
            else
              && r == Ok(Accepted(Derive(t, at), false))
              && s' == Store(s.idempotency[k := Derive(t, at)], s.quoteToUtt[t.quote.quoteId := Derive(t, at).uttId],
                             s.utts[Derive(t, at).uttId := Derive(t, at)])
  {
    hide Strip, Material, CommandProblem, QuoteProblem, IssueProblem;
  }

  /** In every interleaving: a stored contract is the contract of its request at the instant
      it was accepted, when the quote verified, was live and fitted its origin. */
  lemma {:induction false} ContractsAreAsAccepted(actions: seq<Action>, key: string)
    requires key in Exec(START, actions).store.idempotency
    ensures var c := Exec(START, actions).store.idempotency[key];
            ContractFor(c, c.request, c.acceptedAt) && Acceptable(c.request, c.acceptedAt)
  {
    hide Exec, OneToOne, AnswersOk;
    AcceptedExactlyOnce(actions);
    var c := Exec(START, actions).store.idempotency[key];
    assert Sound(c);
    ProblemsAre("", c.request, c.acceptedAt);
  }
}
