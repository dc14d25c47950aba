/** Quote acceptance: resolve the idempotency key, derive the contract, commit it,
    with any number of callers interleaving and crashing in between. */
module Contracts {
  import opened Prelude

  datatype ContextType = P2P | Merchant | Partner

  datatype Origin = Origin(system: string, intentId: string, context: ContextType, purpose: string,
                           continuityUid: Option<string>, merchantId: Option<string>, branchId: Option<string>,
                           partnerId: Option<string>)

  /** A signed quote as the service reads it; valid is what the signature check says. */
  datatype Quote = Quote(valid: bool, quoteId: string, terms: string, issuedAt: int, expiresAt: int, purpose: string,
                         payerId: string)

  /** The material of a request digest. */
  datatype Request = Request(quote: Quote, origin: Origin, authorization: string, reference: string, ttl: int)

  /** The material an UTT identifier is the digest of. */
  datatype UttId = UttId(quote: Quote, origin: Origin, acceptedAt: int, request: Request)

  datatype Contract = Contract(quoteId: string, uttId: UttId, request: Request, acceptedAt: int, authorityUntil: int)

  datatype AcceptError =
    | TextRequired | OriginIncomplete | KeyReused | QuoteRejected | QuoteNotYetValid | QuoteExpired | PurposeMismatch
    | PayerMismatch | TtlOutOfRange | AuthorityRefused | SigningRefused | QuoteAlreadyAccepted | UttCollision

  datatype Store = Store(idempotency: map<string, Contract>, quoteToUtt: map<string, UttId>, utts: map<UttId, Contract>)

  const NO_CONTRACTS := Store(map[], map[], map[])

  const PERSON_TO_PERSON := "PERSON_TO_PERSON"

  const MAX_AUTHORITY_SECONDS := 900

  function Resolve(s: Store, key: string, q: Request): Result<Option<Contract>, AcceptError> {
    if key !in s.idempotency then Ok(None)
    else if s.idempotency[key].request != q then Err(KeyReused)
    else Ok(Some(s.idempotency[key]))
  }

  function CommitAcceptance(s: Store, key: string, c: Contract): Result<(Store, Contract, bool), AcceptError> {
    if key in s.idempotency then
      if s.idempotency[key].request != c.request then Err(KeyReused) else Ok((s, s.idempotency[key], true))
    else if c.quoteId in s.quoteToUtt then Err(QuoteAlreadyAccepted)
    else if c.uttId in s.utts then Err(UttCollision)
    else Ok((Store(s.idempotency[key := c], s.quoteToUtt[c.quoteId := c.uttId], s.utts[c.uttId := c]), c, false))
  }

  predicate Missing(t: Option<string>) { t.None? || t.value == "" }

  predicate BlankIfGiven(t: Option<string>) { t.Some? && Strip(t.value) == "" }

  function StripIfGiven(t: Option<string>): Option<string> { if t.None? then None else Some(Strip(t.value)) }

  function OriginProblem(o: Origin): Option<AcceptError> {
    if (o.context.Merchant? && Missing(o.merchantId)) || (o.context.Partner? && Missing(o.partnerId))
       || (o.context.P2P? && (o.purpose != PERSON_TO_PERSON || Missing(o.continuityUid))) then Some(OriginIncomplete)
    else if Strip(o.system) == "" || Strip(o.intentId) == "" || BlankIfGiven(o.continuityUid)
            || BlankIfGiven(o.merchantId) || BlankIfGiven(o.branchId) || BlankIfGiven(o.partnerId)
    then Some(TextRequired)
    else None
  }

  /** The origin as it is signed: text trimmed, the system in capitals. */
  function OriginPayload(o: Origin): Origin {
    Origin(Upper(Strip(o.system)), Strip(o.intentId), o.context, o.purpose, StripIfGiven(o.continuityUid),
           StripIfGiven(o.merchantId), StripIfGiven(o.branchId), StripIfGiven(o.partnerId))
  }

  /** What is digested of a request: its fields as they are signed. */
  function Material(q: Request): Request {
    Request(q.quote, OriginPayload(q.origin), Strip(q.authorization), Strip(q.reference), q.ttl)
  }

  function QuoteProblem(q: Request, at: int): Option<AcceptError> {
    if !q.quote.valid then Some(QuoteRejected)
    else if Seconds(at) < q.quote.issuedAt then Some(QuoteNotYetValid)
    else if Seconds(at) >= q.quote.expiresAt then Some(QuoteExpired)
    else if q.quote.purpose != q.origin.purpose then Some(PurposeMismatch)
    else if q.origin.context.Merchant? && Some(q.quote.payerId) != q.origin.merchantId then Some(PayerMismatch)
    else if q.origin.context.P2P? && Some(q.quote.payerId) != q.origin.continuityUid then Some(PayerMismatch)
    else if !(1 <= q.ttl <= MAX_AUTHORITY_SECONDS) then Some(TtlOutOfRange)
    else None
  }

  /** The contract a request leads to when it is accepted at an instant. */
  function Derive(q: Request, at: int): Contract {
    Contract(q.quote.quoteId, UttId(q.quote, q.origin, Seconds(at), q), q, at, at + q.ttl * SECOND)
  }

  /** Whether the authority service issues the sender's authority and the signer signs the UTT. */
  datatype Issuer = Issuer(authorizes: bool, signs: bool)

  function IssueProblem(i: Issuer): Option<AcceptError> {
    if !i.authorizes then Some(AuthorityRefused) else if !i.signs then Some(SigningRefused) else None
  }

  datatype Accepted = Accepted(contract: Contract, replayed: bool)

  function CommandProblem(key: string, q: Request): Option<AcceptError> {
    if Strip(key) == "" then Some(TextRequired)
    else if OriginProblem(q.origin).Some? then OriginProblem(q.origin)
    else if Strip(q.authorization) == "" || Strip(q.reference) == "" then Some(TextRequired)
    else None
  }

  /** accept, uninterrupted. */
  function Accept(s: Store, key: string, q: Request, i: Issuer, at: int): (Store, Result<Accepted, AcceptError>) {
    if CommandProblem(key, q).Some? then (s, Err(CommandProblem(key, q).value))
    else
      var m := Material(q);
      match Resolve(s, Strip(key), m)
      case Err(e) => (s, Err(e))
      case Ok(Some(existing)) => (s, Ok(Accepted(existing, true)))
      case Ok(None) =>
        if QuoteProblem(m, at).Some? then (s, Err(QuoteProblem(m, at).value))
        else if IssueProblem(i).Some? then (s, Err(IssueProblem(i).value))
        else
          match CommitAcceptance(s, Strip(key), Derive(m, at))
          case Err(e) => (s, Err(e))
          case Ok((s', c, raced)) => (s', Ok(Accepted(c, raced)))
  }

  class InMemoryContractStore {
    var idempotency: map<string, Contract>
    var quoteToUtt: map<string, UttId>
    var utts: map<UttId, Contract>

    ghost function View(): Store
      reads this
    {
      Store(idempotency, quoteToUtt, utts)
    }

    constructor ()
      ensures View() == NO_CONTRACTS
    {
      idempotency, quoteToUtt, utts := map[], map[], map[];
    }

    method ResolveIdempotency(key: string, q: Request) returns (r: Result<Option<Contract>, AcceptError>)
      ensures r == Resolve(View(), key, q)
    {
      if key !in idempotency {
        return Ok(None);
      }
      if idempotency[key].request != q {
        return Err(KeyReused);
      }
      r := Ok(Some(idempotency[key]));
    }

    method Commit(key: string, c: Contract) returns (r: Result<(Contract, bool), AcceptError>)
      modifies this
      ensures match CommitAcceptance(old(View()), key, c)
              case Ok((s, stored, raced)) => r == Ok((stored, raced)) && View() == s
              case Err(e) => r == Err(e) && View() == old(View())
    {
      if key in idempotency {
        if idempotency[key].request != c.request {
          return Err(KeyReused);
        }
        return Ok((idempotency[key], true));
      }
      if c.quoteId in quoteToUtt {
        return Err(QuoteAlreadyAccepted);
      }
      if c.uttId in utts {
        return Err(UttCollision);
      }
      utts := utts[c.uttId := c];
      quoteToUtt := quoteToUtt[c.quoteId := c.uttId];
      idempotency := idempotency[key := c];
      r := Ok((c, false));
    }
  }

  class QuoteAcceptanceService {
    const store: InMemoryContractStore

    constructor (store: InMemoryContractStore)
      ensures this.store == store
    {
      this.store := store;
    }

    method AcceptQuote(key: string, q: Request, i: Issuer, at: int) returns (r: Result<Accepted, AcceptError>)
      modifies store
      ensures (store.View(), r) == Accept(old(store.View()), key, q, i, at)
    {
      hide Strip, Upper, CommandProblem, QuoteProblem, IssueProblem, Material, Derive;
      var problem := CommandProblem(key, q);
      if problem.Some? {
        return Err(problem.value);
      }
      var material := Material(q);
      var existing := store.ResolveIdempotency(Strip(key), material);
      if existing.Err? {
        return Err(existing.error);
      }
      if existing.value.Some? {
        return Ok(Accepted(existing.value.value, true));
      }
      problem := QuoteProblem(material, at);
      if problem.Some? {
        return Err(problem.value);
      }
      problem := IssueProblem(i);
      if problem.Some? {
        return Err(problem.value);
      }
      var committed := store.Commit(Strip(key), Derive(material, at));
      r := if committed.Ok? then Ok(Accepted(committed.value.0, committed.value.1)) else Err(committed.error);
    }
  }

  // ------------------------------------------------------------------- runs

  datatype Caller = Away | Resolved(key: string, request: Request)

  datatype Return = Return(key: string, request: Request, contract: Contract)

  /** answers lists every successful answer given so far. */
  datatype World = World(store: Store, callers: map<int, Caller>, answers: seq<Return>)

  const START := World(NO_CONTRACTS, map[], [])

  datatype Action =
    | Ask(caller: int, key: string, request: Request)
    | Conclude(caller: int, issuer: Issuer, at: int)
    | Crash(caller: int)

  function CallerOf(w: World, k: int): Caller { if k in w.callers then w.callers[k] else Away }

  function Put(w: World, k: int, c: Caller): World { w.(callers := w.callers[k := c]) }

  function Answered(w: World, k: int, r: Return): World { Put(w, k, Away).(answers := w.answers + [r]) }

  function DoAsk(w: World, k: int, key: string, q: Request): World {
    if CommandProblem(key, q).Some? then Put(w, k, Away)
    else
      match Resolve(w.store, Strip(key), Material(q))
      case Err(_) => Put(w, k, Away)
      case Ok(Some(existing)) => Answered(w, k, Return(Strip(key), Material(q), existing))
      case Ok(None) => Put(w, k, Resolved(Strip(key), Material(q)))
  }

  function DoConclude(w: World, k: int, i: Issuer, at: int): World {
    match CallerOf(w, k)
    case Away => w
    case Resolved(key, q) =>
      if QuoteProblem(q, at).Some? || IssueProblem(i).Some? then Put(w, k, Away)
      else
        match CommitAcceptance(w.store, key, Derive(q, at))
        case Err(_) => Put(w, k, Away)
        case Ok((s, c, _)) => Answered(w, k, Return(key, q, c)).(store := s)
  }

  function Do(w: World, a: Action): World {
    match a
    case Ask(k, key, q) => DoAsk(w, k, key, q)
    case Conclude(k, i, at) => DoConclude(w, k, i, at)
    case Crash(k) => Put(w, k, Away)
  }

  function Exec(w: World, actions: seq<Action>): World
    decreases |actions|
  {
    if actions == [] then w else Exec(Do(w, actions[0]), actions[1..])
  }

  // ----------------------------------------------------------- one to one

  ghost function QuotesOf(m: map<string, Contract>): set<string> { set key | key in m :: m[key].quoteId }

  ghost function UttsOf(m: map<string, Contract>): set<UttId> { set key | key in m :: m[key].uttId }

  /** A key leads to its quote's UTT and to its UTT's contract. */
  ghost predicate Entered(s: Store, c: Contract) {
    c.quoteId in s.quoteToUtt && s.quoteToUtt[c.quoteId] == c.uttId && c.uttId in s.utts && s.utts[c.uttId] == c
  }

  ghost predicate Separate(m: map<string, Contract>) {
    forall a, b | a in m && b in m :: m[a].quoteId == m[b].quoteId || m[a].uttId == m[b].uttId ==> a == b
  }

  /** Each key has its own quote and its own UTT; each stored quote and UTT has its key. */
  ghost predicate OneToOne(s: Store) {
    && (forall key :: key in s.idempotency ==> Entered(s, s.idempotency[key])) && Separate(s.idempotency)
    && s.quoteToUtt.Keys == QuotesOf(s.idempotency) && s.utts.Keys == UttsOf(s.idempotency)
  }

  /** A stored contract was derived from an acceptable request while its quote was live. */
  ghost predicate Sound(c: Contract) {
    && c == Derive(c.request, c.acceptedAt) && QuoteProblem(c.request, c.acceptedAt).None?
    && c.request.quote.issuedAt <= Seconds(c.acceptedAt) < c.request.quote.expiresAt
  }

  /** Every answer is the stored contract of its key, and was asked for in the same words. */
  ghost predicate AnswersOk(w: World) {
    forall i :: 0 <= i < |w.answers| ==>
      var r := w.answers[i];
      r.key in w.store.idempotency && w.store.idempotency[r.key] == r.contract && r.contract.request == r.request
  }

  ghost predicate Inv(w: World) {
    OneToOne(w.store) && AnswersOk(w) && forall key :: key in w.store.idempotency ==> Sound(w.store.idempotency[key])
  }

  /** Contracts are only added. */
  ghost predicate Kept(s: Store, s': Store) {
    forall key :: key in s.idempotency ==> key in s'.idempotency && s'.idempotency[key] == s.idempotency[key]
  }

  lemma CommitKeeps(s: Store, key: string, c: Contract)
    requires OneToOne(s) && CommitAcceptance(s, key, c).Ok?
    ensures var (s', stored, _) := CommitAcceptance(s, key, c).value;
            && OneToOne(s') && Kept(s, s') && key in s'.idempotency && s'.idempotency[key] == stored
            && stored.request == c.request && (s' == s || s'.idempotency == s.idempotency[key := c])
  {
    hide QuotesOf, UttsOf, Separate, Entered;
    if key !in s.idempotency {
      var s' := CommitAcceptance(s, key, c).value.0;
      NewcomerIsSeparate(s, key, c);
      AddedKeys(s.idempotency, key, c);
      forall k | k in s'.idempotency ensures Entered(s', s'.idempotency[k]) { EntryStays(s, s', key, c, k); }
    }
  }

  lemma NewcomerIsSeparate(s: Store, key: string, c: Contract)
    requires Separate(s.idempotency) && (forall k :: k in s.idempotency ==> Entered(s, s.idempotency[k]))
    requires key !in s.idempotency && c.quoteId !in s.quoteToUtt && c.uttId !in s.utts
    ensures Separate(s.idempotency[key := c])
  {
    hide Entered;
    forall k | k in s.idempotency ensures s.idempotency[k].quoteId != c.quoteId && s.idempotency[k].uttId != c.uttId {
      EnteredElsewhere(s, s.idempotency[k], c);
    }
  }

  lemma EnteredElsewhere(s: Store, d: Contract, c: Contract)
    requires Entered(s, d) && c.quoteId !in s.quoteToUtt && c.uttId !in s.utts
    ensures d.quoteId != c.quoteId && d.uttId != c.uttId
  {
  }

  lemma EntryStays(s: Store, s': Store, key: string, c: Contract, k: string)
    requires forall other :: other in s.idempotency ==> Entered(s, s.idempotency[other])
    requires c.quoteId !in s.quoteToUtt && c.uttId !in s.utts && k in s'.idempotency
    requires s' == Store(s.idempotency[key := c], s.quoteToUtt[c.quoteId := c.uttId], s.utts[c.uttId := c])
    ensures Entered(s', s'.idempotency[k])
  {
    assert k != key ==> Entered(s, s.idempotency[k]);
  }

  lemma AddedKeys(m: map<string, Contract>, key: string, c: Contract)
    requires key !in m
    ensures QuotesOf(m[key := c]) == QuotesOf(m) + {c.quoteId} && UttsOf(m[key := c]) == UttsOf(m) + {c.uttId}
  {
    var m' := m[key := c];
    assert key in m';
    forall x | x in QuotesOf(m) ensures x in QuotesOf(m') {
      var k :| k in m && m[k].quoteId == x;
      assert k in m' && m'[k].quoteId == x;
    }
    forall x | x in UttsOf(m) ensures x in UttsOf(m') {
      var k :| k in m && m[k].uttId == x;
      assert k in m' && m'[k].uttId == x;
    }
  }

  lemma ConcludeKeepsInv(w: World, k: int, i: Issuer, at: int)
    requires Inv(w)
    ensures Inv(DoConclude(w, k, i, at)) && Kept(w.store, DoConclude(w, k, i, at).store)
  {
    hide OneToOne, Sound, CommitAcceptance, Derive, QuoteProblem;
    var c := CallerOf(w, k);
    if c.Resolved? && QuoteProblem(c.request, at).None? && CommitAcceptance(w.store, c.key, Derive(c.request, at)).Ok? {
      CommitKeeps(w.store, c.key, Derive(c.request, at));
      DerivedIsSound(c.request, at);
    }
  }

  lemma DerivedIsSound(q: Request, at: int)
    requires QuoteProblem(q, at).None?
    ensures Sound(Derive(q, at)) && Derive(q, at).request == q
  {
  }

  lemma AskKeepsInv(w: World, k: int, key: string, q: Request)
    requires Inv(w)
    ensures Inv(DoAsk(w, k, key, q)) && DoAsk(w, k, key, q).store == w.store
  {
    hide OneToOne, Sound, Strip, CommandProblem, Material;
  }

  lemma StepKeepsInv(w: World, a: Action)
    requires Inv(w)
    ensures Inv(Do(w, a)) && Kept(w.store, Do(w, a).store)
  {
    hide OneToOne, Sound, DoAsk, DoConclude;
    match a
    case Ask(k, key, q) => AskKeepsInv(w, k, key, q);
    case Conclude(k, i, at) => ConcludeKeepsInv(w, k, i, at);
    case Crash(_) =>
  }

  lemma {:induction false} RunKeepsInv(w: World, actions: seq<Action>)
    requires Inv(w)
    ensures Inv(Exec(w, actions)) && Kept(w.store, Exec(w, actions).store)
    decreases |actions|
  {
    hide Inv, Do;
    if actions != [] {
      StepKeepsInv(w, actions[0]);
      RunKeepsInv(Do(w, actions[0]), actions[1..]);
    }
  }

  /** Over every interleaving of acceptances, with crashes: the three maps stay in
      one-to-one correspondence, every answer given for a key is that key's one
      contract, and every contract was accepted while its quote was live. */
  lemma {:induction false} AcceptedExactlyOnce(actions: seq<Action>)
    ensures var w := Exec(START, actions);
            && OneToOne(w.store) && AnswersOk(w)
            && (forall i, j | 0 <= i < |w.answers| && 0 <= j < |w.answers| ::
                  && (w.answers[i].key == w.answers[j].key ==> w.answers[i].contract == w.answers[j].contract)
                  && (w.answers[i].contract.quoteId == w.answers[j].contract.quoteId ==>
                        w.answers[i].contract.uttId == w.answers[j].contract.uttId))
            && (forall key :: key in w.store.idempotency ==> Sound(w.store.idempotency[key]))
  {
    hide Exec, Sound;
    StartInv();
    RunKeepsInv(START, actions);
  }

  lemma StartInv()
    ensures Inv(START)
  {
  }

  /** What has been answered is never taken back. */
  lemma {:induction false} ContractsStay(before: seq<Action>, after: seq<Action>)
    ensures Kept(Exec(START, before).store, Exec(Exec(START, before), after).store)
  {
    hide Exec, Kept, Inv;
    StartInv();
    RunKeepsInv(START, before);
    RunKeepsInv(Exec(START, before), after);
  }

  /** A caller that is never interrupted does exactly what accept does. */
  lemma {:induction false} UninterruptedCallerAccepts(w: World, k: int, key: string, q: Request, i: Issuer, at: int)
    ensures var w' := DoConclude(DoAsk(w, k, key, q), k, i, at);
            var (s, r) := Accept(w.store, key, q, i, at);
            && w'.store == s
            && w'.answers == w.answers + (if r.Ok? then [Return(Strip(key), Material(q), r.value.contract)] else [])
  {
    hide Strip, Upper, CommandProblem, Material, CommitAcceptance, Derive, QuoteProblem, IssueProblem;
  }
}
