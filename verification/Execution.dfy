/** Execution plans and RTT attempts: the records, the decisions taken on them
    and the compare-and-swap store operations, as functions on values. */
module Execution {
  import opened Prelude
  import opened RouteScoring

  datatype PlanStatus = Active | AwaitingEvidence | PlanFailed | Exhausted | Finalized

  datatype AttemptState = Created | AttemptFailed | Succeeded | Unresolved

  datatype Disposition = Retryable | Terminal | ReconciliationRequired

  datatype RouteFailure = RouteFailure(rttId: string, routeId: string, code: string,
                                       disposition: Disposition, recordedAt: int)

  datatype Plan = Plan(
    planId: string, uttId: string, ranked: seq<RankedRoute>, remaining: seq<string>,
    failures: seq<RouteFailure>, attemptsUsed: nat, maxAttempts: int, budget: int, spent: int,
    current: Option<string>, previousRtt: Option<string>, previousRoute: Option<string>,
    status: PlanStatus, successfulRoute: Option<string>, version: nat, createdAt: int, updatedAt: int)

  /** Generated identifiers are a prefix and hexadecimal digits: no blanks around them. */
  predicate Generated(s: string) { s != "" && Strip(s) == s }

  type Identifier = s: string | Generated(s) witness "R"

  /** A recorded identifier names the attempt that is found under it. */
  predicate Names(recorded: Option<string>, rttId: string) { recorded.Some? && Strip(recorded.value) == rttId }

  /** The lineage that the signed birth artifact of an RTT fixes. */
  datatype Birth = Birth(rttId: string, uttId: string, planId: string, attemptNumber: nat, routeId: string,
                         previousRtt: Option<string>, previousRoute: Option<string>)

  datatype Attempt = Attempt(
    rttId: string, uttId: string, planId: string, attemptNumber: nat, routeId: string, birth: Birth,
    state: AttemptState, failureCode: Option<string>, actualCost: Option<int>, createdAt: int, updatedAt: int)

  datatype ExecError =
    | NoEligibleRoute | PlanNotActive | AlreadyInFlight | AttemptLimit | NoAffordableRoute
    | OutcomeAlreadyRecorded | NotAwaitingReconciliation | UnresolvedResolution | NegativeCost | CodeRequired
    | IdRequired
    | PlanNotFound | RttNotFound | ConcurrentUpdate | PlanConflict | IdentifierCollision
    | LineageMismatch | NotCurrentAttempt | RankingRejected | UttNotFound | UttRejected | UnsupportedEndpoints
    | ValidatorMissing | EndpointRejected | SigningRefused

  /** The terms an accepted UTT carries over from its quote. */
  datatype Terms = Terms(uttId: string, amount: int, currencyFrom: string, currencyTo: string,
                         totalFee: int, budget: int, maxAttempts: int, source: string, destination: string)

  predicate AcceptedTerms(t: Terms) {
    1 <= t.amount && 0 <= t.totalFee && 0 <= t.budget <= t.totalFee && 1 <= t.maxAttempts <= 10
  }

  function RankedIds(ranked: seq<RankedRoute>): (ids: seq<string>)
    ensures |ids| == |ranked|
    ensures forall i :: 0 <= i < |ranked| ==> ids[i] == ranked[i].candidate.routeId
  {
    seq(|ranked|, i requires 0 <= i < |ranked| => ranked[i].candidate.routeId)
  }

  function BudgetLeft(p: Plan): int { Max(0, p.budget - p.spent) }

  /** Estimated cost of a route by identifier; the last of equal keys wins. */
  function EstimateOf(ranked: seq<RankedRoute>, id: string): Option<int> {
    if ranked == [] then None
    else if ranked[|ranked| - 1].candidate.routeId == id then Some(ranked[|ranked| - 1].candidate.estimatedCost)
    else EstimateOf(ranked[..|ranked| - 1], id)
  }

  predicate Affordable(ranked: seq<RankedRoute>, id: string, left: int) {
    EstimateOf(ranked, id).Some? && EstimateOf(ranked, id).value <= left
  }

  /** The first affordable route still in the running. */
  function Pick(ranked: seq<RankedRoute>, ids: seq<string>, left: int): (r: Option<string>)
    ensures r.Some? ==> r.value in ids && Affordable(ranked, r.value, left)
    ensures r.None? ==> forall id :: id in ids ==> !Affordable(ranked, id, left)
  {
    if ids == [] then None
    else if Affordable(ranked, ids[0], left) then Some(ids[0])
    else Pick(ranked, ids[1..], left)
  }

  predicate AffordableRemains(p: Plan, left: int) {
    exists i :: 0 <= i < |p.ranked| && p.ranked[i].candidate.routeId in p.remaining
                && p.ranked[i].candidate.estimatedCost <= left
  }

  function NewPlan(planId: string, t: Terms, ranked: seq<RankedRoute>, at: int): Plan {
    Plan(planId, t.uttId, ranked, RankedIds(ranked), [], 0, t.maxAttempts, t.budget, 0,
         None, None, None, Active, None, 1, at, at)
  }

  // -------------------------------------------------------------- decisions

  function StartDecision(p: Plan, rttId: string, at: int): Result<(Plan, Attempt), ExecError> {
    if !p.status.Active? then Err(PlanNotActive)
    else if p.current.Some? then Err(AlreadyInFlight)
    else if p.attemptsUsed >= p.maxAttempts then Err(AttemptLimit)
    else match Pick(p.ranked, p.remaining, BudgetLeft(p))
      case None => Err(NoAffordableRoute)
      case Some(route) =>
        var n := p.attemptsUsed + 1;
        Ok((p.(remaining := Without(p.remaining, {route}), attemptsUsed := n, current := Some(rttId),
               version := p.version + 1, updatedAt := at),
            Attempt(rttId, p.uttId, p.planId, n, route,
                    Birth(rttId, p.uttId, p.planId, n, route, p.previousRtt, p.previousRoute),
                    Created, None, None, at, at)))
  }

  datatype Operation =
    | Fail(code: string, disposition: Disposition, cost: nat)
    | Succeed(cost: nat)
    | Resolve(succeeded: bool, code: string, disposition: Disposition, cost: nat)

  /** The state an attempt must be in when its outcome is reported. */
  function Expects(op: Operation): AttemptState { if op.Resolve? then Unresolved else Created }

  function StatusAfterRetryable(p: Plan, spent: int): PlanStatus {
    if p.attemptsUsed >= p.maxAttempts || !AffordableRemains(p, Max(0, p.budget - spent)) then Exhausted else Active
  }

  function CloseAttempt(p: Plan, a: Attempt, given: string, status: PlanStatus, spent: int, at: int): Plan {
    p.(spent := spent, current := None, previousRtt := Some(given), previousRoute := Some(a.routeId),
       status := status, version := p.version + 1, updatedAt := at)
  }

  function SuccessDecision(p: Plan, a: Attempt, given: string, cost: nat, at: int): (Plan, Attempt) {
    (CloseAttempt(p, a, given, Finalized, p.spent + cost, at).(successfulRoute := Some(a.routeId)),
     a.(state := Succeeded, actualCost := Some(cost), updatedAt := at))
  }

  function FailureDecision(p: Plan, a: Attempt, given: string, code: string, d: Disposition, cost: nat,
                           at: int): (Plan, Attempt)
  {
    var spent := p.spent + cost;
    var failures := p.failures + [RouteFailure(given, a.routeId, code, d, at)];
    match d
    case ReconciliationRequired =>
      (CloseAttempt(p, a, given, AwaitingEvidence, spent, at).(current := Some(given), failures := failures),
       a.(state := Unresolved, failureCode := Some(code), actualCost := Some(cost), updatedAt := at))
    case Terminal =>
      (CloseAttempt(p, a, given, PlanFailed, spent, at).(failures := failures),
       a.(state := AttemptFailed, failureCode := Some(code), actualCost := Some(cost), updatedAt := at))
    case Retryable =>
      (CloseAttempt(p, a, given, StatusAfterRetryable(p, spent), spent, at).(failures := failures),
       a.(state := AttemptFailed, failureCode := Some(code), actualCost := Some(cost), updatedAt := at))
  }

  /** Records an outcome on the plan and the attempt as they were read. The plan
      keeps the identifier as the caller gave it, blanks included. */
  function Outcome(op: Operation, p: Plan, a: Attempt, given: string, at: int): Result<(Plan, Attempt), ExecError> {
    match op
    case Fail(code, d, cost) => Ok(FailureDecision(p, a, given, code, d, cost, at))
    case Succeed(cost) => Ok(SuccessDecision(p, a, given, cost, at))
    case Resolve(ok, code, d, cost) =>
      if !p.status.AwaitingEvidence? || p.current != Some(given) then Err(NotAwaitingReconciliation)
      else if ok then Ok(SuccessDecision(p, a, given, cost, at))
      else if d.ReconciliationRequired? then Err(UnresolvedResolution)
      else Ok(FailureDecision(p, a, given, code, d, cost, at))
  }

  // ------------------------------------------------------------------ store

  datatype Store = Store(plans: map<string, Plan>, planByUtt: map<string, string>, attempts: map<string, Attempt>)

  const EMPTY_STORE := Store(map[], map[], map[])

  predicate Linked(s: Store, uttId: string) { uttId in s.planByUtt && s.planByUtt[uttId] in s.plans }

  function CreatePlan(s: Store, p: Plan): Result<(Store, Plan), ExecError>
    requires p.uttId in s.planByUtt ==> Linked(s, p.uttId)
  {
    if p.uttId in s.planByUtt then
      if s.planByUtt[p.uttId] != p.planId then Err(PlanConflict) else Ok((s, s.plans[p.planId]))
    else if p.planId in s.plans then Err(IdentifierCollision)
    else Ok((s.(plans := s.plans[p.planId := p], planByUtt := s.planByUtt[p.uttId := p.planId]), p))
  }

  function CommitStart(s: Store, previous: nat, p: Plan, a: Attempt): Result<Store, ExecError> {
    if p.planId !in s.plans || s.plans[p.planId].version != previous then Err(ConcurrentUpdate)
    else if s.plans[p.planId].current.Some? then Err(AlreadyInFlight)
    else if a.rttId in s.attempts then Err(IdentifierCollision)
    else if a.uttId != p.uttId || a.planId != p.planId then Err(LineageMismatch)
    else Ok(s.(attempts := s.attempts[a.rttId := a], plans := s.plans[p.planId := p]))
  }

  function CommitTransition(s: Store, previous: nat, p: Plan, a: Attempt): Result<Store, ExecError> {
    if p.planId !in s.plans || s.plans[p.planId].version != previous then Err(ConcurrentUpdate)
    else if a.rttId !in s.attempts then Err(RttNotFound)
    else if s.plans[p.planId].current != Some(a.rttId) then Err(NotCurrentAttempt)
    else Ok(s.(attempts := s.attempts[a.rttId := a], plans := s.plans[p.planId := p]))
  }

  // ------------------------------------------------- whole service operations

  function BuildPlan(s: Store, planId: string, t: Terms, cs: seq<Candidate>, w: Weights, at: int)
    : Result<(Store, Plan), ExecError>
    requires AcceptedTerms(t)
    requires t.uttId in s.planByUtt ==> Linked(s, t.uttId)
  {
    match Ranking(cs, Request(t.amount, t.currencyFrom, t.currencyTo, t.budget, t.source, t.destination, at), w)
    case Err(_) => Err(RankingRejected)
    case Ok(ranked) => if ranked == [] then Err(NoEligibleRoute) else CreatePlan(s, NewPlan(planId, t, ranked, at))
  }

  function StartNext(s: Store, uttId: string, rttId: Identifier, at: int): Result<(Store, Attempt), ExecError> {
    if !Linked(s, uttId) then Err(PlanNotFound)
    else
      var p := s.plans[s.planByUtt[uttId]];
      match StartDecision(p, rttId, at)
      case Err(e) => Err(e)
      case Ok((p', a)) =>
        match CommitStart(s, p.version, p', a)
        case Err(e) => Err(e)
        case Ok(s') => Ok((s', a))
  }

  /** What the contract store answers for a UTT: whether its signature verifies, its
      terms and the version of its endpoint model. */
  datatype SignedUtt = SignedUtt(valid: bool, terms: Terms, endpointModel: int)

  type Contracts = map<string, SignedUtt>

  /** UTTs are stored under their own generated identifiers, with accepted terms. */
  ghost predicate ContractsOk(utts: Contracts) {
    forall u :: u in utts ==> Generated(u) && utts[u].terms.uttId == u && AcceptedTerms(utts[u].terms)
  }

  function UttProblem(utts: Contracts, uttId: string): Option<ExecError> {
    if Strip(uttId) == "" then Some(IdRequired)
    else if Strip(uttId) !in utts then Some(UttNotFound)
    else if !utts[Strip(uttId)].valid then Some(UttRejected)
    else None
  }

  /** build_plan: the UTT is looked up stripped, the plan is stored under the
      identifier as given, and the store looks that one up once more. */
  function PlanFor(s: Store, utts: Contracts, uttId: string, planId: string, cs: seq<Candidate>, w: Weights, at: int)
    : Result<(Store, Plan), ExecError>
    requires ContractsOk(utts) && (uttId in s.planByUtt ==> Linked(s, uttId))
  {
    if UttProblem(utts, uttId).Some? then Err(UttProblem(utts, uttId).value)
    else
      var t := utts[Strip(uttId)].terms;
      match Ranking(cs, Request(t.amount, t.currencyFrom, t.currencyTo, t.budget, t.source, t.destination, at), w)
      case Err(_) => Err(RankingRejected)
      case Ok(ranked) =>
        if ranked == [] then Err(NoEligibleRoute)
        else if uttId !in utts then Err(UttNotFound)
        else CreatePlan(s, NewPlan(planId, t.(uttId := uttId), ranked, at))
  }

  /** The endpoint validator: absent, and then allowed or not, or its verdict. */
  datatype EndpointCheck = Unchecked(allowed: bool) | Checked(passed: bool)

  function StartProblem(utts: Contracts, uttId: string, check: EndpointCheck): Option<ExecError> {
    if UttProblem(utts, uttId).Some? then UttProblem(utts, uttId)
    else if utts[Strip(uttId)].endpointModel != 1 then Some(UnsupportedEndpoints)
    else match check
      case Unchecked(allowed) => if allowed then None else Some(ValidatorMissing)
      case Checked(passed) => if passed then None else Some(EndpointRejected)
  }

  /** start_next: checks on the UTT, the decision on its plan, the signed birth, the commit. */
  function StartFor(s: Store, utts: Contracts, uttId: string, check: EndpointCheck, rttId: Identifier, signs: bool,
                    at: int)
    : Result<(Store, Attempt), ExecError>
  {
    if StartProblem(utts, uttId, check).Some? then Err(StartProblem(utts, uttId, check).value)
    else if !Linked(s, uttId) then Err(PlanNotFound)
    else
      var p := s.plans[s.planByUtt[uttId]];
      match StartDecision(p, rttId, at)
      case Err(e) => Err(e)
      case Ok(_) =>
        if !signs then Err(SigningRefused)
        else if p.uttId !in utts then Err(UttNotFound)
        else StartNext(s, uttId, rttId, at)
  }

  /** A plan that is stored is the plan of the UTT's own identifier; a padded one is
      refused, and nothing starts that the plain operation would not start. */
  lemma UttsAreNotPadded(s: Store, utts: Contracts, uttId: string, planId: string, cs: seq<Candidate>, w: Weights,
                         check: EndpointCheck, rttId: Identifier, signs: bool, at: int)
    requires ContractsOk(utts) && (uttId in s.planByUtt ==> Linked(s, uttId))
    ensures PlanFor(s, utts, uttId, planId, cs, w, at).Ok? ==>
              && uttId in utts && utts[uttId].valid
              && PlanFor(s, utts, uttId, planId, cs, w, at) == BuildPlan(s, planId, utts[uttId].terms, cs, w, at)
    ensures StartFor(s, utts, uttId, check, rttId, signs, at).Ok? ==>
              StartFor(s, utts, uttId, check, rttId, signs, at) == StartNext(s, uttId, rttId, at)
  {
    hide Ranking, StartDecision, CreatePlan, Strip;
    if uttId in utts {
      assert Strip(uttId) == uttId && utts[uttId].terms.(uttId := uttId) == utts[uttId].terms;
    }
  }

  /** The attempt a reporter finds: its identifier is stripped for the lookup. */
  function FindAttempt(s: Store, given: string): Option<Attempt> {
    if Strip(given) != "" && Strip(given) in s.attempts then Some(s.attempts[Strip(given)]) else None
  }

  /** record_failure, record_success and resolve_reconciliation, uninterrupted. */
  function Record(s: Store, given: string, op: Operation, at: int): Result<(Store, Plan), ExecError> {
    match FindAttempt(s, given)
    case None => Err(if Strip(given) == "" then IdRequired else RttNotFound)
    case Some(a) =>
      if a.state != Expects(op) then
        Err(if op.Resolve? then NotAwaitingReconciliation else OutcomeAlreadyRecorded)
      else if a.planId !in s.plans then Err(PlanNotFound)
      else
        var p := s.plans[a.planId];
        match Outcome(op, p, a, given, at)
        case Err(e) => Err(e)
        case Ok((p', a')) =>
          match CommitTransition(s, p.version, p', a')
          case Err(e) => Err(e)
          case Ok(s') => Ok((s', p'))
  }

  // ------------------------------------------------------------- small facts

  ghost predicate DistinctRoutes(ranked: seq<RankedRoute>) {
    forall i, j :: 0 <= i < j < |ranked| ==> ranked[i].candidate.routeId != ranked[j].candidate.routeId
  }

  lemma {:induction false} EstimateAt(ranked: seq<RankedRoute>, i: nat)
    requires i < |ranked| && DistinctRoutes(ranked)
    ensures EstimateOf(ranked, ranked[i].candidate.routeId) == Some(ranked[i].candidate.estimatedCost)
  {
    if i < |ranked| - 1 {
      EstimateAt(ranked[..|ranked| - 1], i);
    }
  }

  lemma {:induction false} EstimateFrom(ranked: seq<RankedRoute>, id: string)
    ensures EstimateOf(ranked, id).Some? ==>
              exists i :: 0 <= i < |ranked| && ranked[i].candidate.routeId == id
                          && EstimateOf(ranked, id) == Some(ranked[i].candidate.estimatedCost)
  {
    if ranked != [] && ranked[|ranked| - 1].candidate.routeId != id {
      EstimateFrom(ranked[..|ranked| - 1], id);
    }
  }

  /** The guard that closes a plan is the guard that opens the next attempt. */
  lemma {:induction false} PickFinds(p: Plan, left: int)
    requires DistinctRoutes(p.ranked)
    ensures AffordableRemains(p, left) <==> Pick(p.ranked, p.remaining, left).Some?
  {
    if AffordableRemains(p, left) {
      var i :| 0 <= i < |p.ranked| && p.ranked[i].candidate.routeId in p.remaining
               && p.ranked[i].candidate.estimatedCost <= left;
      EstimateAt(p.ranked, i);
    }
    if Pick(p.ranked, p.remaining, left).Some? {
      EstimateFrom(p.ranked, Pick(p.ranked, p.remaining, left).value);
    }
  }
}
