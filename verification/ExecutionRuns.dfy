/** Every interleaving of planners and attempt workers, with crashes between any
    two reads and writes: what holds in every reachable state. */
module ExecutionRuns {
  import opened Prelude
  import opened RouteScoring
  import opened Execution

  /** What a worker holds between its reads and its commit. */
  datatype Local =
    | Idle
    | SawPlan(plan: Plan)
    | SawAttempt(op: Operation, given: string, attempt: Attempt)
    | SawBoth(op: Operation, given: string, attempt: Attempt, plan: Plan)

  /** One committed report: what was reported of which RTT, as it was given, and when. */
  datatype Report = Report(planId: string, rttId: string, cost: nat, op: Operation, given: string, at: int)

  datatype Link = Link(rttId: string, routeId: string)

  /** The store, the workers, and three records of the run itself: the committed
      reports and, for each plan, the accepted terms it was built for and its
      attempts in the order they were started. */
  datatype World = World(store: Store, workers: map<int, Local>, log: seq<Report>, chains: map<string, seq<Link>>,
                         terms: map<string, Terms>)

  const INITIAL := World(EMPTY_STORE, map[], [], map[], map[])

  datatype Action =
    | Build(planId: string, terms: Terms, candidates: seq<Candidate>, weights: Weights, at: int)
    | ReadPlanToStart(worker: int, uttId: string)
    | CommitStarted(worker: int, rttId: Identifier, at: int)
    | ReadAttempt(worker: int, given: string, op: Operation)
    | ReadPlan(worker: int)
    | CommitOutcome(worker: int, at: int)
    | Crash(worker: int)

  function LocalOf(w: World, worker: int): Local {
    if worker in w.workers then w.workers[worker] else Idle
  }

  function Set(w: World, worker: int, l: Local): World { w.(workers := w.workers[worker := l]) }

  function DoBuild(w: World, planId: string, t: Terms, cs: seq<Candidate>, weights: Weights, at: int): World {
    if !AcceptedTerms(t) || (t.uttId in w.store.planByUtt && !Linked(w.store, t.uttId)) then w
    else match BuildPlan(w.store, planId, t, cs, weights, at)
      case Err(_) => w
      case Ok((s, p)) =>
        if t.uttId in w.store.planByUtt then w
        else w.(store := s, chains := w.chains[p.planId := []], terms := w.terms[p.planId := t])
  }

  function DoCommitStarted(w: World, worker: int, rttId: Identifier, at: int): World {
    match LocalOf(w, worker)
    case SawPlan(p) =>
      (match StartDecision(p, rttId, at)
       case Err(_) => Set(w, worker, Idle)
       case Ok((p', a)) =>
         match CommitStart(w.store, p.version, p', a)
         case Err(_) => Set(w, worker, Idle)
         case Ok(s) =>
           var chain := if p.planId in w.chains then w.chains[p.planId] else [];
           Set(w, worker, Idle).(store := s, chains := w.chains[p.planId := chain + [Link(rttId, a.routeId)]]))
    case _ => w
  }

  function DoCommitOutcome(w: World, worker: int, at: int): World {
    match LocalOf(w, worker)
    case SawBoth(op, given, a, p) =>
      (match Outcome(op, p, a, given, at)
       case Err(_) => Set(w, worker, Idle)
       case Ok((p', a')) =>
         match CommitTransition(w.store, p.version, p', a')
         case Err(_) => Set(w, worker, Idle)
         case Ok(s) =>
           Set(w, worker, Idle).(store := s, log := w.log + [Report(p.planId, a.rttId, op.cost, op, given, at)]))
    case _ => w
  }

  /** One step. A step whose guard fails in the program raises: the worker goes idle. */
  function Do(w: World, a: Action): World {
    match a
    case Build(planId, t, cs, weights, at) => DoBuild(w, planId, t, cs, weights, at)
    case ReadPlanToStart(k, uttId) =>
      if Linked(w.store, uttId) then Set(w, k, SawPlan(w.store.plans[w.store.planByUtt[uttId]])) else Set(w, k, Idle)
    case CommitStarted(k, rttId, at) => DoCommitStarted(w, k, rttId, at)
    case ReadAttempt(k, given, op) =>
      var found := FindAttempt(w.store, given);
      if found.Some? && found.value.state == Expects(op) then Set(w, k, SawAttempt(op, given, found.value))
      else Set(w, k, Idle)
    case ReadPlan(k) =>
      (match LocalOf(w, k)
       case SawAttempt(op, given, att) =>
         if att.planId in w.store.plans then Set(w, k, SawBoth(op, given, att, w.store.plans[att.planId]))
         else Set(w, k, Idle)
       case _ => w)
    case CommitOutcome(k, at) => DoCommitOutcome(w, k, at)
    case Crash(k) => Set(w, k, Idle)
  }

  function Exec(w: World, actions: seq<Action>): World
    decreases |actions|
  {
    if actions == [] then w else Exec(Do(w, actions[0]), actions[1..])
  }

  // ---------------------------------------------------------- the invariant

  ghost function RoutesOf(c: seq<Link>): set<string> { set l | l in c :: l.routeId }

  ghost predicate StaticOk(p: Plan) {
    && p.ranked != [] && DistinctRoutes(p.ranked) && 1 <= p.maxAttempts <= 10 && 0 <= p.budget && 1 <= p.version
    && (forall i :: 0 <= i < |p.ranked| ==> 0 <= p.ranked[i].candidate.estimatedCost <= p.budget)
    && BestFirst(p.ranked)
  }

  /** Descending score, equal scores by ascending identifier. */
  ghost predicate BestFirst(ranked: seq<RankedRoute>) {
    forall i, j :: 0 <= i < j < |ranked| ==>
      || ranked[i].score > ranked[j].score
      || (ranked[i].score == ranked[j].score && StrLt(ranked[i].candidate.routeId, ranked[j].candidate.routeId))
  }

  /** Attempt i of a plan: its number, its lineage and its link to the one before. */
  ghost predicate LinkOk(attempts: map<string, Attempt>, p: Plan, c: seq<Link>, i: int) {
    0 <= i < |c| ==>
      && c[i].rttId in attempts
      && var a := attempts[c[i].rttId];
      && a.rttId == c[i].rttId && a.planId == p.planId && a.uttId == p.uttId
      && a.attemptNumber == i + 1 && a.routeId == c[i].routeId && a.routeId in RankedIds(p.ranked)
      && a.birth == Birth(a.rttId, p.uttId, p.planId, i + 1, a.routeId, a.birth.previousRtt,
                          if i == 0 then None else Some(c[i - 1].routeId))
      && (if i == 0 then a.birth.previousRtt == None else Names(a.birth.previousRtt, c[i - 1].rttId))
      && (i < |c| - 1 ==> a.state == AttemptFailed)
  }

  ghost predicate CanStart(p: Plan) {
    p.attemptsUsed < p.maxAttempts && AffordableRemains(p, BudgetLeft(p))
  }

  /** How the status, the in-flight marker and the last attempt fit together. */
  ghost predicate PhaseOk(attempts: map<string, Attempt>, p: Plan, c: seq<Link>) {
    if c == [] then p.status == Active && p.current == None && p.previousRtt == None && p.previousRoute == None
                    && p.successfulRoute == None && CanStart(p)
    else
      var last := c[|c| - 1];
      && last.rttId in attempts
      && var state := attempts[last.rttId].state;
      if p.current.Some? then
        && p.successfulRoute == None
        && ((p.status == Active && state == Created && p.current == Some(last.rttId)
             && (if |c| == 1 then p.previousRtt == None else Names(p.previousRtt, c[|c| - 2].rttId))
             && p.previousRoute == (if |c| == 1 then None else Some(c[|c| - 2].routeId)))
            || (p.status == AwaitingEvidence && state == Unresolved && Names(p.current, last.rttId)
                && Names(p.previousRtt, last.rttId) && p.previousRoute == Some(last.routeId)))
      else
        && Names(p.previousRtt, last.rttId) && p.previousRoute == Some(last.routeId)
        && p.status != AwaitingEvidence
        && state == (if p.status == Finalized then Succeeded else AttemptFailed)
        && p.successfulRoute == (if p.status == Finalized then Some(last.routeId) else None)
        && (p.status == Active ==> CanStart(p))
  }

  ghost predicate ChainOk(p: Plan, c: seq<Link>) {
    && |c| == p.attemptsUsed <= p.maxAttempts
    && (forall i, j :: 0 <= i < j < |c| ==> c[i].rttId != c[j].rttId && c[i].routeId != c[j].routeId)
    && p.remaining == Without(RankedIds(p.ranked), RoutesOf(c))
  }

  ghost predicate PlanOk(attempts: map<string, Attempt>, p: Plan, c: seq<Link>) {
    && StaticOk(p) && ChainOk(p, c) && PhaseOk(attempts, p, c)
    && (forall i :: LinkOk(attempts, p, c, i))
  }

  /** A plan as it was read: no newer than the stored one, and equal to it at the same version. */
  ghost predicate Snapshot(s: Store, p: Plan) {
    && p.planId in s.plans && p.version <= s.plans[p.planId].version
    && (p.version == s.plans[p.planId].version ==> p == s.plans[p.planId])
  }

  /** An attempt as it was read differs from the stored one in its outcome fields at most. */
  ghost predicate SameAttempt(s: Store, a: Attempt) {
    && a.rttId in s.attempts
    && var b := s.attempts[a.rttId];
       a == b.(state := a.state, failureCode := a.failureCode, actualCost := a.actualCost, updatedAt := a.updatedAt)
  }

  /** A resolution is for an unresolved attempt, any other report for one without outcome. */
  ghost predicate AwaitsReport(op: Operation, a: Attempt) { a.state == if op.Resolve? then Unresolved else Created }

  ghost predicate LocalOk(s: Store, l: Local) {
    match l
    case Idle => true
    case SawPlan(p) => Snapshot(s, p)
    case SawAttempt(op, given, a) => SameAttempt(s, a) && Strip(given) == a.rttId && AwaitsReport(op, a)
    case SawBoth(op, given, a, p) =>
      SameAttempt(s, a) && Strip(given) == a.rttId && AwaitsReport(op, a) && Snapshot(s, p) && p.planId == a.planId
  }

  ghost predicate InChain(c: seq<Link>, rttId: string) { exists i :: 0 <= i < |c| && c[i].rttId == rttId }

  ghost predicate PlansOk(w: World) {
    && w.chains.Keys == w.store.plans.Keys
    && (forall id :: id in w.store.plans ==>
          && w.store.plans[id].planId == id
          && PlanOk(w.store.attempts, w.store.plans[id], w.chains[id]))
  }

  ghost predicate IndexOk(s: Store) {
    && (forall id :: id in s.plans ==> s.plans[id].uttId in s.planByUtt && s.planByUtt[s.plans[id].uttId] == id)
    && (forall u :: u in s.planByUtt ==> s.planByUtt[u] in s.plans && s.plans[s.planByUtt[u]].uttId == u)
  }

  ghost predicate AttemptsOk(w: World) {
    forall r :: r in w.store.attempts ==>
      && w.store.attempts[r].rttId == r && Generated(r)
      && w.store.attempts[r].planId in w.chains && InChain(w.chains[w.store.attempts[r].planId], r)
  }

  ghost predicate WorkersOk(w: World) {
    forall k :: k in w.workers ==> LocalOk(w.store, w.workers[k])
  }

  ghost predicate Inv(w: World) { PlansOk(w) && IndexOk(w.store) && AttemptsOk(w) && WorkersOk(w) }

  // ------------------------------------------------- each decision keeps it

  /** A ranking is a usable plan: distinct routes, best first, each within the budget. */
  lemma RankingUsable(cs: seq<Candidate>, q: Request, weights: Weights)
    requires Payable(q) && Ranking(cs, q, weights).Ok?
    ensures var r := Ranking(cs, q, weights).value;
            && DistinctRoutes(r) && BestFirst(r)
            && forall i :: 0 <= i < |r| ==> 0 <= r[i].candidate.estimatedCost <= q.budget
  {
    var r := Ranking(cs, q, weights).value;
    RankingIsExact(cs, q, weights);
    forall i | 0 <= i < |r| ensures 0 <= r[i].candidate.estimatedCost <= q.budget {
      var c := r[i].candidate;
      assert IsRanked(r, c);
    }
  }

  lemma NewPlanOk(attempts: map<string, Attempt>, planId: string, t: Terms, ranked: seq<RankedRoute>, at: int)
    requires AcceptedTerms(t) && ranked != [] && DistinctRoutes(ranked) && BestFirst(ranked)
    requires forall i :: 0 <= i < |ranked| ==> 0 <= ranked[i].candidate.estimatedCost <= t.budget
    ensures PlanOk(attempts, NewPlan(planId, t, ranked, at), [])
  {
    assert RoutesOf([]) == {};
    WithoutNothing(RankedIds(ranked));
    assert RankedIds(ranked)[0] == ranked[0].candidate.routeId;
  }

  lemma StartKeepsChain(p: Plan, c: seq<Link>, rttId: string, route: string, p': Plan)
    requires ChainOk(p, c) && route in p.remaining && p.attemptsUsed < p.maxAttempts
    requires forall i :: 0 <= i < |c| ==> c[i].rttId != rttId
    requires p'.ranked == p.ranked && p'.maxAttempts == p.maxAttempts && p'.attemptsUsed == p.attemptsUsed + 1
    requires p'.remaining == Without(p.remaining, {route})
    ensures ChainOk(p', c + [Link(rttId, route)])
  {
    hide RankedIds, Without;
    var c' := c + [Link(rttId, route)];
    assert RoutesOf(c') == RoutesOf(c) + {route};
    WithoutTwice(RankedIds(p.ranked), RoutesOf(c), {route});
    forall i | 0 <= i < |c| ensures c[i].routeId != route {
      assert c[i] in c;
    }
  }

  lemma StartKeepsPlan(attempts: map<string, Attempt>, p: Plan, c: seq<Link>, rttId: string, at: int)
    requires PlanOk(attempts, p, c) && rttId !in attempts && StartDecision(p, rttId, at).Ok?
    ensures var (p', a) := StartDecision(p, rttId, at).value;
            PlanOk(attempts[rttId := a], p', c + [Link(rttId, a.routeId)])
  {
    var (p', a) := StartDecision(p, rttId, at).value;
    var c' := c + [Link(rttId, a.routeId)];
    var attempts' := attempts[rttId := a];
    forall i | 0 <= i < |c| ensures c[i].rttId != rttId {
      assert LinkOk(attempts, p, c, i);
    }
    StartKeepsChain(p, c, rttId, a.routeId, p');
    hide ChainOk;
    forall i ensures LinkOk(attempts', p', c', i) {
      assert LinkOk(attempts, p, c, i);
      NewLinkOk(attempts, p, c, rttId, a, p', i);
    }
    NewPhaseOk(attempts, p, c, rttId, at);
    assert StaticOk(p');
  }

  lemma NewPhaseOk(attempts: map<string, Attempt>, p: Plan, c: seq<Link>, rttId: string, at: int)
    requires PhaseOk(attempts, p, c) && StartDecision(p, rttId, at).Ok?
    ensures var (p', a) := StartDecision(p, rttId, at).value;
            PhaseOk(attempts[rttId := a], p', c + [Link(rttId, a.routeId)])
  {
    var a := StartDecision(p, rttId, at).value.1;
    var c' := c + [Link(rttId, a.routeId)];
    assert c'[|c|] == Link(rttId, a.routeId);
    assert |c| >= 1 ==> c'[|c| - 1] == c[|c| - 1];
  }

  /** Fields that a start leaves alone. */
  lemma StartShape(p: Plan, rttId: string, at: int)
    requires StartDecision(p, rttId, at).Ok?
    ensures var (p', a) := StartDecision(p, rttId, at).value;
            && a.rttId == rttId && a.planId == p.planId == p'.planId && a.uttId == p.uttId == p'.uttId
            && p'.version == p.version + 1 && p'.spent == p.spent && p'.budget == p.budget && p'.ranked == p.ranked
            && p'.current == Some(rttId) && p'.status == p.status == Active && p'.attemptsUsed == p.attemptsUsed + 1
            && p.current == None && Affordable(p.ranked, a.routeId, BudgetLeft(p)) && a.state == Created
            && a.attemptNumber == p'.attemptsUsed
  {
  }

  lemma NewLinkOk(attempts: map<string, Attempt>, p: Plan, c: seq<Link>, rttId: string, a: Attempt, p': Plan, i: int)
    requires LinkOk(attempts, p, c, i) && PhaseOk(attempts, p, c) && p.current == None
    requires p.status == Active && |c| == p.attemptsUsed && rttId !in attempts
    requires p'.planId == p.planId && p'.uttId == p.uttId && p'.ranked == p.ranked
    requires a.rttId == rttId && a.planId == p.planId && a.uttId == p.uttId && a.attemptNumber == |c| + 1
    requires a.routeId in RankedIds(p.ranked)
    requires a.birth == Birth(rttId, p.uttId, p.planId, |c| + 1, a.routeId, p.previousRtt, p.previousRoute)
    ensures LinkOk(attempts[rttId := a], p', c + [Link(rttId, a.routeId)], i)
  {
  }

  /** Fields that no outcome touches. */
  lemma OutcomeShape(op: Operation, p: Plan, a: Attempt, given: string, at: int)
    requires Outcome(op, p, a, given, at).Ok?
    ensures var (p', a') := Outcome(op, p, a, given, at).value;
            && p'.planId == p.planId && p'.uttId == p.uttId && p'.ranked == p.ranked && p'.remaining == p.remaining
            && p'.attemptsUsed == p.attemptsUsed && p'.maxAttempts == p.maxAttempts && p'.budget == p.budget
            && p'.version == p.version + 1 && p'.spent == p.spent + op.cost
            && a' == a.(state := a'.state, failureCode := a'.failureCode, actualCost := a'.actualCost, updatedAt := at)
            && p'.previousRtt == Some(given) && p'.previousRoute == Some(a.routeId)
            && (p'.current.Some? ==> p'.current == Some(given))
  {
  }

  lemma {:induction false} OutcomeKeepsPlan(attempts: map<string, Attempt>, p: Plan, c: seq<Link>, op: Operation,
                                            a: Attempt, given: string, at: int)
    requires PlanOk(attempts, p, c) && Outcome(op, p, a, given, at).Ok?
    requires a.rttId in attempts && p.current == Some(a.rttId) && Strip(a.rttId) == a.rttId == Strip(given)
    requires a == attempts[a.rttId].(state := a.state, failureCode := a.failureCode,
                                     actualCost := a.actualCost, updatedAt := a.updatedAt)
    ensures var (p', a') := Outcome(op, p, a, given, at).value;
            PlanOk(attempts[a.rttId := a'], p', c)
  {
    hide Outcome, Strip, Names, CanStart, RankedIds, Without;
    var (p', a') := Outcome(op, p, a, given, at).value;
    OutcomeShape(op, p, a, given, at);
    assert c != [] && c[|c| - 1].rttId == a.rttId by { CurrentIsLast(attempts, p, c, a.rttId); }
    assert LinkOk(attempts, p, c, |c| - 1);
    OutcomeKeepsPhase(attempts, p, c, op, a, given, at);
    var attempts' := attempts[a.rttId := a'];
    forall i ensures LinkOk(attempts', p', c, i) {
      assert LinkOk(attempts, p, c, i);
    }
    assert ChainOk(p', c) && StaticOk(p');
  }

  lemma {:induction false} CurrentIsLast(attempts: map<string, Attempt>, p: Plan, c: seq<Link>, rttId: string)
    requires PhaseOk(attempts, p, c) && p.current == Some(rttId) && Strip(rttId) == rttId
    ensures c != [] && c[|c| - 1].rttId == rttId
  {
    hide CanStart, Strip;
  }

  lemma {:induction false} OutcomeKeepsPhase(attempts: map<string, Attempt>, p: Plan, c: seq<Link>, op: Operation,
                                             a: Attempt, given: string, at: int)
    requires PhaseOk(attempts, p, c) && Outcome(op, p, a, given, at).Ok?
    requires c != [] && c[|c| - 1].rttId == a.rttId == Strip(given) && c[|c| - 1].routeId == a.routeId
    requires p.current.Some?
    ensures var (p', a') := Outcome(op, p, a, given, at).value; PhaseOk(attempts[a.rttId := a'], p', c)
  {
    hide Strip, AffordableRemains;
    var (p', a') := Outcome(op, p, a, given, at).value;
    assert Names(Some(given), a.rttId);
    if p'.status == Active { ActiveCanStart(op, p, a, given, at); }
  }

  /** A plan that stays active after an outcome can start again. */
  lemma ActiveCanStart(op: Operation, p: Plan, a: Attempt, given: string, at: int)
    requires Outcome(op, p, a, given, at).Ok? && Outcome(op, p, a, given, at).value.0.status == Active
    ensures CanStart(Outcome(op, p, a, given, at).value.0)
  {
    var p' := Outcome(op, p, a, given, at).value.0;
    assert AffordableRemains(p, BudgetLeft(p')) <==> AffordableRemains(p', BudgetLeft(p'));
  }

  /** A plan whose own attempts are untouched stays sound. */
  lemma FramePlan(attempts: map<string, Attempt>, attempts': map<string, Attempt>, p: Plan, c: seq<Link>)
    requires PlanOk(attempts, p, c)
    requires forall i :: 0 <= i < |c| ==>
               c[i].rttId in attempts' && (c[i].rttId in attempts ==> attempts'[c[i].rttId] == attempts[c[i].rttId])
    ensures PlanOk(attempts', p, c)
  {
    forall i ensures LinkOk(attempts', p, c, i) {
      assert LinkOk(attempts, p, c, i);
    }
    if c != [] {
      assert LinkOk(attempts, p, c, |c| - 1);
    }
  }

  // ----------------------------------------------------- each step keeps it

  /** How one committed write moves the store: versions grow, and a record keeps
      its identity. */
  ghost predicate Advances(s: Store, s': Store) {
    && (forall id :: id in s.plans ==>
          && id in s'.plans && s.plans[id].version <= s'.plans[id].version
          && (s.plans[id].version == s'.plans[id].version ==> s.plans[id] == s'.plans[id]))
    && (forall r :: r in s.attempts ==> SameAttempt(s', s.attempts[r]))
  }

  lemma IdleOk(s: Store)
    ensures LocalOk(s, Idle)
  {
  }

  lemma LocalKept(s: Store, s': Store, l: Local)
    requires Advances(s, s') && LocalOk(s, l)
    ensures LocalOk(s', l)
  {
    if l.SawAttempt? || l.SawBoth? {
      assert SameAttempt(s', s.attempts[l.attempt.rttId]);
    }
  }

  lemma WorkersKept(w: World, w': World, worker: int)
    requires WorkersOk(w) && Advances(w.store, w'.store)
    requires forall k :: k in w'.workers && k != worker ==> k in w.workers && w'.workers[k] == w.workers[k]
    requires worker in w'.workers ==> LocalOk(w'.store, w'.workers[worker])
    ensures WorkersOk(w')
  {
    forall k | k in w'.workers ensures LocalOk(w'.store, w'.workers[k]) {
      if k != worker {
        LocalKept(w.store, w'.store, w.workers[k]);
      }
    }
  }

  /** A write that touches one plan and one attempt of it. */
  ghost predicate Writes(s: Store, s': Store, p': Plan, a': Attempt) {
    s' == s.(plans := s.plans[p'.planId := p'], attempts := s.attempts[a'.rttId := a'])
  }

  lemma WriteAdvances(w: World, p': Plan, a': Attempt, s': Store)
    requires AttemptsOk(w) && Writes(w.store, s', p', a') && p'.planId in w.store.plans
    requires p'.version == w.store.plans[p'.planId].version + 1
    requires a'.rttId in w.store.attempts ==> SameAttempt(s', w.store.attempts[a'.rttId])
    ensures Advances(w.store, s')
  {
    forall r | r in w.store.attempts ensures SameAttempt(s', w.store.attempts[r]) {
    }
  }

  lemma WriteKeepsIndex(s: Store, s': Store, p': Plan, a': Attempt)
    requires IndexOk(s) && Writes(s, s', p', a') && p'.planId in s.plans && p'.uttId == s.plans[p'.planId].uttId
    ensures IndexOk(s')
  {
  }

  /** A step that writes one attempt leaves every other plan sound. */
  lemma OtherPlanKept(w: World, attempts': map<string, Attempt>, id: string, rttId: string)
    requires PlansOk(w) && id in w.store.plans
    requires rttId in w.store.attempts ==> w.store.attempts[rttId].planId != id
    requires forall r :: r in w.store.attempts && r != rttId ==> r in attempts' && attempts'[r] == w.store.attempts[r]
    ensures PlanOk(attempts', w.store.plans[id], w.chains[id])
  {
    var c := w.chains[id];
    forall i | 0 <= i < |c| ensures c[i].rttId in w.store.attempts && c[i].rttId != rttId {
      assert LinkOk(w.store.attempts, w.store.plans[id], c, i);
    }
    FramePlan(w.store.attempts, attempts', w.store.plans[id], c);
  }

  lemma WriteKeepsPlans(w: World, w': World, p': Plan, a': Attempt, c': seq<Link>)
    requires PlansOk(w) && Writes(w.store, w'.store, p', a') && p'.planId in w.store.plans
    requires a'.rttId in w.store.attempts ==> w.store.attempts[a'.rttId].planId == p'.planId
    requires w'.chains == w.chains[p'.planId := c'] && PlanOk(w'.store.attempts, p', c')
    ensures PlansOk(w')
  {
    hide PlanOk;
    forall id | id in w'.store.plans
      ensures w'.store.plans[id].planId == id && PlanOk(w'.store.attempts, w'.store.plans[id], w'.chains[id])
    {
      if id != p'.planId {
        OtherPlanKept(w, w'.store.attempts, id, a'.rttId);
      }
    }
  }

  lemma WriteKeepsAttempts(w: World, w': World, p': Plan, a': Attempt, c': seq<Link>)
    requires AttemptsOk(w) && Writes(w.store, w'.store, p', a') && a'.planId == p'.planId && p'.planId in w.chains
    requires w'.chains == w.chains[p'.planId := c'] && InChain(c', a'.rttId) && Generated(a'.rttId)
    requires forall r :: InChain(w.chains[p'.planId], r) ==> InChain(c', r)
    ensures AttemptsOk(w')
  {
  }

  function RequestFor(t: Terms, at: int): Request {
    Request(t.amount, t.currencyFrom, t.currencyTo, t.budget, t.source, t.destination, at)
  }

  lemma BuildShape(w: World, a: Action)
    requires a.Build? && Do(w, a) != w
    ensures AcceptedTerms(a.terms) && a.planId !in w.store.plans && a.terms.uttId !in w.store.planByUtt
    ensures Ranking(a.candidates, RequestFor(a.terms, a.at), a.weights).Ok?
    ensures var ranked := Ranking(a.candidates, RequestFor(a.terms, a.at), a.weights).value;
            ranked != []
            && Do(w, a) == AddPlan(w, NewPlan(a.planId, a.terms, ranked, a.at)).(terms := w.terms[a.planId := a.terms])
  {
    hide Ranking;
  }

  lemma BuildKeepsInv(w: World, a: Action)
    requires Inv(w) && a.Build?
    ensures Inv(Do(w, a))
  {
    hide Ranking, DoBuild, PlanOk, PlansOk, IndexOk, AttemptsOk, WorkersOk;
    if Do(w, a) != w {
      BuildShape(w, a);
      var q := RequestFor(a.terms, a.at);
      RankingUsable(a.candidates, q, a.weights);
      var p := NewPlan(a.planId, a.terms, Ranking(a.candidates, q, a.weights).value, a.at);
      NewPlanOk(w.store.attempts, a.planId, a.terms, p.ranked, a.at);
      AddPlanKeepsInv(w, p);
      TermsAreBystanders(AddPlan(w, p), Do(w, a));
    }
  }

  lemma TermsAreBystanders(w: World, w': World)
    requires Inv(w) && w' == w.(terms := w'.terms)
    ensures Inv(w')
  {
    hide PlanOk, LocalOk, InChain, IndexOk;
  }

  function AddPlan(w: World, p: Plan): World {
    w.(store := w.store.(plans := w.store.plans[p.planId := p], planByUtt := w.store.planByUtt[p.uttId := p.planId]),
       chains := w.chains[p.planId := []])
  }

  lemma AddPlanKeepsWorkers(w: World, p: Plan)
    requires WorkersOk(w) && p.planId !in w.store.plans
    requires forall r :: r in w.store.attempts ==> w.store.attempts[r].rttId == r
    ensures WorkersOk(AddPlan(w, p))
  {
    var w' := AddPlan(w, p);
    AddPlanAdvances(w.store, w'.store);
    forall k | k in w'.workers ensures LocalOk(w'.store, w'.workers[k]) {
      LocalKept(w.store, w'.store, w.workers[k]);
    }
  }

  lemma AddPlanKeepsIndex(s: Store, p: Plan)
    requires IndexOk(s) && p.planId !in s.plans && p.uttId !in s.planByUtt
    ensures IndexOk(s.(plans := s.plans[p.planId := p], planByUtt := s.planByUtt[p.uttId := p.planId]))
  {
  }

  lemma AddPlanKeepsPlans(w: World, p: Plan)
    requires PlansOk(w) && p.planId !in w.store.plans && PlanOk(w.store.attempts, p, [])
    ensures PlansOk(AddPlan(w, p))
  {
    hide PlanOk;
    var w' := AddPlan(w, p);
    assert w'.chains.Keys == w.chains.Keys + {p.planId};
    assert w'.store.plans.Keys == w.store.plans.Keys + {p.planId};
  }

  lemma AddPlanKeepsInv(w: World, p: Plan)
    requires Inv(w) && p.planId !in w.store.plans && p.uttId !in w.store.planByUtt
    requires PlanOk(w.store.attempts, p, [])
    ensures Inv(AddPlan(w, p))
  {
    hide PlanOk, WorkersOk, IndexOk;
    AddPlanKeepsWorkers(w, p);
    AddPlanKeepsIndex(w.store, p);
    AddPlanKeepsPlans(w, p);
    assert p.planId !in w.chains;
    assert AttemptsOk(AddPlan(w, p)) by { hide InChain; }
  }

  lemma AddPlanAdvances(s: Store, s': Store)
    requires s'.attempts == s.attempts
    requires forall id :: id in s.plans ==> id in s'.plans && s'.plans[id] == s.plans[id]
    requires forall r :: r in s.attempts ==> s.attempts[r].rttId == r
    ensures Advances(s, s')
  {
    forall r | r in s.attempts ensures SameAttempt(s', s.attempts[r]) {
    }
  }

  lemma StartKeepsInv(w: World, a: Action)
    requires Inv(w) && a.CommitStarted?
    ensures Inv(Do(w, a))
  {
    hide PlanOk, InChain;
    var w' := Do(w, a);
    var l := LocalOf(w, a.worker);
    if l.SawPlan? && w'.store != w.store {
      var p := l.plan;
      assert LocalOk(w.store, l) && p == w.store.plans[p.planId];
      var (p', att) := StartDecision(p, a.rttId, a.at).value;
      StartKeepsPlan(w.store.attempts, p, w.chains[p.planId], a.rttId, a.at);
      StartShape(p, a.rttId, a.at);
      StartWriteKeepsInv(w, w', a.worker, p, p', att);
    } else {
      QuietStepKeepsInv(w, w', a.worker);
    }
  }

  lemma StartWriteKeepsInv(w: World, w': World, worker: int, p: Plan, p': Plan, att: Attempt)
    requires Inv(w) && p.planId in w.store.plans && p == w.store.plans[p.planId]
    requires att.rttId !in w.store.attempts && att.planId == p.planId == p'.planId && p'.uttId == p.uttId
    requires Generated(att.rttId)
    requires p'.version == p.version + 1 && Writes(w.store, w'.store, p', att)
    requires w'.chains == w.chains[p.planId := w.chains[p.planId] + [Link(att.rttId, att.routeId)]]
    requires PlanOk(w'.store.attempts, p', w.chains[p.planId] + [Link(att.rttId, att.routeId)])
    requires w'.workers == w.workers[worker := Idle]
    ensures Inv(w')
  {
    hide PlanOk;
    var c := w.chains[p.planId];
    var c' := c + [Link(att.rttId, att.routeId)];
    WriteAdvances(w, p', att, w'.store);
    WorkersKept(w, w', worker);
    WriteKeepsIndex(w.store, w'.store, p', att);
    WriteKeepsPlans(w, w', p', att, c');
    assert c'[|c|].rttId == att.rttId;
    forall r | InChain(c, r) ensures InChain(c', r) {
      var i :| 0 <= i < |c| && c[i].rttId == r;
      assert c'[i].rttId == r;
    }
    WriteKeepsAttempts(w, w', p', att, c');
  }

  /** A step that only changes what one worker holds. */
  lemma QuietStepKeepsInv(w: World, w': World, worker: int)
    requires Inv(w) && w'.store == w.store && w'.chains == w.chains
    requires forall k :: k in w'.workers && k != worker ==> k in w.workers && w'.workers[k] == w.workers[k]
    requires worker in w'.workers ==> LocalOk(w.store, w'.workers[worker])
    ensures Inv(w')
  {
  }

  lemma OutcomeKeepsInv(w: World, a: Action)
    requires Inv(w) && a.CommitOutcome?
    ensures Inv(Do(w, a))
  {
    hide PlanOk, InChain, FailureDecision, SuccessDecision;
    var w' := Do(w, a);
    var l := LocalOf(w, a.worker);
    if l.SawBoth? && w'.store != w.store {
      assert LocalOk(w.store, l);
      OutcomeShape(l.op, l.plan, l.attempt, l.given, a.at);
      OutcomeKeepsPlan(w.store.attempts, l.plan, w.chains[l.plan.planId], l.op, l.attempt, l.given, a.at);
      var (p', att') := Outcome(l.op, l.plan, l.attempt, l.given, a.at).value;
      OutcomeWriteKeepsInv(w, w', a.worker, l.plan, p', l.attempt, att');
    } else {
      QuietStepKeepsInv(w, w', a.worker);
    }
  }

  /** Records are stored under their own identifiers, which are free of blanks. */
  ghost predicate Keyed(s: Store) {
    && (forall id :: id in s.plans ==> s.plans[id].planId == id)
    && (forall r :: r in s.attempts ==> s.attempts[r].rttId == r && Generated(r))
  }

  lemma InvKeyed(w: World)
    requires Inv(w)
    ensures Keyed(w.store)
  {
    hide PlanOk, InChain, LocalOk;
  }

  lemma OutcomeWriteKeepsInv(w: World, w': World, worker: int, p: Plan, p': Plan, att: Attempt, att': Attempt)
    requires Inv(w) && p.planId in w.store.plans && p == w.store.plans[p.planId]
    requires SameAttempt(w.store, att) && att.planId == p.planId == p'.planId && p'.uttId == p.uttId
    requires att' == att.(state := att'.state, failureCode := att'.failureCode, actualCost := att'.actualCost,
                          updatedAt := att'.updatedAt)
    requires p'.version == p.version + 1 && Writes(w.store, w'.store, p', att') && w'.chains == w.chains
    requires PlanOk(w'.store.attempts, p', w.chains[p.planId])
    requires w'.workers == w.workers[worker := Idle]
    ensures Inv(w')
  {
    hide PlanOk, LocalOk, InChain, IndexOk, WorkersOk;
    var c := w.chains[p.planId];
    OutcomeWriteKeepsWorkers(w, w', worker, p', att, att');
    WriteKeepsIndex(w.store, w'.store, p', att');
    assert w'.chains == w.chains[p'.planId := c];
    WriteKeepsPlans(w, w', p', att', c);
    WriteKeepsAttempts(w, w', p', att', c);
  }

  lemma OutcomeWriteKeepsWorkers(w: World, w': World, worker: int, p': Plan, att: Attempt, att': Attempt)
    requires AttemptsOk(w) && WorkersOk(w) && SameAttempt(w.store, att)
    requires att' == att.(state := att'.state, failureCode := att'.failureCode, actualCost := att'.actualCost,
                          updatedAt := att'.updatedAt)
    requires p'.planId in w.store.plans && p'.version == w.store.plans[p'.planId].version + 1
    requires Writes(w.store, w'.store, p', att') && w'.workers == w.workers[worker := Idle]
    ensures WorkersOk(w')
  {
    hide InChain, LocalOk;
    assert SameAttempt(w'.store, w.store.attempts[att.rttId]);
    WriteAdvances(w, p', att', w'.store);
    IdleOk(w'.store);
    WorkersKept(w, w', worker);
  }

  lemma LocalAfterRead(w: World, a: Action)
    requires Keyed(w.store) && WorkersOk(w) && (a.ReadPlanToStart? || a.ReadAttempt? || a.ReadPlan? || a.Crash?)
    ensures a.worker in Do(w, a).workers ==> LocalOk(w.store, Do(w, a).workers[a.worker])
  {
    assert a.worker in w.workers ==> LocalOk(w.store, w.workers[a.worker]);
  }

  lemma ReadKeepsInv(w: World, a: Action)
    requires Inv(w) && (a.ReadPlanToStart? || a.ReadAttempt? || a.ReadPlan? || a.Crash?)
    ensures Inv(Do(w, a))
  {
    hide PlansOk, IndexOk, AttemptsOk, LocalOk, PlanOk;
    InvKeyed(w);
    LocalAfterRead(w, a);
    QuietStepKeepsInv(w, Do(w, a), a.worker);
  }

  lemma StepKeepsInv(w: World, a: Action)
    requires Inv(w)
    ensures Inv(Do(w, a))
  {
    match a
    case Build(_, _, _, _, _) => BuildKeepsInv(w, a);
    case CommitStarted(_, _, _) => StartKeepsInv(w, a);
    case CommitOutcome(_, _) => OutcomeKeepsInv(w, a);
    case _ => ReadKeepsInv(w, a);
  }

  lemma {:induction false} RunKeepsInv(w: World, actions: seq<Action>)
    requires Inv(w)
    ensures Inv(Exec(w, actions))
    decreases |actions|
  {
    if actions != [] {
      StepKeepsInv(w, actions[0]);
      RunKeepsInv(Do(w, actions[0]), actions[1..]);
    }
  }
}
