/** What is decided, written out on the stored plans and attempts: which candidates a
    plan ranks, which route the next attempt takes, what a report leads to. */
module ExecutionDecisions {
  import opened Prelude
  import opened RouteScoring
  import opened Execution
  import opened ExecutionRuns
  import opened ExecutionTheorems

  // ------------------------------------------------------------- the best route

  /** Route i of a plan has not been tried and its estimate is within what is left of the budget. */
  ghost predicate Available(p: Plan, i: int) {
    && 0 <= i < |p.ranked| && p.ranked[i].candidate.routeId in p.remaining
    && p.ranked[i].candidate.estimatedCost <= (if p.spent < p.budget then p.budget - p.spent else 0)
  }

  /** Route i comes before route j: a higher score, or the same score and the smaller identifier. */
  ghost predicate Ahead(p: Plan, i: int, j: int)
    requires 0 <= i < |p.ranked| && 0 <= j < |p.ranked|
  {
    || p.ranked[i].score > p.ranked[j].score
    || (p.ranked[i].score == p.ranked[j].score
        && StrLt(p.ranked[i].candidate.routeId, p.ranked[j].candidate.routeId))
  }

  /** Route i is the best of the untried routes that can be paid for. */
  ghost predicate IsBest(p: Plan, i: int) {
    Available(p, i) && forall j :: Available(p, j) && j != i ==> i < j && Ahead(p, i, j)
  }

  /** The first affordable identifier of a list with some taken out. */
  lemma {:induction false} PickIsFirst(ranked: seq<RankedRoute>, all: seq<string>, gone: set<string>, left: int)
    returns (i: nat)
    requires Pick(ranked, Without(all, gone), left).Some?
    ensures i < |all| && Some(all[i]) == Pick(ranked, Without(all, gone), left) && all[i] !in gone
    ensures Affordable(ranked, all[i], left)
    ensures forall j :: 0 <= j < i && all[j] !in gone ==> !Affordable(ranked, all[j], left)
    decreases |all|
  {
    hide Affordable;
    var ids, rest := Without(all, gone), Without(all[1..], gone);
    if all[0] !in gone && Affordable(ranked, all[0], left) {
      assert ids[0] == all[0];
      i := 0;
    } else {
      assert Pick(ranked, rest, left) == Pick(ranked, ids, left) by {
        if all[0] in gone { assert ids == rest; } else { assert ids[0] == all[0] && ids[1..] == rest; }
      }
      hide Without, Pick;
      var k := PickIsFirst(ranked, all[1..], gone, left);
      i := k + 1;
      forall j | 0 <= j < i && all[j] !in gone ensures !Affordable(ranked, all[j], left) {
        if j > 0 { assert all[j] == all[1..][j - 1]; }
      }
    }
  }

  lemma {:induction false} PickIsBest(p: Plan, c: seq<Link>)
    requires StaticOk(p) && ChainOk(p, c) && Pick(p.ranked, p.remaining, BudgetLeft(p)).Some?
    ensures var route := Pick(p.ranked, p.remaining, BudgetLeft(p)).value;
            exists i :: IsBest(p, i) && p.ranked[i].candidate.routeId == route
  {
    hide Pick, Without;
    var i := PickIsFirst(p.ranked, RankedIds(p.ranked), RoutesOf(c), BudgetLeft(p));
    EstimateAt(p.ranked, i);
    forall j | Available(p, j) && j != i ensures i < j && Ahead(p, i, j) {
      EstimateAt(p.ranked, j);
      assert RankedIds(p.ranked)[j] !in RoutesOf(c);
    }
    assert IsBest(p, i);
  }

  /** An attempt of a plan as it starts, and the plan before and after. */
  ghost predicate StartsBest(p: Plan, p': Plan, a: Attempt, at: int) {
    && p.status == Active && p.current == None && p.attemptsUsed < p.maxAttempts
    && (exists i :: IsBest(p, i) && a.routeId == p.ranked[i].candidate.routeId)
    && a.state == Created && a.failureCode == None && a.actualCost == None && a.createdAt == at && a.updatedAt == at
    && a.attemptNumber == p.attemptsUsed + 1 && a.planId == p.planId && a.uttId == p.uttId
    && p'.remaining == Without(p.remaining, {a.routeId})
    && p' == p.(remaining := p'.remaining, attemptsUsed := p.attemptsUsed + 1, current := Some(a.rttId),
                version := p.version + 1, updatedAt := at)
  }

  lemma {:induction false} DecisionStartsBest(w: World, id: string, rttId: Identifier, at: int)
    requires Inv(w) && id in w.store.plans && StartDecision(w.store.plans[id], rttId, at).Ok?
    ensures var (p', a) := StartDecision(w.store.plans[id], rttId, at).value;
            StartsBest(w.store.plans[id], p', a, at) && a.rttId == rttId
  {
    hide Inv, Pick, Without, IsBest, PhaseOk;
    ChainLength(w, id);
    PickIsBest(w.store.plans[id], ChainOf(w, id));
  }

  lemma {:induction false} StepStartsBest(w: World, a: Action, r: string)
    requires Inv(w) && r !in w.store.attempts && r in Do(w, a).store.attempts
    ensures var s := Do(w, a).store;
            var x := s.attempts[r];
            && a.CommitStarted? && a.rttId == r && x.planId in w.store.plans && x.planId in s.plans
            && StartsBest(w.store.plans[x.planId], s.plans[x.planId], x, a.at)
  {
    hide PlansOk, IndexOk, AttemptsOk, StartDecision, Outcome, Ranking, StartsBest, Strip;
    InvKeyed(w);
    assert a.CommitStarted?;
    var l := LocalOf(w, a.worker);
    assert l.SawPlan? && LocalOk(w.store, l);
    StartShape(l.plan, a.rttId, a.at);
    assert l.plan == w.store.plans[l.plan.planId];
    DecisionStartsBest(w, l.plan.planId, a.rttId, a.at);
  }

  /** In every run: an attempt that starts takes, of the untried routes of its plan whose
      estimate is within what is left of the budget, the one with the highest score, and
      of equal scores the one with the smallest identifier. */
  lemma {:induction false} EveryStartTakesTheBest(before: seq<Action>, a: Action, r: string)
    requires r !in Exec(INITIAL, before).store.attempts && r in Do(Exec(INITIAL, before), a).store.attempts
    ensures var s, s' := Exec(INITIAL, before).store, Do(Exec(INITIAL, before), a).store;
            var x := s'.attempts[r];
            && a.CommitStarted? && x.planId in s.plans && x.planId in s'.plans
            && StartsBest(s.plans[x.planId], s'.plans[x.planId], x, a.at)
  {
    hide Exec, Inv, Do, StartsBest;
    InitialInv();
    RunKeepsInv(INITIAL, before);
    StepStartsBest(Exec(INITIAL, before), a, r);
  }

  /** start_next in every reachable state: it starts the best route, and only for a UTT that
      is found, verifies and has endpoints of the supported model that were checked or need
      not be, and if the birth of the RTT is signed. */
  lemma {:induction false} StartForTakesTheBest(before: seq<Action>, utts: Contracts, uttId: string,
                                                check: EndpointCheck, rttId: Identifier, signs: bool, at: int)
    requires ContractsOk(utts) && StartFor(Exec(INITIAL, before).store, utts, uttId, check, rttId, signs, at).Ok?
    ensures var s := Exec(INITIAL, before).store;
            var (s', a) := StartFor(s, utts, uttId, check, rttId, signs, at).value;
            && a.planId in s.plans && s.plans[a.planId].uttId == uttId && a.planId in s'.plans
            && a.rttId == rttId && rttId !in s.attempts && s'.attempts == s.attempts[rttId := a]
            && s'.plans == s.plans[a.planId := s'.plans[a.planId]] && s'.planByUtt == s.planByUtt
            && StartsBest(s.plans[a.planId], s'.plans[a.planId], a, at)
            && uttId in utts && utts[uttId].valid && utts[uttId].endpointModel == 1 && signs
            && (check == Unchecked(true) || check == Checked(true))
  {
    hide Exec, Inv, StartDecision, StartsBest, Strip;
    var w := Exec(INITIAL, before);
    InitialInv();
    RunKeepsInv(INITIAL, before);
    InvKeyed(w);
    assert Linked(w.store, uttId);
    var id := w.store.planByUtt[uttId];
    LinkedPlan(w, uttId);
    DecisionStartsBest(w, id, rttId, at);
    StartShape(w.store.plans[id], rttId, at);
  }

  lemma LinkedPlan(w: World, uttId: string)
    requires Inv(w) && Linked(w.store, uttId)
    ensures w.store.plans[w.store.planByUtt[uttId]].uttId == uttId
  {
    hide PlansOk, AttemptsOk, WorkersOk;
  }

  // ---------------------------------------------------------- what a report does

  /** Some untried route can be paid for with this much spent. */
  ghost predicate RouteLeft(p: Plan, spent: int) { exists i :: Available(p.(spent := spent), i) }

  /** Whether a report says that the RTT succeeded. */
  predicate SaysSuccess(op: Operation) { op.Succeed? || (op.Resolve? && op.succeeded) }

  /** The plan and the attempt before and after a report. */
  ghost predicate Recorded(op: Operation, given: string, at: int, p: Plan, a: Attempt, p': Plan, a': Attempt) {
    && p' == p.(spent := p.spent + op.cost, previousRtt := Some(given), previousRoute := Some(a.routeId),
                version := p.version + 1, updatedAt := at, status := p'.status, current := p'.current,
                failures := p'.failures, successfulRoute := p'.successfulRoute)
    && a' == a.(state := a'.state, failureCode := a'.failureCode, actualCost := Some(op.cost), updatedAt := at)
    && if SaysSuccess(op) then
         && p'.status == Finalized && p'.current == None && p'.successfulRoute == Some(a.routeId)
         && p'.failures == p.failures && a'.state == Succeeded && a'.failureCode == a.failureCode
       else
         && p'.failures == p.failures + [RouteFailure(given, a.routeId, op.code, op.disposition, at)]
         && p'.successfulRoute == p.successfulRoute && a'.failureCode == Some(op.code)
         && match op.disposition
            case Terminal => p'.status == PlanFailed && p'.current == None && a'.state == AttemptFailed
            case ReconciliationRequired =>
              p'.status == AwaitingEvidence && p'.current == Some(given) && a'.state == Unresolved
            case Retryable =>
              && p'.current == None && a'.state == AttemptFailed
              && (p'.status == Active <==> p.attemptsUsed < p.maxAttempts && RouteLeft(p, p.spent + op.cost))
              && (p'.status == Exhausted <==> !(p.attemptsUsed < p.maxAttempts && RouteLeft(p, p.spent + op.cost)))
  }

  lemma RouteLeftIff(p: Plan, spent: int)
    ensures AffordableRemains(p, Max(0, p.budget - spent)) <==> RouteLeft(p, spent)
  {
    var q := p.(spent := spent);
    if AffordableRemains(p, Max(0, p.budget - spent)) {
      var i :| 0 <= i < |p.ranked| && p.ranked[i].candidate.routeId in p.remaining
               && p.ranked[i].candidate.estimatedCost <= Max(0, p.budget - spent);
      assert Available(q, i);
    }
    if RouteLeft(p, spent) {
      var i :| Available(q, i);
      assert p.ranked[i].candidate.routeId in p.remaining;
    }
  }

  lemma OutcomeRecords(op: Operation, p: Plan, a: Attempt, given: string, at: int)
    requires Outcome(op, p, a, given, at).Ok?
    ensures var (p', a') := Outcome(op, p, a, given, at).value; Recorded(op, given, at, p, a, p', a')
    ensures op.Resolve? ==> p.status == AwaitingEvidence && p.current == Some(given)
                            && (!op.succeeded ==> op.disposition != ReconciliationRequired)
  {
    hide AffordableRemains, RouteLeft;
    RouteLeftIff(p, p.spent + op.cost);
  }

  /** In every run: a report that is committed is one of an attempt in flight under its own
      identifier, and leaves plan and attempt as its operation says, all else as it was. */
  lemma {:induction false} EveryReportDecides(before: seq<Action>, k: int, at: int)
    requires var w := Exec(INITIAL, before); Do(w, CommitOutcome(k, at)).store != w.store
    ensures var w := Exec(INITIAL, before);
            var s' := Do(w, CommitOutcome(k, at)).store;
            && LocalOf(w, k).SawBoth?
            && var l := LocalOf(w, k);
               var r, id := Strip(l.given), l.plan.planId;
            && r in w.store.attempts && id in w.store.plans && r in s'.attempts && id in s'.plans
            && w.store.plans[id].current == Some(r) && w.store.plans[id] == l.plan
            && l.attempt.rttId == r && l.attempt.state == (if l.op.Resolve? then Unresolved else Created)
            && s' == w.store.(attempts := w.store.attempts[r := s'.attempts[r]],
                              plans := w.store.plans[id := s'.plans[id]])
            && Recorded(l.op, l.given, at, w.store.plans[id], l.attempt, s'.plans[id], s'.attempts[r])
            && (l.op.Resolve? ==> w.store.plans[id].status == AwaitingEvidence && l.given == r
                                  && (!l.op.succeeded ==> l.op.disposition != ReconciliationRequired))
  {
    hide Exec, Outcome, Recorded, PlansOk, IndexOk, AttemptsOk, Strip;
    var w := Exec(INITIAL, before);
    InitialInv();
    RunKeepsInv(INITIAL, before);
    InvKeyed(w);
    var l := LocalOf(w, k);
    assert LocalOk(w.store, l);
    OutcomeRecords(l.op, l.plan, l.attempt, l.given, at);
    OutcomeShape(l.op, l.plan, l.attempt, l.given, at);
  }

  // ------------------------------------------------- whole runs: terms, failures

  /** What a plan was built for and what was offered: its terms, and only routes that suit them. */
  ghost predicate SuitsTerms(t: Terms, p: Plan) {
    && p.uttId == t.uttId && p.budget == t.budget && p.maxAttempts == t.maxAttempts && AcceptedTerms(t)
    && forall i :: 0 <= i < |p.ranked| ==>
         var c := p.ranked[i].candidate;
         && p.ranked[i].rank == i + 1 && c.link != Down && c.observedAt <= p.createdAt < c.expiresAt
         && Upper(c.currencyFrom) == Upper(t.currencyFrom) && Upper(c.currencyTo) == Upper(t.currencyTo)
         && c.minAmount <= t.amount <= c.maxAmount && t.amount <= c.liquidity
         && c.estimatedCost <= t.budget && c.source == t.source && c.destination == t.destination
  }

  /** The failed reports of a plan, in the order they were committed. */
  ghost function Failures(s: Store, log: seq<Report>, id: string): seq<RouteFailure> {
    if log == [] then []
    else
      var r := log[|log| - 1];
      Failures(s, log[..|log| - 1], id)
      + (if r.planId == id && !SaysSuccess(r.op) && r.rttId in s.attempts
         then [RouteFailure(r.given, s.attempts[r.rttId].routeId, r.op.code, r.op.disposition, r.at)] else [])
  }

  ghost predicate StoryOk(w: World, id: string) {
    id in w.store.plans ==>
      && id in w.terms && SuitsTerms(w.terms[id], w.store.plans[id])
      && w.store.plans[id].failures == Failures(w.store, w.log, id)
  }

  ghost predicate LogOk(w: World) {
    forall i :: 0 <= i < |w.log| ==> w.log[i].rttId in w.store.attempts && w.log[i].planId in w.store.plans
  }

  ghost predicate Stories(w: World) { LogOk(w) && forall id :: StoryOk(w, id) }

  /** Plans keep what they were built from, and attempts keep their route. */
  ghost predicate SameOrigins(s: Store, s': Store) {
    && (forall r :: r in s.attempts ==> r in s'.attempts && s'.attempts[r].routeId == s.attempts[r].routeId)
    && (forall id :: id in s.plans ==> id in s'.plans && SameOrigin(s.plans[id], s'.plans[id]))
  }

  ghost predicate SameOrigin(p: Plan, p': Plan) {
    && p'.uttId == p.uttId && p'.budget == p.budget && p'.maxAttempts == p.maxAttempts && p'.ranked == p.ranked
    && p'.createdAt == p.createdAt
  }

  lemma {:induction false} FailuresStay(s: Store, s': Store, log: seq<Report>, id: string)
    requires SameOrigins(s, s') && forall i :: 0 <= i < |log| ==> log[i].rttId in s.attempts
    ensures Failures(s', log, id) == Failures(s, log, id)
  {
    hide SameOrigin;
    if log != [] { FailuresStay(s, s', log[..|log| - 1], id); }
  }

  lemma {:induction false} NoFailures(s: Store, log: seq<Report>, id: string)
    requires forall i :: 0 <= i < |log| ==> log[i].planId != id
    ensures Failures(s, log, id) == []
  {
    if log != [] { NoFailures(s, log[..|log| - 1], id); }
  }

  lemma SameOriginSuits(t: Terms, p: Plan, p': Plan)
    requires SuitsTerms(t, p) && SameOrigin(p, p')
    ensures SuitsTerms(t, p')
  {
  }

  /** A step that neither builds nor reports: origins stay, and no plan gains or loses a failure. */
  lemma {:induction false} OtherKeepsStories(w: World, w': World)
    requires Stories(w) && SameOrigins(w.store, w'.store) && w'.store.plans.Keys == w.store.plans.Keys
    requires w'.log == w.log && w'.terms == w.terms
    requires forall id :: id in w.store.plans ==> w'.store.plans[id].failures == w.store.plans[id].failures
    ensures Stories(w')
  {
    hide SuitsTerms, Failures, SameOrigin;
    forall id ensures StoryOk(w', id) {
      assert StoryOk(w, id);
      if id in w.store.plans {
        FailuresStay(w.store, w'.store, w.log, id);
        SameOriginSuits(w.terms[id], w.store.plans[id], w'.store.plans[id]);
      }
    }
  }

  lemma {:induction false} BuildKeepsStories(w: World, a: Action)
    requires Inv(w) && Stories(w) && a.Build?
    ensures Stories(Do(w, a))
  {
    hide PlansOk, IndexOk, AttemptsOk, WorkersOk, DoBuild, Ranking, Failures, SuitsTerms, SameOrigin;
    var w' := Do(w, a);
    if w' != w {
      BuildShape(w, a);
      BuiltSuits(a);
      SelfOrigins(w.store);
      forall id ensures StoryOk(w', id) {
        assert StoryOk(w, id);
        if id == a.planId {
          NoFailures(w'.store, w.log, id);
        } else if id in w.store.plans {
          AddedOrigins(w, w', a.planId);
          FailuresStay(w.store, w'.store, w.log, id);
        }
      }
    }
  }

  lemma SelfOrigins(s: Store)
    ensures SameOrigins(s, s)
  {
  }

  lemma AddedOrigins(w: World, w': World, id: string)
    requires w'.store.attempts == w.store.attempts && id !in w.store.plans && id in w'.store.plans
    requires w'.store.plans == w.store.plans[id := w'.store.plans[id]]
    ensures SameOrigins(w.store, w'.store)
  {
  }

  lemma BuiltSuits(a: Action)
    requires a.Build? && AcceptedTerms(a.terms) && Ranking(a.candidates, RequestFor(a.terms, a.at), a.weights).Ok?
    ensures var ranked := Ranking(a.candidates, RequestFor(a.terms, a.at), a.weights).value;
            SuitsTerms(a.terms, NewPlan(a.planId, a.terms, ranked, a.at))
  {
    hide Ranking, Normalized, Score, ComponentsOf, Upper;
    var ranked := Ranking(a.candidates, RequestFor(a.terms, a.at), a.weights).value;
    RankingIsExact(a.candidates, RequestFor(a.terms, a.at), a.weights);
    forall i | 0 <= i < |ranked| ensures IsRanked(ranked, ranked[i].candidate) {}
  }

  lemma {:induction false} StartKeepsStories(w: World, a: Action)
    requires Inv(w) && Stories(w) && a.CommitStarted?
    ensures Stories(Do(w, a))
  {
    hide PlansOk, IndexOk, AttemptsOk, StartDecision, Stories;
    var w', l := Do(w, a), LocalOf(w, a.worker);
    SelfOrigins(w.store);
    if l.SawPlan? && w'.store != w.store {
      assert LocalOk(w.store, l);
      StartShape(l.plan, a.rttId, a.at);
      StartKeepsFailures(l.plan, a.rttId, a.at);
    }
    OtherKeepsStories(w, w');
  }

  lemma StartKeepsFailures(p: Plan, rttId: string, at: int)
    requires StartDecision(p, rttId, at).Ok?
    ensures var p' := StartDecision(p, rttId, at).value.0; p'.failures == p.failures && SameOrigin(p, p')
  {
  }

  lemma {:induction false} ReportKeepsStories(w: World, a: Action)
    requires Inv(w) && Stories(w) && a.CommitOutcome?
    ensures Stories(Do(w, a))
  {
    hide PlansOk, IndexOk, AttemptsOk, Outcome, Failures, SuitsTerms, Strip;
    var w', l := Do(w, a), LocalOf(w, a.worker);
    SelfOrigins(w.store);
    if l.SawBoth? && w'.log != w.log {
      assert LocalOk(w.store, l);
      InvKeyed(w);
      OutcomeRecords(l.op, l.plan, l.attempt, l.given, a.at);
      OutcomeShape(l.op, l.plan, l.attempt, l.given, a.at);
      ReportedStories(w, w', l.op, l.given, a.at, l.plan, l.attempt);
    } else {
      OtherKeepsStories(w, w');
    }
  }

  lemma {:induction false} ReportedStories(w: World, w': World, op: Operation, given: string, at: int, p: Plan,
                                           a: Attempt)
    requires Stories(w) && p.planId in w.store.plans && w.store.plans[p.planId] == p
    requires a.rttId in w.store.attempts && w.store.attempts[a.rttId].routeId == a.routeId
    requires p.planId in w'.store.plans && a.rttId in w'.store.attempts
    requires w'.store.plans == w.store.plans[p.planId := w'.store.plans[p.planId]]
    requires w'.store.attempts == w.store.attempts[a.rttId := w'.store.attempts[a.rttId]]
    requires Recorded(op, given, at, p, a, w'.store.plans[p.planId], w'.store.attempts[a.rttId])
    requires w'.terms == w.terms && w'.log == w.log + [Report(p.planId, a.rttId, op.cost, op, given, at)]
    ensures Stories(w')
  {
    hide SuitsTerms, RouteLeft;
    assert SameOrigins(w.store, w'.store);
    assert w'.log[..|w.log|] == w.log;
    forall id ensures StoryOk(w', id) {
      assert StoryOk(w, id);
      if id in w.store.plans {
        FailuresStay(w.store, w'.store, w.log, id);
        SameOriginSuits(w.terms[id], w.store.plans[id], w'.store.plans[id]);
      }
    }
  }

  lemma {:induction false} StepKeepsStories(w: World, a: Action)
    requires Inv(w) && Stories(w)
    ensures Stories(Do(w, a))
  {
    hide Inv, Stories, DoBuild, DoCommitStarted, DoCommitOutcome, FindAttempt;
    match a
    case Build(_, _, _, _, _) => BuildKeepsStories(w, a);
    case CommitStarted(_, _, _) => StartKeepsStories(w, a);
    case CommitOutcome(_, _) => ReportKeepsStories(w, a);
    case _ =>
      SelfOrigins(w.store);
      OtherKeepsStories(w, Do(w, a));
  }

  lemma {:induction false} RunKeepsStories(w: World, actions: seq<Action>)
    requires Inv(w) && Stories(w)
    ensures Stories(Exec(w, actions))
    decreases |actions|
  {
    hide Inv, Stories, Do;
    if actions != [] {
      StepKeepsStories(w, actions[0]);
      StepKeepsInv(w, actions[0]);
      RunKeepsStories(Do(w, actions[0]), actions[1..]);
    }
  }

  /** In every reachable state: a plan has the budget, the attempt cap and the transaction of
      the terms it was built for and ranks only routes that suit them, and its failures are
      exactly the failed reports that were committed on it, in order, none lost and none
      twice. */
  lemma {:induction false} EveryPlanTellsItsStory(actions: seq<Action>, id: string)
    requires id in Exec(INITIAL, actions).store.plans
    ensures var w := Exec(INITIAL, actions);
            && id in w.terms && SuitsTerms(w.terms[id], w.store.plans[id])
            && w.store.plans[id].failures == Failures(w.store, w.log, id)
  {
    hide Exec, Inv, SuitsTerms;
    InitialInv();
    assert Stories(INITIAL);
    RunKeepsStories(INITIAL, actions);
    assert StoryOk(Exec(INITIAL, actions), id);
  }

  // ----------------------------------------------------------- building a plan

  /** A plan as it is built: active, nothing tried or spent, every ranked route in order. */
  ghost predicate JustBuilt(p: Plan, planId: string, t: Terms, ranked: seq<RankedRoute>, at: int) {
    && p.planId == planId && p.uttId == t.uttId && p.ranked == ranked && p.budget == t.budget
    && p.maxAttempts == t.maxAttempts && p.status == Active && p.attemptsUsed == 0 && p.spent == 0 && p.failures == []
    && p.current == None && p.previousRtt == None && p.previousRoute == None && p.successfulRoute == None
    && p.version == 1 && p.createdAt == at && p.updatedAt == at
    && |p.remaining| == |ranked| && forall i :: 0 <= i < |ranked| ==> p.remaining[i] == ranked[i].candidate.routeId
  }

  /** build_plan in every reachable state and every branch: the UTT must be named, found and
      verified; the candidates must rank, and to something; a padded identifier is not
      found. A UTT that has a plan is answered with it under the plan's own identifier and
      refused under another; an identifier that another plan has is refused. Otherwise the
      plan is stored for its UTT, and nothing else changes. */
  lemma {:induction false} BuildExactly(before: seq<Action>, utts: Contracts, uttId: string, planId: string,
                                        cs: seq<Candidate>, weights: Weights, at: int)
    requires ContractsOk(utts)
    requires var s := Exec(INITIAL, before).store; uttId in s.planByUtt ==> Linked(s, uttId)
    ensures var s := Exec(INITIAL, before).store;
            var r := PlanFor(s, utts, uttId, planId, cs, weights, at);
            if Strip(uttId) == "" then r == Err(IdRequired)
            else if Strip(uttId) !in utts then r == Err(UttNotFound)
            else if !utts[Strip(uttId)].valid then r == Err(UttRejected)
            else
              var t := utts[Strip(uttId)].terms;
              var q := Request(t.amount, t.currencyFrom, t.currencyTo, t.budget, t.source, t.destination, at);
              && Payable(q)
              && var ranking := Ranking(cs, q, weights);
              if ranking.Err? then r == Err(RankingRejected)
              else if ranking.value == [] then r == Err(NoEligibleRoute)
              else if uttId != Strip(uttId) then r == Err(UttNotFound)
              else if uttId in s.planByUtt then
                r == if s.planByUtt[uttId] == planId then Ok((s, s.plans[planId])) else Err(PlanConflict)
              else if planId in s.plans then r == Err(IdentifierCollision)
              else
                && r.Ok? && JustBuilt(r.value.1, planId, t, ranking.value, at)
                && r.value.0 == s.(plans := s.plans[planId := r.value.1], planByUtt := s.planByUtt[uttId := planId])
  {
    hide Exec, Ranking, Strip;
    StripTwice(uttId);
  }
}
