/** Routing spend and the length of runs. */
module ExecutionBudget {
  import opened Prelude
  import opened RouteScoring
  import opened Execution
  import opened ExecutionRuns
  import opened ExecutionTheorems

  // --------------------------------------------------------- reported costs

  /** Everything reported against a plan. */
  ghost function PlanReports(log: seq<Report>, planId: string): nat {
    if log == [] then 0
    else PlanReports(log[..|log| - 1], planId)
         + (if log[|log| - 1].planId == planId then log[|log| - 1].cost else 0)
  }

  /** Everything reported against one RTT. */
  ghost function RttReports(log: seq<Report>, rttId: string): nat {
    if log == [] then 0
    else RttReports(log[..|log| - 1], rttId)
         + (if log[|log| - 1].rttId == rttId then log[|log| - 1].cost else 0)
  }

  lemma {:induction false} ReportsAppend(log: seq<Report>, e: Report, planId: string, rttId: string)
    ensures PlanReports(log + [e], planId) == PlanReports(log, planId) + (if e.planId == planId then e.cost else 0)
    ensures RttReports(log + [e], rttId) == RttReports(log, rttId) + (if e.rttId == rttId then e.cost else 0)
  {
    assert (log + [e])[..|log|] == log;
  }

  lemma {:induction false} NoReports(log: seq<Report>, planId: string, rttId: string)
    ensures (forall i :: 0 <= i < |log| ==> log[i].planId != planId) ==> PlanReports(log, planId) == 0
    ensures (forall i :: 0 <= i < |log| ==> log[i].rttId != rttId) ==> RttReports(log, rttId) == 0
  {
    if log != [] {
      NoReports(log[..|log| - 1], planId, rttId);
    }
  }

  /** The estimate of the route an RTT was started on. */
  ghost function EstimateFor(s: Store, rttId: string): Option<int> {
    if rttId in s.attempts && s.attempts[rttId].planId in s.plans
    then EstimateOf(s.plans[s.attempts[rttId].planId].ranked, s.attempts[rttId].routeId)
    else None
  }

  /** Providers charge no more in total for an RTT than its route estimate. */
  ghost predicate Disciplined(w: World) {
    forall r :: r in w.store.attempts ==>
      EstimateFor(w.store, r).Some? ==> RttReports(w.log, r) <= EstimateFor(w.store, r).value
  }

  // ------------------------------------------------------- what a step does

  /** A step adds a plan, starts an attempt, records an outcome, or leaves the
      store and the log alone. */
  datatype Effect =
    | Quiet
    | Added(plan: Plan)
    | Started(before: Plan, after: Plan, attempt: Attempt)
    | Reported(before: Plan, after: Plan, attempt: Attempt, was: Attempt, report: Report)

  ghost predicate Matches(w: World, w': World, e: Effect) {
    match e
    case Quiet => w'.store == w.store && w'.log == w.log && w'.terms == w.terms
    case Added(p) =>
      && p.planId !in w.store.plans && p.spent == 0 && p.current == None && p.version == 1 && p.attemptsUsed == 0
      && w'.store.plans == w.store.plans[p.planId := p] && w'.store.attempts == w.store.attempts && w'.log == w.log
      && p.planId in w'.terms && w'.terms == w.terms[p.planId := w'.terms[p.planId]]
      && AcceptedTerms(w'.terms[p.planId]) && w'.terms[p.planId].budget == p.budget
      && w'.terms[p.planId].maxAttempts == p.maxAttempts && w'.terms[p.planId].uttId == p.uttId
    case Started(p, p', a) =>
      && p.planId in w.store.plans && w.store.plans[p.planId] == p && Writes(w.store, w'.store, p', a)
      && a.rttId !in w.store.attempts && a.planId == p.planId == p'.planId && p'.ranked == p.ranked
      && p'.budget == p.budget && p'.spent == p.spent && p.current == None && p'.current == Some(a.rttId)
      && p'.version == p.version + 1 && p'.attemptsUsed == p.attemptsUsed + 1 && a.state == Created
      && Strip(a.rttId) == a.rttId && Affordable(p.ranked, a.routeId, BudgetLeft(p)) && p'.maxAttempts == p.maxAttempts
      && p'.uttId == p.uttId
      && w'.log == w.log && w'.terms == w.terms
    case Reported(p, p', a, was, r) =>
      && p.planId in w.store.plans && w.store.plans[p.planId] == p && Writes(w.store, w'.store, p', a)
      && a.rttId in w.store.attempts && w.store.attempts[a.rttId] == was && was.planId == p.planId == p'.planId
      && a.planId == was.planId && a.routeId == was.routeId && p.current == Some(a.rttId) && p'.ranked == p.ranked
      && p'.budget == p.budget && p'.spent == p.spent + r.cost && p'.version == p.version + 1
      && p'.attemptsUsed == p.attemptsUsed && p'.maxAttempts == p.maxAttempts && p'.uttId == p.uttId
      && Strip(a.rttId) == a.rttId && (p'.current.Some? ==> Names(p'.current, a.rttId))
      && r.planId == p.planId && r.rttId == a.rttId && w'.log == w.log + [r] && w'.terms == w.terms
  }

  lemma StartEffect(w: World, a: Action) returns (e: Effect)
    requires Inv(w) && a.CommitStarted?
    ensures Matches(w, Do(w, a), e)
  {
    hide PlansOk, IndexOk, AttemptsOk, EstimateOf;
    var w', l := Do(w, a), LocalOf(w, a.worker);
    if l.SawPlan? && w'.store != w.store {
      assert LocalOk(w.store, l);
      StartShape(l.plan, a.rttId, a.at);
      var (p', att) := StartDecision(l.plan, a.rttId, a.at).value;
      e := Started(l.plan, p', att);
    } else {
      e := Quiet;
    }
  }

  lemma OutcomeEffect(w: World, a: Action) returns (e: Effect)
    requires Inv(w) && a.CommitOutcome?
    ensures Matches(w, Do(w, a), e)
  {
    hide PlansOk, IndexOk, AttemptsOk, AffordableRemains, Strip;
    var w', l := Do(w, a), LocalOf(w, a.worker);
    InvKeyed(w);
    if l.SawBoth? && w'.store != w.store {
      assert LocalOk(w.store, l);
      OutcomeShape(l.op, l.plan, l.attempt, l.given, a.at);
      var (p', att) := Outcome(l.op, l.plan, l.attempt, l.given, a.at).value;
      e := Reported(l.plan, p', att, w.store.attempts[att.rttId],
                    Report(l.plan.planId, l.attempt.rttId, l.op.cost, l.op, l.given, a.at));
    } else {
      e := Quiet;
      OutcomeAlwaysWrites(w, a);
    }
  }

  /** A committed outcome always changes the store, because the version grows. */
  lemma OutcomeAlwaysWrites(w: World, a: Action)
    requires a.CommitOutcome?
    ensures Do(w, a).store == w.store ==> Do(w, a).log == w.log && Do(w, a).terms == w.terms
  {
    hide FailureDecision, SuccessDecision;
    var l := LocalOf(w, a.worker);
    if l.SawBoth? && Outcome(l.op, l.plan, l.attempt, l.given, a.at).Ok? {
      OutcomeShape(l.op, l.plan, l.attempt, l.given, a.at);
    }
  }

  lemma StepEffect(w: World, a: Action) returns (e: Effect)
    requires Inv(w)
    ensures Matches(w, Do(w, a), e)
  {
    hide Inv, Ranking, DoCommitStarted, DoCommitOutcome, DoBuild;
    if a.CommitStarted? {
      e := StartEffect(w, a);
    } else if a.CommitOutcome? {
      e := OutcomeEffect(w, a);
    } else if a.Build? && Do(w, a) != w {
      BuildShape(w, a);
      e := Added(NewPlan(a.planId, a.terms, Ranking(a.candidates, RequestFor(a.terms, a.at), a.weights).value, a.at));
    } else {
      e := Quiet;
    }
  }

  // ---------------------------------------------------------- the invariant

  /** A plan has spent what was reported; with disciplined costs, what the
      in-flight attempt may still cost fits in the budget. */
  ghost predicate SpendOk(w: World, id: string) {
    id in w.store.plans ==>
      var p := w.store.plans[id];
      && p.spent == PlanReports(w.log, id)
      && id in w.terms && w.terms[id].uttId == p.uttId && AcceptedTerms(w.terms[id])
      && w.terms[id].budget == p.budget && w.terms[id].maxAttempts == p.maxAttempts
      && (Disciplined(w) ==>
            match p.current
            case None => p.spent <= p.budget
            case Some(name) =>
              var r := Strip(name);
              && r in w.store.attempts && EstimateFor(w.store, r).Some?
              && p.spent - RttReports(w.log, r) + EstimateFor(w.store, r).value <= p.budget)
  }

  /** Reports name stored attempts of stored plans. */
  ghost predicate LogOk(w: World) {
    forall i :: 0 <= i < |w.log| ==>
      w.log[i].rttId in w.store.attempts && w.store.attempts[w.log[i].rttId].planId == w.log[i].planId
      && w.log[i].planId in w.store.plans
  }

  ghost predicate BudgetInv(w: World) { LogOk(w) && forall id :: SpendOk(w, id) }

  lemma EffectKeepsLog(w: World, w': World, e: Effect)
    requires LogOk(w) && Matches(w, w', e)
    ensures LogOk(w')
  {
  }

  /** Costs that are disciplined later were disciplined before. */
  lemma DisciplineWasThere(w: World, w': World, e: Effect)
    requires Matches(w, w', e) && Disciplined(w')
    requires forall r :: r in w.store.attempts ==> w.store.attempts[r].planId in w.store.plans
    ensures Disciplined(w)
    ensures forall r :: r in w.store.attempts ==> EstimateFor(w'.store, r) == EstimateFor(w.store, r)
  {
    hide EstimateOf, Affordable;
    forall r | r in w.store.attempts
      ensures EstimateFor(w'.store, r) == EstimateFor(w.store, r) && RttReports(w.log, r) <= RttReports(w'.log, r)
    {
      if e.Reported? { ReportsAppend(w.log, e.report, "", r); }
    }
  }

  /** What the spend of one plan needs from the structural invariant. */
  ghost predicate Helps(w: World, id: string) {
    && (forall r :: r in w.store.attempts ==> w.store.attempts[r].planId in w.store.plans)
    && (id in w.store.plans && w.store.plans[id].current.Some? ==>
          && Strip(w.store.plans[id].current.value) in w.store.attempts
          && w.store.attempts[Strip(w.store.plans[id].current.value)].planId == id)
  }

  lemma StartKeepsSpend(w: World, w': World, e: Effect, id: string)
    requires LogOk(w) && e.Started? && Matches(w, w', e) && SpendOk(w, id) && Helps(w, id)
    ensures SpendOk(w', id)
  {
    hide EstimateOf;
    if Disciplined(w') { DisciplineWasThere(w, w', e); }
    NoReports(w.log, "", e.attempt.rttId);
  }

  lemma ReportKeepsSpend(w: World, w': World, e: Effect, id: string)
    requires LogOk(w) && e.Reported? && Matches(w, w', e) && SpendOk(w, id) && Helps(w, id)
    ensures SpendOk(w', id)
  {
    hide EstimateOf, EstimateFor, Disciplined;
    if Disciplined(w') { DisciplineWasThere(w, w', e); }
    var r := e.report;
    ReportsAppend(w.log, r, id, e.attempt.rttId);
    if id in w.store.plans && w.store.plans[id].current.Some? {
      ReportsAppend(w.log, r, id, Strip(w.store.plans[id].current.value));
    }
    if id == e.before.planId && Disciplined(w') {
      AtMostEstimate(w', e.attempt.rttId);
    }
  }

  lemma {:induction false} AtMostEstimate(w: World, r: string)
    requires Disciplined(w) && r in w.store.attempts
    ensures EstimateFor(w.store, r).Some? ==> RttReports(w.log, r) <= EstimateFor(w.store, r).value
  {
  }

  lemma EffectKeepsSpend(w: World, w': World, e: Effect, id: string)
    requires LogOk(w) && Matches(w, w', e) && SpendOk(w, id) && Helps(w, id)
    ensures SpendOk(w', id)
  {
    hide EstimateOf;
    match e
    case Quiet =>
    case Added(p) =>
      NoReports(w.log, p.planId, "");
      if Disciplined(w') { DisciplineWasThere(w, w', e); }
    case Started(p, p', a) => StartKeepsSpend(w, w', e, id);
    case Reported(_, _, _, _, _) => ReportKeepsSpend(w, w', e, id);
  }

  lemma InvHelps(w: World, id: string)
    requires Inv(w)
    ensures Helps(w, id)
  {
    hide PlanOk, InChain, LocalOk, IndexOk;
    if id in w.store.plans {
      InvKeyed(w);
      PlanOpensByName(w, id);
    }
  }

  lemma StepKeepsBudget(w: World, a: Action)
    requires Inv(w) && BudgetInv(w)
    ensures BudgetInv(Do(w, a))
  {
    hide Inv, Do, Matches, SpendOk;
    var e := StepEffect(w, a);
    EffectKeepsLog(w, Do(w, a), e);
    forall id ensures SpendOk(Do(w, a), id) {
      InvHelps(w, id);
      EffectKeepsSpend(w, Do(w, a), e, id);
    }
  }

  lemma {:induction false} RunKeepsBudget(w: World, actions: seq<Action>)
    requires Inv(w) && BudgetInv(w)
    ensures BudgetInv(Exec(w, actions))
    decreases |actions|
  {
    hide Inv, BudgetInv, Do;
    if actions != [] {
      StepKeepsBudget(w, actions[0]);
      StepKeepsInv(w, actions[0]);
      RunKeepsBudget(Do(w, actions[0]), actions[1..]);
    }
  }

  /** In every reachable state a plan has spent exactly the sum of the reported
      outcome costs; and if no RTT was charged more in total than its route
      estimate, the spend is within the routing budget, which is within the fee. */
  lemma {:induction false} SpendIsReportedAndBounded(actions: seq<Action>, id: string)
    requires id in Exec(INITIAL, actions).store.plans
    ensures var w := Exec(INITIAL, actions);
            && w.store.plans[id].spent == PlanReports(w.log, id)
            && id in w.terms && w.terms[id].uttId == w.store.plans[id].uttId
            && w.store.plans[id].budget == w.terms[id].budget <= w.terms[id].totalFee
            && (Disciplined(w) ==> w.store.plans[id].spent <= w.store.plans[id].budget)
  {
    hide Exec, Inv;
    var w := Exec(INITIAL, actions);
    InitialInv();
    RunKeepsInv(INITIAL, actions);
    RunKeepsBudget(INITIAL, actions) by { InitialBudget(); }
    assert SpendOk(w, id);
  }

  lemma InitialBudget()
    ensures BudgetInv(INITIAL)
  {
  }

  // ------------------------------------------------------- length of a run

  /** One uninterrupted service call. */
  datatype Call =
    | BuildCall(planId: string, terms: Terms, candidates: seq<Candidate>, weights: Weights, at: int)
    | StartCall(uttId: string, rttId: Identifier, at: int)
    | RecordCall(given: string, op: Operation, at: int)

  function Steps(c: Call): seq<Action> {
    match c
    case BuildCall(planId, t, cs, weights, at) => [Build(planId, t, cs, weights, at)]
    case StartCall(uttId, rttId, at) => [ReadPlanToStart(0, uttId), CommitStarted(0, rttId, at)]
    case RecordCall(given, op, at) => [ReadAttempt(0, given, op), ReadPlan(0), CommitOutcome(0, at)]
  }

  function Calls(w: World, calls: seq<Call>): World
    decreases |calls|
  {
    if calls == [] then w else Calls(Exec(w, Steps(calls[0])), calls[1..])
  }

  lemma {:induction false} ExecOne(w: World, a: Action)
    ensures Exec(w, [a]) == Do(w, a)
  {
    assert [a][1..] == [];
  }

  lemma {:induction false} ExecTwo(w: World, a: Action, b: Action)
    ensures Exec(w, [a, b]) == Do(Do(w, a), b)
  {
    hide Do;
    assert [a, b][1..] == [b];
    ExecOne(Do(w, a), b);
  }

  lemma {:induction false} ExecThree(w: World, a: Action, b: Action, c: Action)
    ensures Exec(w, [a, b, c]) == Do(Do(Do(w, a), b), c)
  {
    hide Do;
    assert [a, b, c][1..] == [b, c];
    ExecTwo(Do(w, a), b, c);
  }

  function StoreAfter<T>(s: Store, r: Result<(Store, T), ExecError>): Store {
    match r case Ok(v) => v.0 case Err(_) => s
  }

  /** An uninterrupted worker is the service operation: the same new store when
      it succeeds and the old store when it raises. */
  lemma {:induction false} StartCallIsStartNext(w: World, uttId: string, rttId: Identifier, at: int)
    ensures Exec(w, Steps(StartCall(uttId, rttId, at))).store
            == StoreAfter(w.store, StartNext(w.store, uttId, rttId, at))
  {
    hide StartDecision;
    ExecTwo(w, ReadPlanToStart(0, uttId), CommitStarted(0, rttId, at));
  }

  lemma {:induction false} RecordCallIsRecord(w: World, given: string, op: Operation, at: int)
    ensures Exec(w, Steps(RecordCall(given, op, at))).store == StoreAfter(w.store, Record(w.store, given, op, at))
  {
    hide Outcome, CommitTransition, Do, Exec;
    ExecThree(w, ReadAttempt(0, given, op), ReadPlan(0), CommitOutcome(0, at));
    ReadsHold(w, given, op);
    CommitsHeld(Do(Do(w, ReadAttempt(0, given, op)), ReadPlan(0)), at);
  }

  /** After the two reads a worker holds the attempt and its plan, or nothing. */
  lemma ReadsHold(w: World, given: string, op: Operation)
    ensures var w' := Do(Do(w, ReadAttempt(0, given, op)), ReadPlan(0));
            var s := w.store;
            && w'.store == s
            && LocalOf(w', 0)
               == match FindAttempt(s, given)
                  case Some(a) =>
                    if a.state == Expects(op) && a.planId in s.plans then SawBoth(op, given, a, s.plans[a.planId])
                    else Idle
                  case None => Idle
  {
  }

  lemma CommitsHeld(w: World, at: int)
    requires LocalOf(w, 0).SawBoth? || LocalOf(w, 0).Idle?
    ensures var l := LocalOf(w, 0);
            Do(w, CommitOutcome(0, at)).store
            == if l.Idle? || Outcome(l.op, l.plan, l.attempt, l.given, at).Err? then w.store
               else
                 var (p', a') := Outcome(l.op, l.plan, l.attempt, l.given, at).value;
                 match CommitTransition(w.store, l.plan.version, p', a') case Ok(s) => s case Err(_) => w.store
  {
    hide Outcome, CommitTransition;
  }

  /** Commits still owed by the attempt in flight. */
  ghost function Owed(s: Store, p: Plan): nat {
    if p.current.Some? && Strip(p.current.value) in s.attempts
    then (if s.attempts[Strip(p.current.value)].state == Created then 2 else 1) else 0
  }

  ghost predicate Paced(s: Store) {
    forall id :: id in s.plans ==> s.plans[id].version + Owed(s, s.plans[id]) <= 1 + 3 * s.plans[id].attemptsUsed
  }

  lemma {:induction false} PaceKept(w: World, c: Call)
    requires Inv(w) && Paced(w.store)
    ensures Paced(Exec(w, Steps(c)).store)
  {
    hide Inv, Exec, StartDecision, Outcome;
    match c
    case BuildCall(planId, t, cs, weights, at) =>
      ExecOne(w, Build(planId, t, cs, weights, at));
      PaceKeptByBuild(w, Build(planId, t, cs, weights, at));
    case StartCall(uttId, rttId, at) =>
      StartCallIsStartNext(w, uttId, rttId, at);
      if StartNext(w.store, uttId, rttId, at).Ok? { PaceKeptByStart(w, uttId, rttId, at); }
    case RecordCall(given, op, at) =>
      RecordCallIsRecord(w, given, op, at);
      if Record(w.store, given, op, at).Ok? { PaceKeptByRecord(w, given, op, at); }
  }

  lemma PaceKeptByBuild(w: World, a: Action)
    requires Paced(w.store) && a.Build?
    ensures Paced(Do(w, a).store)
  {
    hide Ranking, DoBuild;
    if Do(w, a) != w { BuildShape(w, a); }
  }

  /** Writing one attempt leaves what other plans owe as it was. */
  lemma OthersOwe(w: World, s': Store, p': Plan, a': Attempt, id: string)
    requires Helps(w, id) && Keyed(w.store) && Writes(w.store, s', p', a') && id in w.store.plans && id != p'.planId
    requires a'.rttId in w.store.attempts ==> w.store.attempts[a'.rttId].planId == p'.planId
    ensures id in s'.plans && s'.plans[id] == w.store.plans[id]
    ensures Owed(s', s'.plans[id]) == Owed(w.store, w.store.plans[id])
  {
  }

  lemma PaceKeptByStart(w: World, uttId: string, rttId: Identifier, at: int)
    requires Inv(w) && Paced(w.store) && StartNext(w.store, uttId, rttId, at).Ok?
    ensures Paced(StartNext(w.store, uttId, rttId, at).value.0)
  {
    hide Inv, Pick, StartDecision;
    var s := w.store;
    var p := s.plans[s.planByUtt[uttId]];
    StartShape(p, rttId, at);
    InvKeyed(w);
    var (s', a) := StartNext(s, uttId, rttId, at).value;
    var p' := StartDecision(p, rttId, at).value.0;
    forall id | id in s'.plans
      ensures s'.plans[id].version + Owed(s', s'.plans[id]) <= 1 + 3 * s'.plans[id].attemptsUsed
    {
      InvHelps(w, id);
      if id != p.planId { OthersOwe(w, s', p', a, id); }
    }
  }

  lemma PaceKeptByRecord(w: World, given: string, op: Operation, at: int)
    requires Inv(w) && Paced(w.store) && Record(w.store, given, op, at).Ok?
    ensures Paced(Record(w.store, given, op, at).value.0)
  {
    hide Inv, Outcome, Strip;
    InvKeyed(w);
    var s := w.store;
    var s' := Record(s, given, op, at).value.0;
    var a := FindAttempt(s, given).value;
    var p := s.plans[a.planId];
    OutcomeShape(op, p, a, given, at);
    OutcomeOwes(op, p, a, given, at);
    var (p', a') := Outcome(op, p, a, given, at).value;
    forall id | id in s'.plans
      ensures s'.plans[id].version + Owed(s', s'.plans[id]) <= 1 + 3 * s'.plans[id].attemptsUsed
    {
      InvHelps(w, id);
      if id != p.planId { OthersOwe(w, s', p', a', id); }
    }
  }

  /** After an outcome the attempt is closed, or it awaits one last resolution. */
  lemma OutcomeOwes(op: Operation, p: Plan, a: Attempt, given: string, at: int)
    requires Outcome(op, p, a, given, at).Ok?
    ensures var (p', a') := Outcome(op, p, a, given, at).value;
            p'.current == None || (p'.current == Some(given) && a'.state == Unresolved && op.Fail?)
  {
  }

  lemma {:induction false} CallsKeepPace(w: World, calls: seq<Call>)
    requires Inv(w) && Paced(w.store)
    ensures Inv(Calls(w, calls)) && Paced(Calls(w, calls).store)
    decreases |calls|
  {
    hide Inv, Exec, Paced;
    if calls != [] {
      RunKeepsInv(w, Steps(calls[0]));
      PaceKept(w, calls[0]);
      CallsKeepPace(Exec(w, Steps(calls[0])), calls[1..]);
    }
  }

  /** Over whole operations each attempt accounts for at most three commits, and
      there are at most as many attempts as the cap and the ranking allow: the
      number of commits on a plan is bounded before the run starts. */
  lemma {:induction false} CommitsAreBounded(calls: seq<Call>, id: string)
    requires id in Calls(INITIAL, calls).store.plans
    ensures var p := Calls(INITIAL, calls).store.plans[id];
            && p.version <= 1 + 3 * p.attemptsUsed
            && p.attemptsUsed <= Min(p.maxAttempts, |p.ranked|)
            && p.version <= 1 + 3 * Min(p.maxAttempts, |p.ranked|) <= 31
  {
    hide Calls, Inv;
    var w := Calls(INITIAL, calls);
    InitialInv();
    CallsKeepPace(INITIAL, calls);
    InvKeyed(w);
    PlanPartitions(w, id);
    ChainLength(w, id);
  }

  /** Why the bound is about whole operations: a worker that read the attempt while it was
      undecided, and reads the plan after others have recorded a time-out, records it once
      more. Each such worker adds a commit and starts nothing. */
  lemma StaleReportAddsACommit(w: World, k: int, a: Attempt, given: string, code: string, cost: nat, at: int)
    requires LocalOf(w, k) == SawAttempt(Fail(code, ReconciliationRequired, cost), given, a)
    requires a.rttId in w.store.attempts && a.planId in w.store.plans
    requires var p := w.store.plans[a.planId]; p.planId == a.planId && p.current == Some(a.rttId)
    ensures var w' := Do(Do(w, ReadPlan(k)), CommitOutcome(k, at));
            && a.planId in w'.store.plans && w'.store.attempts.Keys == w.store.attempts.Keys
            && var p, p' := w.store.plans[a.planId], w'.store.plans[a.planId];
            && p'.planId == a.planId && p'.version == p.version + 1 && p'.attemptsUsed == p.attemptsUsed
            && p'.status == AwaitingEvidence && p'.current == Some(given)
            && (forall j :: j != k ==> LocalOf(w', j) == LocalOf(w, j))
  {
    var w1 := Do(w, ReadPlan(k));
    assert LocalOf(w1, k) == SawBoth(Fail(code, ReconciliationRequired, cost), given, a, w.store.plans[a.planId]);
  }

  lemma {:induction false} ExecJoins(w: World, xs: seq<Action>, ys: seq<Action>)
    ensures Exec(w, xs + ys) == Exec(Exec(w, xs), ys)
    decreases |xs|
  {
    hide Do;
    if xs == [] {
      assert xs + ys == ys;
    } else {
      assert (xs + ys)[1..] == xs[1..] + ys;
      ExecJoins(Do(w, xs[0]), xs[1..], ys);
    }
  }

  const STALE := Fail("TIMEOUT", ReconciliationRequired, 0)

  /** Workers 1 to n read the attempt. */
  function Readers(r: string, n: nat): seq<Action> {
    if n == 0 then [] else Readers(r, n - 1) + [ReadAttempt(n, r, STALE)]
  }

  /** Workers 1 to n read the plan and commit, one after the other. */
  function Committers(n: nat): seq<Action> {
    if n == 0 then [] else Committers(n - 1) + [ReadPlan(n), CommitOutcome(n, 0)]
  }

  lemma {:induction false} ReadersHold(w: World, r: string, n: nat)
    requires FindAttempt(w.store, r).Some? && FindAttempt(w.store, r).value.state == Created
    ensures var w' := Exec(w, Readers(r, n));
            && w'.store == w.store
            && (forall k :: 1 <= k <= n ==> LocalOf(w', k) == SawAttempt(STALE, r, FindAttempt(w.store, r).value))
  {
    hide Exec, FindAttempt;
    if n == 0 {
      ExecNone(w);
    } else {
      ReadersHold(w, r, n - 1);
      ExecJoins(w, Readers(r, n - 1), [ReadAttempt(n, r, STALE)]);
      var w1 := Exec(w, Readers(r, n - 1));
      ExecOne(w1, ReadAttempt(n, r, STALE));
      var l := SawAttempt(STALE, r, FindAttempt(w.store, r).value);
      assert Exec(w, Readers(r, n)) == Set(w1, n, l);
      forall k | 1 <= k <= n ensures LocalOf(Set(w1, n, l), k) == l {
        if k < n { assert LocalOf(w1, k) == l; }
      }
    }
  }

  lemma {:induction false} ExecNone(w: World)
    ensures Exec(w, []) == w
  {
  }

  lemma {:induction false} CommittersAdd(w: World, a: Attempt, n: nat, m: nat)
    requires n <= m && forall k :: 1 <= k <= m ==> LocalOf(w, k) == SawAttempt(STALE, a.rttId, a)
    requires a.rttId in w.store.attempts && a.planId in w.store.plans
    requires var p := w.store.plans[a.planId]; p.planId == a.planId && p.current == Some(a.rttId)
    ensures var w' := Exec(w, Committers(n));
            && (forall k :: n < k <= m ==> LocalOf(w', k) == SawAttempt(STALE, a.rttId, a))
            && a.rttId in w'.store.attempts && a.planId in w'.store.plans
            && var p, p' := w.store.plans[a.planId], w'.store.plans[a.planId];
            && p'.planId == a.planId && p'.current == Some(a.rttId)
            && p'.version == p.version + n && p'.attemptsUsed == p.attemptsUsed
  {
    hide Exec, Do;
    if n == 0 {
      ExecNone(w);
    } else {
      CommittersAdd(w, a, n - 1, m);
      var w1 := Exec(w, Committers(n - 1));
      ExecJoins(w, Committers(n - 1), [ReadPlan(n), CommitOutcome(n, 0)]);
      ExecTwo(w1, ReadPlan(n), CommitOutcome(n, 0));
      StaleReportAddsACommit(w1, n, a, a.rttId, "TIMEOUT", 0, 0);
    }
  }

  /** From every state with an undecided attempt and for every n: a continuation that
      commits n times on its plan and starts nothing. */
  lemma StaleReportsPileUp(w: World, r: string, n: nat) returns (more: seq<Action>)
    requires Inv(w) && r in w.store.attempts && w.store.attempts[r].state == Created
    ensures var id := w.store.attempts[r].planId;
            && id in w.store.plans && id in Exec(w, more).store.plans
            && Exec(w, more).store.plans[id].version == w.store.plans[id].version + n
            && Exec(w, more).store.plans[id].attemptsUsed == w.store.plans[id].attemptsUsed
  {
    hide Inv, Exec, Strip;
    var a := w.store.attempts[r];
    InvKeyed(w);
    AttemptOfItsPlan(w, r);
    StateByPlace(w, a.planId, r);
    assert FindAttempt(w.store, r) == Some(a);
    ReadersHold(w, r, n);
    var w1 := Exec(w, Readers(r, n));
    CommittersAdd(w1, a, n, n);
    ExecJoins(w, Readers(r, n), Committers(n));
    more := Readers(r, n) + Committers(n);
  }

  const ROUTE := Candidate("A", "A", "A", "A", "A", "A", "A", "A", 0, 1, 0, 0, 1, 0, 0, 0, Up, 0, 1)

  const TERMS := Terms("A", 1, "A", "A", 0, 0, 1, "A", "A")

  lemma RouteIsRanked()
    ensures var r := Ranking([ROUTE], RequestFor(TERMS, 0), DEFAULT_WEIGHTS); r.Ok? && r.value != []
  {
    hide Score, ComponentsOf, Sort;
    assert RouteIds([ROUTE]) == {"A"};
    var text := "A";
    assert !Blank(text[0]) && NotBlank(text);
    assert Normalized(ROUTE) && Eligible(ROUTE, RequestFor(TERMS, 0));
    RankingIsExact([ROUTE], RequestFor(TERMS, 0), DEFAULT_WEIGHTS);
    assert ROUTE in [ROUTE] && IsRanked(Ranking([ROUTE], RequestFor(TERMS, 0), DEFAULT_WEIGHTS).value, ROUTE);
  }

  const FIRST_RTT: Identifier := "R"

  const BUILT := Build("P", TERMS, [ROUTE], DEFAULT_WEIGHTS, 0)

  lemma PlanIsBuilt()
    ensures var s := Do(INITIAL, BUILT).store;
            && s.attempts == map[] && "P" in s.plans
            && var p := s.plans["P"]; p.status == Active && p.current == None && p.attemptsUsed == 0 && p.uttId == "A"
  {
    hide Ranking;
    RouteIsRanked();
  }

  /** A plan is built and its first attempt started. */
  lemma FirstAttempt() returns (actions: seq<Action>)
    ensures var w := Exec(INITIAL, actions);
            && FIRST_RTT in w.store.attempts && w.store.attempts[FIRST_RTT].state == Created
            && w.store.attempts[FIRST_RTT].planId == "P"
            && "P" in w.store.plans && w.store.plans["P"].attemptsUsed == 1
  {
    hide Exec, Inv, Do;
    InitialInv();
    PlanIsBuilt();
    StepKeepsInv(INITIAL, BUILT);
    ActiveStarts(Do(INITIAL, BUILT), "P", 0, FIRST_RTT, 0);
    actions := [BUILT, ReadPlanToStart(0, "A"), CommitStarted(0, FIRST_RTT, 0)];
    ExecThree(INITIAL, BUILT, ReadPlanToStart(0, "A"), CommitStarted(0, FIRST_RTT, 0));
  }

  /** No bound holds over steps: for every n there is a run in which a plan with a single
      attempt has been committed more than n times. */
  lemma {:induction false} StepsAreUnbounded(n: nat) returns (actions: seq<Action>)
    ensures var s := Exec(INITIAL, actions).store;
            "P" in s.plans && s.plans["P"].attemptsUsed == 1 && s.plans["P"].version > n
  {
    hide Exec, Inv;
    var start := FirstAttempt();
    InitialInv();
    RunKeepsInv(INITIAL, start);
    var more := StaleReportsPileUp(Exec(INITIAL, start), FIRST_RTT, n + 1);
    ExecJoins(INITIAL, start, more);
    actions := start + more;
  }
}
