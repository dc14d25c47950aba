/** The execution store and services as they run: dictionaries changed in place
    under version checks. Each method is proved against its function on values. */
module ExecutionService {
  import opened Prelude
  import opened RouteScoring
  import E = Execution

  class InMemoryExecutionStore {
    var plans: map<string, E.Plan>
    var planByUtt: map<string, string>
    var attempts: map<string, E.Attempt>

    ghost function View(): E.Store
      reads this
    {
      E.Store(plans, planByUtt, attempts)
    }

    /** Every UTT entry leads to a stored plan. */
    ghost predicate Valid()
      reads this
    {
      forall u :: u in planByUtt ==> planByUtt[u] in plans
    }

    constructor ()
      ensures Valid() && View() == E.EMPTY_STORE
    {
      plans, planByUtt, attempts := map[], map[], map[];
    }

    method CreatePlan(p: E.Plan) returns (r: Result<E.Plan, E.ExecError>)
      requires Valid()
      modifies this
      ensures Valid()
      ensures match E.CreatePlan(old(View()), p)
              case Ok((s, stored)) => r == Ok(stored) && View() == s
              case Err(e) => r == Err(e) && View() == old(View())
    {
      if p.uttId in planByUtt {
        var existing := planByUtt[p.uttId];
        if existing != p.planId {
          return Err(E.PlanConflict);
        }
        return Ok(plans[existing]);
      }
      if p.planId in plans {
        return Err(E.IdentifierCollision);
      }
      plans := plans[p.planId := p];
      planByUtt := planByUtt[p.uttId := p.planId];
      r := Ok(p);
    }

    method CommitStart(previous: nat, p: E.Plan, a: E.Attempt) returns (r: Result<(), E.ExecError>)
      requires Valid()
      modifies this
      ensures Valid()
      ensures match E.CommitStart(old(View()), previous, p, a)
              case Ok(s) => r == Ok(()) && View() == s
              case Err(e) => r == Err(e) && View() == old(View())
    {
      if p.planId !in plans || plans[p.planId].version != previous {
        return Err(E.ConcurrentUpdate);
      }
      if plans[p.planId].current.Some? {
        return Err(E.AlreadyInFlight);
      }
      if a.rttId in attempts {
        return Err(E.IdentifierCollision);
      }
      if a.uttId != p.uttId || a.planId != p.planId {
        return Err(E.LineageMismatch);
      }
      attempts := attempts[a.rttId := a];
      plans := plans[p.planId := p];
      r := Ok(());
    }

    method CommitTransition(previous: nat, p: E.Plan, a: E.Attempt) returns (r: Result<(), E.ExecError>)
      requires Valid()
      modifies this
      ensures Valid()
      ensures match E.CommitTransition(old(View()), previous, p, a)
              case Ok(s) => r == Ok(()) && View() == s
              case Err(e) => r == Err(e) && View() == old(View())
    {
      if p.planId !in plans || plans[p.planId].version != previous {
        return Err(E.ConcurrentUpdate);
      }
      if a.rttId !in attempts {
        return Err(E.RttNotFound);
      }
      if plans[p.planId].current != Some(a.rttId) {
        return Err(E.NotCurrentAttempt);
      }
      attempts := attempts[a.rttId := a];
      plans := plans[p.planId := p];
      r := Ok(());
    }
  }

  class ExecutionPlanningService {
    const executions: InMemoryExecutionStore

    constructor (executions: InMemoryExecutionStore)
      ensures this.executions == executions
    {
      this.executions := executions;
    }

    /** Look the UTT up, rank the candidates, build the plan and store it. */
    method BuildPlan(utts: E.Contracts, uttId: string, planId: string, cs: seq<Candidate>, w: Weights, at: int)
      returns (r: Result<E.Plan, E.ExecError>)
      requires executions.Valid() && E.ContractsOk(utts)
      modifies executions
      ensures executions.Valid()
      ensures match E.PlanFor(old(executions.View()), utts, uttId, planId, cs, w, at)
              case Ok((s, p)) => r == Ok(p) && executions.View() == s
              case Err(e) => r == Err(e) && executions.View() == old(executions.View())
    {
      hide Strip;
      var problem := E.UttProblem(utts, uttId);
      if problem.Some? {
        return Err(problem.value);
      }
      var t := utts[Strip(uttId)].terms;
      var ranking := Rank(cs, Request(t.amount, t.currencyFrom, t.currencyTo, t.budget, t.source, t.destination, at),
                          w);
      match ranking
      case Err(_) => r := Err(E.RankingRejected);
      case Ok(ranked) =>
        if ranked == [] {
          return Err(E.NoEligibleRoute);
        }
        if uttId !in utts {
          return Err(E.UttNotFound);
        }
        r := executions.CreatePlan(E.NewPlan(planId, t.(uttId := uttId), ranked, at));
    }
  }

  class RttAttemptService {
    const executions: InMemoryExecutionStore

    constructor (executions: InMemoryExecutionStore)
      ensures this.executions == executions
    {
      this.executions := executions;
    }

    method StartNext(utts: E.Contracts, uttId: string, check: E.EndpointCheck, rttId: E.Identifier, signs: bool,
                     at: int)
      returns (r: Result<E.Attempt, E.ExecError>)
      requires executions.Valid()
      modifies executions
      ensures executions.Valid()
      ensures match E.StartFor(old(executions.View()), utts, uttId, check, rttId, signs, at)
              case Ok((s, a)) => r == Ok(a) && executions.View() == s
              case Err(e) => r == Err(e) && executions.View() == old(executions.View())
    {
      hide Strip;
      var problem := E.StartProblem(utts, uttId, check);
      if problem.Some? {
        return Err(problem.value);
      }
      if uttId !in executions.planByUtt {
        return Err(E.PlanNotFound);
      }
      var plan := executions.plans[executions.planByUtt[uttId]];
      var decision := E.StartDecision(plan, rttId, at);
      if decision.Err? {
        return Err(decision.error);
      }
      if !signs {
        return Err(E.SigningRefused);
      }
      if plan.uttId !in utts {
        return Err(E.UttNotFound);
      }
      var (updated, attempt) := decision.value;
      var committed := executions.CommitStart(plan.version, updated, attempt);
      r := if committed.Ok? then Ok(attempt) else Err(committed.error);
    }

    /** record_failure, record_success and resolve_reconciliation share this body:
        read the attempt, read the plan, decide, commit. */
    method Record(given: string, op: E.Operation, at: int) returns (r: Result<E.Plan, E.ExecError>)
      requires executions.Valid()
      modifies executions
      ensures executions.Valid()
      ensures match E.Record(old(executions.View()), given, op, at)
              case Ok((s, p)) => r == Ok(p) && executions.View() == s
              case Err(e) => r == Err(e) && executions.View() == old(executions.View())
    {
      hide Strip;
      var rttId := Strip(given);
      if rttId == "" {
        return Err(E.IdRequired);
      }
      if rttId !in executions.attempts {
        return Err(E.RttNotFound);
      }
      var attempt := executions.attempts[rttId];
      if attempt.state != E.Expects(op) {
        return Err(if op.Resolve? then E.NotAwaitingReconciliation else E.OutcomeAlreadyRecorded);
      }
      if attempt.planId !in executions.plans {
        return Err(E.PlanNotFound);
      }
      var plan := executions.plans[attempt.planId];
      var decision := E.Outcome(op, plan, attempt, given, at);
      if decision.Err? {
        return Err(decision.error);
      }
      var (updatedPlan, updatedAttempt) := decision.value;
      var committed := executions.CommitTransition(plan.version, updatedPlan, updatedAttempt);
      r := if committed.Ok? then Ok(updatedPlan) else Err(committed.error);
    }

    /** A reported cost and a failure code are checked before anything is read. */
    method RecordFailure(given: string, code: string, disposition: E.Disposition, cost: int, at: int)
      returns (r: Result<E.Plan, E.ExecError>)
      requires executions.Valid()
      modifies executions
      ensures executions.Valid()
      ensures cost < 0 ==> r == Err(E.NegativeCost) && executions.View() == old(executions.View())
      ensures cost >= 0 && Strip(code) == "" ==> r == Err(E.CodeRequired) && executions.View() == old(executions.View())
      ensures cost >= 0 && Strip(code) != "" ==>
                match E.Record(old(executions.View()), given, E.Fail(Upper(Strip(code)), disposition, cost), at)
                case Ok((s, p)) => r == Ok(p) && executions.View() == s
                case Err(e) => r == Err(e) && executions.View() == old(executions.View())
    {
      if cost < 0 {
        return Err(E.NegativeCost);
      }
      if Strip(code) == "" {
        return Err(E.CodeRequired);
      }
      r := Record(given, E.Fail(Upper(Strip(code)), disposition, cost), at);
    }

    method RecordSuccess(given: string, cost: int, at: int) returns (r: Result<E.Plan, E.ExecError>)
      requires executions.Valid()
      modifies executions
      ensures executions.Valid()
      ensures cost < 0 ==> r == Err(E.NegativeCost) && executions.View() == old(executions.View())
      ensures cost >= 0 ==>
                match E.Record(old(executions.View()), given, E.Succeed(cost), at)
                case Ok((s, p)) => r == Ok(p) && executions.View() == s
                case Err(e) => r == Err(e) && executions.View() == old(executions.View())
    {
      if cost < 0 {
        return Err(E.NegativeCost);
      }
      r := Record(given, E.Succeed(cost), at);
    }

    /** A missing failure code has a default; a blank one is refused. */
    method ResolveReconciliation(given: string, succeeded: bool, cost: int, code: Option<string>,
                                 disposition: E.Disposition, at: int)
      returns (r: Result<E.Plan, E.ExecError>)
      requires executions.Valid()
      modifies executions
      ensures executions.Valid()
      ensures cost < 0 ==> r == Err(E.NegativeCost) && executions.View() == old(executions.View())
      ensures cost >= 0 && !succeeded && Strip(CodeOrDefault(code)) == "" ==>
                && executions.View() == old(executions.View())
                && r == Err(match AwaitingProblem(executions.View(), given)
                            case Some(e) => e
                            case None => E.CodeRequired)
      ensures cost >= 0 && (succeeded || Strip(CodeOrDefault(code)) != "") ==>
                match E.Record(old(executions.View()), given,
                               E.Resolve(succeeded, Upper(Strip(CodeOrDefault(code))), disposition, cost), at)
                case Ok((s, p)) => r == Ok(p) && executions.View() == s
                case Err(e) => r == Err(e) && executions.View() == old(executions.View())
    {
      if cost < 0 {
        return Err(E.NegativeCost);
      }
      if !succeeded && Strip(CodeOrDefault(code)) == "" {
        var problem := AwaitingProblem(E.Store(executions.plans, executions.planByUtt, executions.attempts), given);
        return Err(if problem.Some? then problem.value else E.CodeRequired);
      }
      r := Record(given, E.Resolve(succeeded, Upper(Strip(CodeOrDefault(code))), disposition, cost), at);
    }
  }

  /** What resolve_reconciliation finds wrong before it looks at the failure code. */
  function AwaitingProblem(s: E.Store, given: string): Option<E.ExecError> {
    match E.FindAttempt(s, given)
    case None => Some(if Strip(given) == "" then E.IdRequired else E.RttNotFound)
    case Some(a) =>
      if a.state != E.Unresolved then Some(E.NotAwaitingReconciliation)
      else if a.planId !in s.plans then Some(E.PlanNotFound)
      else if !s.plans[a.planId].status.AwaitingEvidence? || s.plans[a.planId].current != Some(given)
      then Some(E.NotAwaitingReconciliation)
      else None
  }

  /** What is found wrong before the code is what recording the resolution answers, whatever
      the code; and if nothing is, the resolution is refused only as undecided or raced. */
  lemma AwaitingProblemIsTheAnswer(s: E.Store, given: string, ok: bool, code: string, d: E.Disposition, cost: nat,
                                   at: int)
    ensures var r := E.Record(s, given, E.Resolve(ok, code, d, cost), at);
            match AwaitingProblem(s, given)
            case Some(e) => r == Err(e)
            case None => r.Err? ==> || (r.error == E.UnresolvedResolution && !ok && d.ReconciliationRequired?)
                                    || r.error in {E.ConcurrentUpdate, E.RttNotFound, E.NotCurrentAttempt}
  {
    hide Strip, E.StatusAfterRetryable;
  }

  const DEFAULT_CODE := "PROVIDER_CONFIRMED_FAILURE"

  function CodeOrDefault(code: Option<string>): string {
    if code.None? || code.value == "" then DEFAULT_CODE else code.value
  }
}
