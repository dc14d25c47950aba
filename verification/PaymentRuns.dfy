/** Execution and provider operations together: workers that start attempts and report
    on them, and workers that check an attempt, its plan and then dispatch it, each
    check and each commit a step of its own, all interleaving and crashing. */
module PaymentRuns {
  import opened Prelude
  import opened Operations
  import E = Execution
  import X = ExecutionRuns
  import XT = ExecutionTheorems
  import R = OperationsRuns
  import S = OperationsService
  import RouteScoring

  /** Between the checks of prepare: the attempt as it was read, then the request
      that is about to be stored. */
  datatype Checker =
    | Outside
    | SawAttempt(given: string, attempt: E.Attempt)
    | Passed(request: ProviderRequest)

  datatype World = World(exec: X.World, ops: R.World, checkers: map<int, Checker>)

  const INITIAL := World(X.INITIAL, R.INITIAL, map[])

  datatype Action =
    | Execute(step: X.Action)
    | CheckAttempt(k: int, given: string)
    | CheckPlan(k: int, checks: S.Checks, provider: string, key: string, sha: string)
    | Prepare(k: int, submissionId: string, adapter: R.Adapter, signs: Signer, at: int)
    | Operate(op: R.Action)
    | Leave(k: int)

  function CheckerOf(w: World, k: int): Checker { if k in w.checkers then w.checkers[k] else Outside }

  function Put(w: World, k: int, c: Checker): World { w.(checkers := w.checkers[k := c]) }

  function DoCheckAttempt(w: World, k: int, given: string): World {
    match E.FindAttempt(w.exec.store, given)
    case None => Put(w, k, Outside)
    case Some(a) => Put(w, k, if a.state == E.Created then SawAttempt(given, a) else Outside)
  }

  function DoCheckPlan(w: World, k: int, checks: S.Checks, provider: string, key: string, sha: string): World {
    match CheckerOf(w, k)
    case SawAttempt(given, a) =>
      Put(w, k, if S.PlanGate(w.exec.store, given, a, checks).None?
                then Passed(ProviderRequest(given, a.uttId, Upper(Strip(provider)), key, sha)) else Outside)
    case _ => w
  }

  function DoPrepare(c: R.Config, w: World, k: int, sid: string, a: R.Adapter, signs: Signer, at: int): World {
    match CheckerOf(w, k)
    case Passed(q) => Put(w, k, Outside).(ops := R.DoPrepare(c, w.ops, k, q, sid, a, signs, at))
    case _ => w
  }

  function Do(c: R.Config, w: World, a: Action): World {
    match a
    case Execute(step) => w.(exec := X.Do(w.exec, step))
    case CheckAttempt(k, given) => DoCheckAttempt(w, k, given)
    case CheckPlan(k, checks, provider, key, sha) => DoCheckPlan(w, k, checks, provider, key, sha)
    case Prepare(k, sid, adapter, signs, at) => DoPrepare(c, w, k, sid, adapter, signs, at)
    case Operate(op) => if op.Prepare? then w else w.(ops := R.Do(c, w.ops, op))
    case Leave(k) => Put(w, k, Outside)
  }

  function Exec(c: R.Config, w: World, actions: seq<Action>): World
    decreases |actions|
  {
    if actions == [] then w else Exec(c, Do(c, w, actions[0]), actions[1..])
  }

  lemma {:induction false} ExecJoins(c: R.Config, w: World, xs: seq<Action>, ys: seq<Action>)
    ensures Exec(c, w, xs + ys) == Exec(c, Exec(c, w, xs), ys)
    decreases |xs|
  {
    if xs == [] {
      assert xs + ys == ys;
    } else {
      assert (xs + ys)[1..] == xs[1..] + ys;
      ExecJoins(c, Do(c, w, xs[0]), xs[1..], ys);
    }
  }

  // ---------------------------------------------------------- the invariant

  /** The identifier names an attempt of this transaction. */
  ghost predicate NamesAttempt(x: E.Store, given: string, uttId: string) {
    Strip(given) in x.attempts && x.attempts[Strip(given)].uttId == uttId
  }

  ghost predicate CheckerOk(x: E.Store, c: Checker) {
    match c
    case Outside => true
    case SawAttempt(given, a) => Strip(given) == a.rttId && NamesAttempt(x, given, a.uttId)
    case Passed(q) => NamesAttempt(x, q.rttId, q.uttId) && Upper(q.providerId) == q.providerId
  }

  ghost predicate SubmissionOk(x: E.Store, r: string, s: Submission) {
    NamesAttempt(x, r, s.uttId) && Upper(s.providerId) == s.providerId
  }

  ghost predicate CheckersOk(w: World) {
    forall k :: k in w.checkers ==> CheckerOk(w.exec.store, w.checkers[k])
  }

  ghost predicate NamedOk(w: World) {
    forall r :: r in w.ops.store.submissions ==> SubmissionOk(w.exec.store, r, w.ops.store.submissions[r])
  }

  ghost predicate Inv(c: R.Config, w: World) { X.Inv(w.exec) && R.Inv(c, w.ops) && CheckersOk(w) && NamedOk(w) }

  // ------------------------------------------------------- execution steps

  /** What an attempt is never changes, and it never becomes undecided again. */
  ghost predicate Lasts(s: E.Store, s': E.Store) {
    forall r :: r in s.attempts ==>
      && r in s'.attempts
      && var a, a' := s.attempts[r], s'.attempts[r];
         && a'.uttId == a.uttId && a'.planId == a.planId && a'.attemptNumber == a.attemptNumber
         && (a.state != E.Created ==> a'.state != E.Created)
  }

  lemma OutcomeDecides(op: E.Operation, p: E.Plan, a: E.Attempt, given: string, at: int)
    requires E.Outcome(op, p, a, given, at).Ok?
    ensures E.Outcome(op, p, a, given, at).value.1.state != E.Created
  {
  }

  lemma CommitLasts(x: X.World, k: int, at: int)
    requires X.Inv(x)
    ensures Lasts(x.store, X.DoCommitOutcome(x, k, at).store)
  {
    hide X.PlansOk, X.IndexOk, X.AttemptsOk, E.Outcome, Strip;
    X.InvKeyed(x);
    var l := X.LocalOf(x, k);
    if l.SawBoth? && E.Outcome(l.op, l.plan, l.attempt, l.given, at).Ok? {
      assert X.LocalOk(x.store, l);
      X.OutcomeShape(l.op, l.plan, l.attempt, l.given, at);
      OutcomeDecides(l.op, l.plan, l.attempt, l.given, at);
    }
  }

  lemma StartLasts(x: X.World, k: int, rttId: E.Identifier, at: int)
    ensures Lasts(x.store, X.DoCommitStarted(x, k, rttId, at).store)
  {
    hide E.StartDecision;
  }

  lemma BuildLasts(x: X.World, a: X.Action)
    requires a.Build?
    ensures Lasts(x.store, X.Do(x, a).store)
  {
    hide RouteScoring.Ranking;
  }

  lemma StepLasts(x: X.World, a: X.Action)
    requires X.Inv(x)
    ensures Lasts(x.store, X.Do(x, a).store)
  {
    hide X.Inv, X.DoBuild, X.DoCommitStarted, X.DoCommitOutcome;
    match a
    case Build(_, _, _, _, _) => BuildLasts(x, a);
    case CommitStarted(k, rttId, at) => StartLasts(x, k, rttId, at);
    case CommitOutcome(k, at) => CommitLasts(x, k, at);
    case _ =>
  }

  lemma LastingNames(s: E.Store, s': E.Store, given: string, uttId: string)
    requires Lasts(s, s') && NamesAttempt(s, given, uttId)
    ensures NamesAttempt(s', given, uttId)
  {
  }

  lemma ExecuteKeepsInv(c: R.Config, w: World, step: X.Action)
    requires Inv(c, w)
    ensures Inv(c, w.(exec := X.Do(w.exec, step)))
  {
    hide X.Inv, R.Inv, X.Do, Lasts, NamesAttempt;
    StepLasts(w.exec, step);
    X.StepKeepsInv(w.exec, step);
    var w' := w.(exec := X.Do(w.exec, step));
    forall k | k in w'.checkers ensures CheckerOk(w'.exec.store, w'.checkers[k]) {
      match w.checkers[k]
      case Outside =>
      case SawAttempt(given, a) => LastingNames(w.exec.store, w'.exec.store, given, a.uttId);
      case Passed(q) => LastingNames(w.exec.store, w'.exec.store, q.rttId, q.uttId);
    }
    forall r | r in w'.ops.store.submissions ensures SubmissionOk(w'.exec.store, r, w'.ops.store.submissions[r]) {
      assert SubmissionOk(w.exec.store, r, w.ops.store.submissions[r]);
      LastingNames(w.exec.store, w'.exec.store, r, w.ops.store.submissions[r].uttId);
    }
  }

  // ----------------------------------------------------------- the checks

  lemma UpperTwice(s: string)
    ensures Upper(Upper(s)) == Upper(s)
  {
  }

  lemma CheckKeepsInv(c: R.Config, w: World, a: Action)
    requires Inv(c, w) && (a.CheckAttempt? || a.CheckPlan? || a.Leave?)
    ensures Inv(c, Do(c, w, a))
  {
    hide X.PlansOk, X.IndexOk, X.AttemptsOk, R.Inv, SubmissionOk, S.PlanGate, Upper, Strip;
    X.InvKeyed(w.exec);
    if a.CheckPlan? {
      UpperTwice(Strip(a.provider));
      var l := CheckerOf(w, a.k);
      assert CheckerOk(w.exec.store, l);
    }
  }

  /** A checker that nobody interrupts passes exactly what prepare's checks let through. */
  lemma {:induction false} UninterruptedCheckerIsGate(c: R.Config, w: World, k: int, given: string, checks: S.Checks,
                                                      provider: string, key: string, sha: string)
    ensures var w' := Do(c, Do(c, w, CheckAttempt(k, given)), CheckPlan(k, checks, provider, key, sha));
            && w'.exec == w.exec && w'.ops == w.ops
            && CheckerOf(w', k) == if S.Gate(w.exec.store, given, checks).Some? then Outside else
                 Passed(ProviderRequest(given, E.FindAttempt(w.exec.store, given).value.uttId,
                                        Upper(Strip(provider)), key, sha))
  {
    hide Strip, Upper, S.PlanGate;
    var w1 := Do(c, w, CheckAttempt(k, given));
    assert k in w1.checkers;
  }

  // ------------------------------------------------------- operations steps

  /** A step of the operations leaves every submission's names alone. */
  ghost predicate KeepsNames(s: Store, s': Store) {
    && s'.submissions.Keys == s.submissions.Keys
    && (forall r :: r in s.submissions ==>
          && s'.submissions[r].uttId == s.submissions[r].uttId
          && s'.submissions[r].providerId == s.submissions[r].providerId)
  }

  lemma CommitKeepsNames(c: R.Config, w: R.World, k: int, before: Submission, after: Submission, core: EventCore,
                         signs: Signer, next: R.Dispatcher)
    requires R.Snapshot(w.store, before) && after.rttId == before.rttId
    requires after.uttId == before.uttId && after.providerId == before.providerId
    ensures KeepsNames(w.store, R.Commit(c, w, k, before, after, core, signs, next).store)
  {
  }

  lemma CompletedNames(r: Submission, reply: ProviderResult, at: int)
    ensures var d := Completed(r, reply, at); d.rttId == r.rttId && d.uttId == r.uttId && d.providerId == r.providerId
  {
  }

  lemma OperateKeepsNames(c: R.Config, w: R.World, a: R.Action)
    requires R.Inv(c, w) && !a.Prepare?
    ensures KeepsNames(w.store, R.Do(c, w, a).store)
  {
    hide R.SubmissionsOk, R.EventOk, OutboxOk, R.CallsOk, R.Commit, ClaimOutbox, Completed, CompletedEvent, R.RecordOk;
    match a
    case Advance(k, signs, at) =>
      var d := R.DispatcherOf(w, k);
      if d.Holding? {
        assert R.DispatcherOk(w.store, d);
        AdvanceKeepsNames(c, w, k, signs, at);
      }
    case Finish(k, signs, at) =>
      var d := R.DispatcherOf(w, k);
      if d.Called? {
        assert R.DispatcherOk(w.store, d);
        CompletedNames(d.record, d.reply, at);
        CommitKeepsNames(c, w, k, d.record, Completed(d.record, d.reply, at), CompletedEvent(d.record, d.reply, at),
                         signs, R.Off);
      }
    case Claim(_, _, _, _, _) => R.RelayStepShape(c, w, a);
    case Settle(_) => R.RelayStepShape(c, w, a);
    case _ =>
  }

  lemma AdvanceKeepsNames(c: R.Config, w: R.World, k: int, signs: Signer, at: int)
    requires R.DispatcherOf(w, k).Holding? && R.Snapshot(w.store, R.DispatcherOf(w, k).record)
    ensures KeepsNames(w.store, R.DoAdvance(c, w, k, signs, at).store)
  {
    hide R.Commit, KeepsNames, Completed, CompletedEvent;
    var d := R.DispatcherOf(w, k);
    var r, n := d.record, BeginDispatch(d.record, at);
    CompletedNames(r, RECOVERY_BLOCKED, at);
    CommitKeepsNames(c, w, k, r, Completed(r, RECOVERY_BLOCKED, at), CompletedEvent(r, RECOVERY_BLOCKED, at), signs,
                     R.Off);
    CommitKeepsNames(c, w, k, r, n,
                     CoreOf(n, DispatchStarted, DispatchData(n.dispatchAttempts, d.adapter.idempotent), at),
                     signs, R.MustCall(n, d.request, d.adapter));
  }

  lemma OperateKeepsInv(c: R.Config, w: World, a: R.Action)
    requires Inv(c, w) && !a.Prepare?
    ensures Inv(c, w.(ops := R.Do(c, w.ops, a)))
  {
    hide X.Inv, R.Inv, R.Do, NamesAttempt;
    OperateKeepsNames(c, w.ops, a);
    R.StepKeepsInv(c, w.ops, a);
  }

  /** Prepare stores at most the request it was given. */
  lemma PrepareAdds(c: R.Config, w: R.World, k: int, q: ProviderRequest, sid: string, a: R.Adapter, signs: Signer,
                    at: int)
    ensures var s' := R.DoPrepare(c, w, k, q, sid, a, signs, at).store.submissions;
            s' == w.store.submissions || s' == w.store.submissions[q.rttId := NewSubmission(q, sid, at)]
  {
  }

  lemma PrepareKeepsInv(c: R.Config, w: World, a: Action)
    requires Inv(c, w) && a.Prepare?
    ensures Inv(c, Do(c, w, a))
  {
    hide X.Inv, R.Inv, R.DoPrepare, NamesAttempt, Upper;
    var l := CheckerOf(w, a.k);
    if l.Passed? {
      assert CheckerOk(w.exec.store, l);
      PrepareAdds(c, w.ops, a.k, l.request, a.submissionId, a.adapter, a.signs, a.at);
      R.StepKeepsInv(c, w.ops, R.Prepare(a.k, l.request, a.submissionId, a.adapter, a.signs, a.at));
    }
  }

  lemma StepKeepsInv(c: R.Config, w: World, a: Action)
    requires Inv(c, w)
    ensures Inv(c, Do(c, w, a))
  {
    hide Inv, X.Do, R.Do, DoCheckAttempt, DoCheckPlan, DoPrepare;
    match a
    case Execute(step) => ExecuteKeepsInv(c, w, step);
    case Prepare(_, _, _, _, _) => PrepareKeepsInv(c, w, a);
    case Operate(op) => if !op.Prepare? { OperateKeepsInv(c, w, op); }
    case _ => CheckKeepsInv(c, w, a);
  }

  lemma InitialInv(c: R.Config)
    ensures Inv(c, INITIAL)
  {
    XT.InitialInv();
    R.InitialInv(c);
    hide X.Inv, R.Inv;
  }

  /** Every interleaving, with crashes anywhere: both machines stay consistent, and what
      is submitted names an attempt of the transaction it is submitted for. */
  lemma {:induction false} RunKeepsInv(c: R.Config, w: World, actions: seq<Action>)
    requires Inv(c, w)
    ensures Inv(c, Exec(c, w, actions))
    decreases |actions|
  {
    hide Inv, Do;
    if actions != [] {
      StepKeepsInv(c, w, actions[0]);
      RunKeepsInv(c, Do(c, w, actions[0]), actions[1..]);
    }
  }
}
