/** What execution and provider operations guarantee together: when a transaction can
    reach a provider twice, and when a submission can still be finished. */
module PaymentTheorems {
  import opened Prelude
  import opened Operations
  import opened PaymentRuns
  import E = Execution
  import X = ExecutionRuns
  import XT = ExecutionTheorems
  import R = OperationsRuns
  import RT = OperationsTheorems
  import S = OperationsService

  // ------------------------------------------------------ one RTT at a time

  /** The attempt that a provider call was made for. */
  ghost predicate CallFor(w: World, i: nat, r: string) {
    i < |w.ops.calls| && r in w.exec.store.attempts && Strip(w.ops.calls[i].rttId) == r
  }

  lemma CallNames(c: R.Config, w: World, i: nat)
    requires Inv(c, w) && i < |w.ops.calls|
    ensures CallFor(w, i, Strip(w.ops.calls[i].rttId))
  {
    hide X.Inv, R.SubmissionsOk, R.EventsOk, R.DispatchersOk;
    assert R.CallOk(w.ops.store, w.ops.calls[i]);
    assert SubmissionOk(w.exec.store, w.ops.calls[i].rttId, w.ops.store.submissions[w.ops.calls[i].rttId]);
  }

  /** Of two attempts of one transaction the earlier has failed. */
  lemma EarlierFailed(x: X.World, r: string, t: string)
    requires X.Inv(x) && r in x.store.attempts && t in x.store.attempts
    requires x.store.attempts[r].uttId == x.store.attempts[t].uttId
    ensures x.store.attempts[r].attemptNumber < x.store.attempts[t].attemptNumber ==>
              x.store.attempts[r].state == E.AttemptFailed
    ensures x.store.attempts[r].attemptNumber == x.store.attempts[t].attemptNumber ==> r == t
  {
    hide X.Inv;
    XT.AttemptOfItsPlan(x, r);
    XT.AttemptOfItsPlan(x, t);
    var i := XT.ChainFacts(x, x.store.attempts[r].planId, r);
    var j := XT.ChainFacts(x, x.store.attempts[r].planId, t);
  }

  /** In every run: a provider is only ever called for an attempt that exists, and if two
      attempts of one transaction reached a provider, the earlier is recorded as failed. */
  lemma {:induction false} EarlierCalledHasFailed(c: R.Config, actions: seq<Action>, i: nat, j: nat)
    requires i < |Exec(c, INITIAL, actions).ops.calls| && j < |Exec(c, INITIAL, actions).ops.calls|
    ensures var w := Exec(c, INITIAL, actions);
            var r, t := Strip(w.ops.calls[i].rttId), Strip(w.ops.calls[j].rttId);
            && CallFor(w, i, r) && CallFor(w, j, t)
            && var a, b := w.exec.store.attempts[r], w.exec.store.attempts[t];
               a.uttId == b.uttId ==>
                 r == t || (if a.attemptNumber < b.attemptNumber then a else b).state == E.AttemptFailed
  {
    hide Exec, X.Inv, R.Inv, Strip;
    var w := Exec(c, INITIAL, actions);
    InitialInv(c);
    RunKeepsInv(c, INITIAL, actions);
    CallNames(c, w, i);
    CallNames(c, w, j);
    var r, t := Strip(w.ops.calls[i].rttId), Strip(w.ops.calls[j].rttId);
    if w.exec.store.attempts[r].uttId == w.exec.store.attempts[t].uttId {
      EarlierFailed(w.exec, r, t);
      EarlierFailed(w.exec, t, r);
    }
  }

  // --------------------------------------------------- identifiers as given

  ghost predicate UnpaddedChecks(actions: seq<Action>) {
    forall i :: 0 <= i < |actions| && actions[i].CheckAttempt? ==> Strip(actions[i].given) == actions[i].given
  }

  ghost predicate TidyChecker(c: Checker) {
    match c
    case Outside => true
    case SawAttempt(given, _) => Strip(given) == given
    case Passed(q) => Strip(q.rttId) == q.rttId
  }

  ghost predicate Tidy(w: World) {
    && (forall k :: k in w.checkers ==> TidyChecker(w.checkers[k]))
    && (forall r :: r in w.ops.store.submissions ==> Strip(r) == r)
  }

  lemma StepKeepsTidy(c: R.Config, w: World, a: Action)
    requires Inv(c, w) && Tidy(w) && (a.CheckAttempt? ==> Strip(a.given) == a.given)
    ensures Tidy(Do(c, w, a))
  {
    hide X.Inv, R.Inv, X.Do, R.Do, R.DoPrepare, S.PlanGate, Strip, CheckersOk, NamedOk;
    match a
    case Operate(op) => if !op.Prepare? { OperateKeepsNames(c, w.ops, op); }
    case Prepare(k, sid, ad, signs, at) =>
      if CheckerOf(w, k).Passed? {
        assert TidyChecker(w.checkers[k]);
        PrepareAdds(c, w.ops, k, CheckerOf(w, k).request, sid, ad, signs, at);
      }
    case CheckPlan(k, _, _, _, _) => assert k in w.checkers ==> TidyChecker(w.checkers[k]);
    case _ =>
  }

  lemma {:induction false} RunKeepsTidy(c: R.Config, w: World, actions: seq<Action>)
    requires Inv(c, w) && Tidy(w) && UnpaddedChecks(actions)
    ensures Tidy(Exec(c, w, actions))
    decreases |actions|
  {
    hide Inv, Do, Tidy;
    if actions != [] {
      StepKeepsTidy(c, w, actions[0]);
      StepKeepsInv(c, w, actions[0]);
      RunKeepsTidy(c, Do(c, w, actions[0]), actions[1..]);
    }
  }

  /** Whatever set of RTTs moved money: if none of them is recorded as failed and every
      dispatch gives its identifier without blanks around it, the calls that moved money
      for one transaction are calls for one RTT with one key and one request, and an
      adapter without idempotency made only one of them. */
  lemma {:induction false} NeverPaidTwice(c: R.Config, actions: seq<Action>, moved: set<string>, i: nat, j: nat)
    requires UnpaddedChecks(actions) && i < j < |Exec(c, INITIAL, actions).ops.calls|
    requires var x := Exec(c, INITIAL, actions).exec.store;
             forall r :: r in moved && r in x.attempts ==> x.attempts[r].state != E.AttemptFailed
    ensures var w := Exec(c, INITIAL, actions);
            var a, b := w.ops.calls[i], w.ops.calls[j];
            && CallFor(w, i, a.rttId) && CallFor(w, j, b.rttId)
            && (a.rttId in moved && b.rttId in moved
                && w.exec.store.attempts[a.rttId].uttId == w.exec.store.attempts[b.rttId].uttId ==>
                  && a.rttId == b.rttId && a.key == b.key && a.sha == b.sha
                  && a.version != b.version && (a.idempotent || b.idempotent))
  {
    hide Exec, X.Inv, Strip, R.SubmissionsOk, R.EventsOk, R.DispatchersOk;
    var w := Exec(c, INITIAL, actions);
    InitialInv(c);
    RunKeepsInv(c, INITIAL, actions);
    RunKeepsTidy(c, INITIAL, actions);
    assert R.CallOk(w.ops.store, w.ops.calls[i]) && R.CallOk(w.ops.store, w.ops.calls[j]);
    EarlierCalledHasFailed(c, actions, i, j);
  }

  // --------------------------------------------------- a continuation step by step

  lemma {:induction false} ExecOne(c: R.Config, w: World, a: Action)
    ensures Exec(c, w, [a]) == Do(c, w, a)
  {
    assert Exec(c, Do(c, w, a), []) == Do(c, w, a);
  }

  lemma {:induction false} ExecNext(c: R.Config, w: World, xs: seq<Action>, a: Action)
    ensures Exec(c, w, xs + [a]) == Do(c, Exec(c, w, xs), a)
  {
    ExecJoins(c, w, xs, [a]);
    ExecOne(c, Exec(c, w, xs), a);
  }

  lemma {:induction false} ExecFive(c: R.Config, w: World, a: Action, b: Action, d: Action, e: Action, f: Action)
    ensures Exec(c, w, [a] + [b] + [d] + [e] + [f]) == Do(c, Do(c, Do(c, Do(c, Do(c, w, a), b), d), e), f)
  {
    hide Exec, Do;
    ExecOne(c, w, a);
    ExecNext(c, w, [a], b);
    ExecNext(c, w, [a] + [b], d);
    ExecNext(c, w, [a] + [b] + [d], e);
    ExecNext(c, w, [a] + [b] + [d] + [e], f);
  }

  const ALL_GOOD := S.Checks(true, true, true, true, true)

  const SIGNS: Signer := (_: EventType) => true

  /** A worker that finds the attempt undecided and its plan's marker on the identifier. */
  lemma {:induction false} GateOpens(c: R.Config, w: World, k: int, given: string, provider: string, key: string,
                                     sha: string)
    requires Inv(c, w) && Strip(given) in w.exec.store.attempts
    requires var a := w.exec.store.attempts[Strip(given)];
             a.state == E.Created && a.planId in w.exec.store.plans
             && w.exec.store.plans[a.planId].current == Some(given)
    ensures var a := w.exec.store.attempts[Strip(given)];
            var q := ProviderRequest(given, a.uttId, Upper(Strip(provider)), key, sha);
            Exec(c, w, [CheckAttempt(k, given), CheckPlan(k, ALL_GOOD, provider, key, sha)]) == Put(w, k, Passed(q))
  {
    hide Inv, Exec, Strip;
    GivenNotEmpty(c, w, given);
    var a1, a2 := CheckAttempt(k, given), CheckPlan(k, ALL_GOOD, provider, key, sha);
    ExecOne(c, w, a1);
    ExecNext(c, w, [a1], a2);
    assert [a1] + [a2] == [a1, a2];
    var a := w.exec.store.attempts[Strip(given)];
    var w1 := Do(c, w, a1);
    assert CheckerOf(w1, k) == SawAttempt(given, a);
    assert w1.checkers[k := Passed(ProviderRequest(given, a.uttId, Upper(Strip(provider)), key, sha))]
        == w.checkers[k := Passed(ProviderRequest(given, a.uttId, Upper(Strip(provider)), key, sha))];
  }

  lemma {:induction false} GivenNotEmpty(c: R.Config, w: World, given: string)
    requires Inv(c, w) && Strip(given) in w.exec.store.attempts
    ensures Strip(given) != "" && w.exec.store.attempts[Strip(given)].rttId == Strip(given)
  {
    hide X.Inv, R.Inv;
    X.InvKeyed(w.exec);
  }

  const TIMED_OUT := E.Fail("TIMEOUT", E.ReconciliationRequired, 0)

  function Report(k: int, given: string, at: int): seq<Action> {
    [Execute(X.ReadAttempt(k, given, TIMED_OUT)), Execute(X.ReadPlan(k)), Execute(X.CommitOutcome(k, at))]
  }

  /** A time-out reported on an undecided attempt moves its plan's marker to the
      identifier as the reporter gave it. */
  lemma {:induction false} TimeoutMarks(x: X.World, k: int, given: string, at: int)
    requires X.Inv(x) && Strip(given) in x.store.attempts && x.store.attempts[Strip(given)].state == E.Created
    ensures var x' := X.Do(X.Do(X.Do(x, X.ReadAttempt(k, given, TIMED_OUT)), X.ReadPlan(k)), X.CommitOutcome(k, at));
            var id := x.store.attempts[Strip(given)].planId;
            id in x'.store.plans && x'.store.plans[id].current == Some(given)
  {
    hide X.Inv, Strip;
    var r := Strip(given);
    var a := x.store.attempts[r];
    X.InvKeyed(x);
    XT.AttemptOfItsPlan(x, r);
    XT.StateByPlace(x, a.planId, r);
    var p := x.store.plans[a.planId];
    var x1 := X.Do(x, X.ReadAttempt(k, given, TIMED_OUT));
    assert X.LocalOf(x1, k) == X.SawAttempt(TIMED_OUT, given, a);
    var x2 := X.Do(x1, X.ReadPlan(k));
    assert X.LocalOf(x2, k) == X.SawBoth(TIMED_OUT, given, a, p);
    Marked(x2, k, given, a, p, at);
  }

  lemma Marked(x: X.World, k: int, given: string, a: E.Attempt, p: E.Plan, at: int)
    requires X.LocalOf(x, k) == X.SawBoth(TIMED_OUT, given, a, p) && a.rttId in x.store.attempts
    requires p.planId in x.store.plans && x.store.plans[p.planId] == p && p.current == Some(a.rttId)
    ensures var x' := X.Do(x, X.CommitOutcome(k, at));
            p.planId in x'.store.plans && x'.store.plans[p.planId].current == Some(given)
  {
  }

  /** A worker that finds the attempt undecided passes even if, before it reads the plan,
      the plan's marker is moved to the identifier as this worker gives it. */
  lemma GateOpensAfterTimeout(c: R.Config, w: World, k: int, given: string, provider: string, key: string, sha: string,
                              at: int)
    returns (xs: seq<Action>)
    requires Inv(c, w) && Strip(given) in w.exec.store.attempts
    requires w.exec.store.attempts[Strip(given)].state == E.Created
    ensures var w' := Exec(c, w, xs);
            var q := ProviderRequest(given, w.exec.store.attempts[Strip(given)].uttId, Upper(Strip(provider)), key,
                                     sha);
            w'.ops == w.ops && CheckerOf(w', k) == Passed(q)
  {
    hide Inv, Exec, Strip, X.Do, Upper, Do;
    GivenNotEmpty(c, w, given);
    var a := w.exec.store.attempts[Strip(given)];
    var rs := Report(k, given, at);
    var a1, a5 := CheckAttempt(k, given), CheckPlan(k, ALL_GOOD, provider, key, sha);
    var w1 := Put(w, k, SawAttempt(given, a));
    Noticed(c, w, k, given);
    ReportsOnly(c, w1, k, given, at);
    InvParts(c, w);
    TimeoutMarks(w.exec, k, given, at);
    var w4 := Do(c, Do(c, Do(c, w1, rs[0]), rs[1]), rs[2]);
    PassesPlan(c, w4, k, given, a, provider, key, sha);
    ExecFive(c, w, a1, rs[0], rs[1], rs[2], a5);
    xs := [a1] + [rs[0]] + [rs[1]] + [rs[2]] + [a5];
  }

  lemma {:induction false} Noticed(c: R.Config, w: World, k: int, given: string)
    requires Strip(given) != "" && Strip(given) in w.exec.store.attempts
    requires w.exec.store.attempts[Strip(given)].state == E.Created
    ensures Do(c, w, CheckAttempt(k, given)) == Put(w, k, SawAttempt(given, w.exec.store.attempts[Strip(given)]))
  {
    hide Strip;
  }

  lemma ReportsOnly(c: R.Config, w: World, k: int, given: string, at: int)
    ensures var rs := Report(k, given, at);
            Do(c, Do(c, Do(c, w, rs[0]), rs[1]), rs[2])
            == w.(exec := X.Do(X.Do(X.Do(w.exec, X.ReadAttempt(k, given, TIMED_OUT)), X.ReadPlan(k)),
                               X.CommitOutcome(k, at)))
  {
    hide X.Do;
  }

  lemma {:induction false} PassesPlan(c: R.Config, w: World, k: int, given: string, a: E.Attempt, provider: string,
                                      key: string, sha: string)
    requires CheckerOf(w, k) == SawAttempt(given, a)
    requires a.planId in w.exec.store.plans && w.exec.store.plans[a.planId].current == Some(given)
    ensures Do(c, w, CheckPlan(k, ALL_GOOD, provider, key, sha))
            == Put(w, k, Passed(ProviderRequest(given, a.uttId, Upper(Strip(provider)), key, sha)))
  {
    hide Strip, Upper;
  }

  lemma InvParts(c: R.Config, w: World)
    requires Inv(c, w)
    ensures X.Inv(w.exec) && R.Inv(c, w.ops)
  {
    hide X.Inv, R.Inv;
  }

  /** The four steps of a dispatch that nobody interrupts. */
  function DispatchSteps(k: int, sid: string, a: R.Adapter, reply: Option<ProviderResult>, at: int): seq<Action> {
    [Prepare(k, sid, a, SIGNS, at)] + [Operate(R.Advance(k, SIGNS, at))] + [Operate(R.CallProvider(k, reply))]
    + [Operate(R.Finish(k, SIGNS, at))]
  }

  lemma {:induction false} DispatchRuns(c: R.Config, w: World, k: int, q: ProviderRequest, sid: string, a: R.Adapter,
                                        reply: Option<ProviderResult>, at: int)
    requires CheckerOf(w, k) == Passed(q)
    ensures var w' := Exec(c, w, DispatchSteps(k, sid, a, reply, at));
            var d := S.DispatchOnce(c, w.ops.store, q, sid, a, reply, SIGNS, at);
            && w'.exec == w.exec && w'.ops.store == d.store
            && w'.ops.calls == w.ops.calls
                 + if d.called then [S.CallOf(q, S.Start(w.ops.store, q, sid, at).version + 1, a, reply)] else []
  {
    hide Exec, R.DoPrepare, R.DoAdvance, R.DoCall, R.DoFinish, S.DispatchOnce;
    var a1, a2 := Prepare(k, sid, a, SIGNS, at), Operate(R.Advance(k, SIGNS, at));
    var a3, a4 := Operate(R.CallProvider(k, reply)), Operate(R.Finish(k, SIGNS, at));
    ExecOne(c, w, a1);
    ExecNext(c, w, [a1], a2);
    ExecNext(c, w, [a1] + [a2], a3);
    ExecNext(c, w, [a1] + [a2] + [a3], a4);
    S.UninterruptedWorkerDispatches(c, w.ops, k, q, sid, a, reply, SIGNS, at);
  }

  /** From a checker that passed: a dispatch of the record's request ends in a final record. */
  lemma {:induction false} PassedEnds(c: R.Config, w: World, k: int, q: ProviderRequest, sid: string, a: R.Adapter,
                                      at: int)
    requires R.Inv(c, w.ops) && S.Injective(c) && CheckerOf(w, k) == Passed(q)
    requires S.Fits(w.ops.store, q, a) && (q.rttId in w.ops.store.submissions ==> a.idempotent)
    ensures var w' := Exec(c, w, DispatchSteps(k, sid, a, None, at));
            && w'.exec == w.exec && FinalIn(w'.ops.store, q.rttId)
            && (q.rttId !in w.ops.store.submissions ==> w'.ops.calls == w.ops.calls + [S.CallOf(q, 2, a, None)])
  {
    hide Exec, R.Inv, S.DispatchOnce, S.Fits;
    DispatchRuns(c, w, k, q, sid, a, None, at);
    S.DispatchEnds(c, w.ops, q, sid, a, None, SIGNS, at);
  }

  ghost predicate FinalIn(s: Store, rttId: string) { rttId in s.submissions && FinalState(s.submissions[rttId].state) }

  // --------------------------------------------- what can still be finished

  /** No dispatcher holds a record of this RTT. */
  ghost predicate Away(w: R.World, rttId: string) {
    forall k :: k in w.dispatchers && !w.dispatchers[k].Off? ==> w.dispatchers[k].record.rttId != rttId
  }

  ghost predicate NotAt(c: Checker, rttId: string) {
    match c
    case Outside => true
    case SawAttempt(given, _) => given != rttId
    case Passed(q) => q.rttId != rttId
  }

  /** No worker is in the middle of dispatching this identifier. */
  ghost predicate Unattended(w: World, rttId: string) {
    Away(w.ops, rttId) && forall k :: k in w.checkers ==> NotAt(w.checkers[k], rttId)
  }

  ghost predicate Spares(w: R.World, w': R.World, rttId: string) {
    && rttId in w.store.submissions && rttId in w'.store.submissions
    && w'.store.submissions[rttId] == w.store.submissions[rttId] && Away(w', rttId)
  }

  lemma CommitSpares(c: R.Config, w: R.World, k: int, before: Submission, after: Submission, core: EventCore,
                     signs: Signer, next: R.Dispatcher, rttId: string)
    requires rttId in w.store.submissions && Away(w, rttId) && after.rttId != rttId
    requires !next.Off? ==> next.record.rttId != rttId
    ensures Spares(w, R.Commit(c, w, k, before, after, core, signs, next), rttId)
  {
  }

  lemma AdvanceSpares(c: R.Config, w: R.World, k: int, signs: Signer, at: int, rttId: string)
    requires rttId in w.store.submissions && Away(w, rttId)
    ensures Spares(w, R.DoAdvance(c, w, k, signs, at), rttId)
  {
    hide R.Commit, Completed, CompletedEvent;
    var d := R.DispatcherOf(w, k);
    if d.Holding? {
      var r, n := d.record, BeginDispatch(d.record, at);
      CompletedNames(r, RECOVERY_BLOCKED, at);
      CommitSpares(c, w, k, r, Completed(r, RECOVERY_BLOCKED, at), CompletedEvent(r, RECOVERY_BLOCKED, at), signs,
                   R.Off, rttId);
      CommitSpares(c, w, k, r, n,
                   CoreOf(n, DispatchStarted, DispatchData(n.dispatchAttempts, d.adapter.idempotent), at),
                   signs, R.MustCall(n, d.request, d.adapter), rttId);
    }
  }

  lemma FinishSpares(c: R.Config, w: R.World, k: int, signs: Signer, at: int, rttId: string)
    requires rttId in w.store.submissions && Away(w, rttId)
    ensures Spares(w, R.DoFinish(c, w, k, signs, at), rttId)
  {
    hide R.Commit, Completed, CompletedEvent, ResultOk;
    var d := R.DispatcherOf(w, k);
    if d.Called? {
      CompletedNames(d.record, d.reply, at);
      CommitSpares(c, w, k, d.record, Completed(d.record, d.reply, at), CompletedEvent(d.record, d.reply, at), signs,
                   R.Off, rttId);
    }
  }

  lemma RelaySpares(c: R.Config, w: R.World, a: R.Action, rttId: string)
    requires R.Inv(c, w) && rttId in w.store.submissions && Away(w, rttId)
    requires a.Claim? || a.Publish? || a.Settle? || a.StopRelay?
    ensures Spares(w, R.Do(c, w, a), rttId)
  {
    hide R.SubmissionsOk, R.EventOk, R.DispatchersOk, R.CallsOk, OutboxOk;
    R.RelayStepShape(c, w, a);
  }

  lemma OperateSpares(c: R.Config, w: R.World, a: R.Action, rttId: string)
    requires R.Inv(c, w) && !a.Prepare? && rttId in w.store.submissions && Away(w, rttId)
    ensures Spares(w, R.Do(c, w, a), rttId)
  {
    hide R.Inv, R.DoAdvance, R.DoFinish;
    match a
    case Advance(k, signs, at) => AdvanceSpares(c, w, k, signs, at, rttId);
    case Finish(k, signs, at) => FinishSpares(c, w, k, signs, at, rttId);
    case CallProvider(k, _) =>
    case StopDispatcher(k) =>
    case _ => RelaySpares(c, w, a, rttId);
  }

  lemma PrepareSpares(c: R.Config, w: R.World, k: int, q: ProviderRequest, sid: string, a: R.Adapter, signs: Signer,
                      at: int, rttId: string)
    requires R.SubmissionsOk(w) && rttId in w.store.submissions && Away(w, rttId) && q.rttId != rttId
    ensures Spares(w, R.DoPrepare(c, w, k, q, sid, a, signs, at), rttId)
  {
    hide R.SubmissionsOk, Upper;
    if q.rttId in w.store.submissions { R.StoredRecordOk(w, q.rttId); }
  }

  /** A submission nobody is working on, of an attempt that has an outcome. */
  ghost predicate Orphaned(w: World, rttId: string) {
    && rttId in w.ops.store.submissions && Unattended(w, rttId)
    && Strip(rttId) in w.exec.store.attempts && w.exec.store.attempts[Strip(rttId)].state != E.Created
  }

  ghost predicate StaysOrphaned(w: World, w': World, rttId: string) {
    && rttId in w.ops.store.submissions && Orphaned(w', rttId)
    && w'.ops.store.submissions[rttId] == w.ops.store.submissions[rttId]
  }

  lemma CheckKeepsOrphan(c: R.Config, w: World, a: Action, rttId: string)
    requires Orphaned(w, rttId) && (a.CheckAttempt? || a.CheckPlan? || a.Leave?)
    ensures StaysOrphaned(w, Do(c, w, a), rttId)
  {
    hide Strip, S.PlanGate, Upper, Away;
    if a.CheckPlan? && a.k in w.checkers { assert NotAt(w.checkers[a.k], rttId); }
  }

  lemma StepKeepsOrphan(c: R.Config, w: World, a: Action, rttId: string)
    requires Inv(c, w) && Orphaned(w, rttId)
    ensures StaysOrphaned(w, Do(c, w, a), rttId)
  {
    hide X.Inv, R.Inv, Strip, X.Do, R.Do, R.DoPrepare, Away, CheckersOk, NamedOk, Lasts;
    match a
    case Execute(step) => ExecuteKeepsOrphan(c, w, step, rttId);
    case Prepare(k, sid, ad, signs, at) =>
      if CheckerOf(w, k).Passed? {
        assert NotAt(w.checkers[k], rttId);
        OpsParts(c, w.ops);
        PrepareSpares(c, w.ops, k, CheckerOf(w, k).request, sid, ad, signs, at, rttId);
      }
    case Operate(op) => if !op.Prepare? { OperateSpares(c, w.ops, op, rttId); }
    case _ => CheckKeepsOrphan(c, w, a, rttId);
  }

  lemma OpsParts(c: R.Config, w: R.World)
    requires R.Inv(c, w)
    ensures R.SubmissionsOk(w)
  {
    hide R.SubmissionsOk;
  }

  lemma ExecuteKeepsOrphan(c: R.Config, w: World, step: X.Action, rttId: string)
    requires X.Inv(w.exec) && Orphaned(w, rttId)
    ensures StaysOrphaned(w, Do(c, w, Execute(step)), rttId)
  {
    hide X.Inv, X.Do, Strip, Away, NotAt;
    StepLasts(w.exec, step);
  }

  lemma {:induction false} RunKeepsOrphan(c: R.Config, w: World, more: seq<Action>, rttId: string)
    requires Inv(c, w) && Orphaned(w, rttId)
    ensures StaysOrphaned(w, Exec(c, w, more), rttId)
    decreases |more|
  {
    hide Inv, Do, Unattended, Strip;
    if more != [] {
      StepKeepsOrphan(c, w, more[0], rttId);
      StepKeepsInv(c, w, more[0]);
      RunKeepsOrphan(c, Do(c, w, more[0]), more[1..], rttId);
    }
  }

  /** In some continuation the submission gets a final state. */
  ghost predicate CanFinish(c: R.Config, w: World, rttId: string) {
    exists more :: FinalIn(Exec(c, w, more).ops.store, rttId)
  }

  /** After any run, a submission without final state that nobody is working on can still
      be finished if and only if its attempt has no outcome yet: under an unpadded
      identifier the next dispatch does it. Otherwise it stays as it is in every
      continuation: prepare refuses it for ever. */
  lemma {:induction false} FinishableIffUndecided(c: R.Config, actions: seq<Action>, rttId: string)
    requires S.Injective(c)
    requires var w := Exec(c, INITIAL, actions);
             rttId in w.ops.store.submissions && !FinalIn(w.ops.store, rttId) && Unattended(w, rttId)
    ensures var w := Exec(c, INITIAL, actions);
            && Strip(rttId) in w.exec.store.attempts
            && (CanFinish(c, w, rttId) <==> w.exec.store.attempts[Strip(rttId)].state == E.Created)
            && (w.exec.store.attempts[Strip(rttId)].state != E.Created ==>
                  forall more :: StaysOrphaned(w, Exec(c, w, more), rttId))
            && (w.exec.store.attempts[Strip(rttId)].state == E.Created && Strip(rttId) == rttId ==>
                  FinalIn(Exec(c, w, Again(w.ops.store.submissions[rttId])).ops.store, rttId))
  {
    hide Exec, Inv, Strip, Unattended, CanFinish;
    var w := Exec(c, INITIAL, actions);
    InitialInv(c);
    RunKeepsInv(c, INITIAL, actions);
    SubmissionNames(c, w, rttId);
    if w.exec.store.attempts[Strip(rttId)].state == E.Created {
      UndecidedFinishes(c, w, rttId);
      if Strip(rttId) == rttId { AgainFinishes(c, w, rttId); }
    } else {
      forall more ensures StaysOrphaned(w, Exec(c, w, more), rttId) { RunKeepsOrphan(c, w, more, rttId); }
      OrphanNeverFinishes(c, w, rttId);
    }
  }

  lemma SubmissionNames(c: R.Config, w: World, rttId: string)
    requires Inv(c, w) && rttId in w.ops.store.submissions
    ensures SubmissionOk(w.exec.store, rttId, w.ops.store.submissions[rttId])
  {
    hide X.Inv, R.Inv, SubmissionOk;
  }

  lemma {:induction false} OrphanNeverFinishes(c: R.Config, w: World, rttId: string)
    requires rttId in w.ops.store.submissions && !FinalIn(w.ops.store, rttId)
    requires forall more :: StaysOrphaned(w, Exec(c, w, more), rttId)
    ensures !CanFinish(c, w, rttId)
  {
    hide Exec, Unattended, Strip;
  }

  /** Another dispatch of a stored submission, by an adapter that raises. */
  function Again(r: Submission): seq<Action> {
    [CheckAttempt(0, r.rttId), CheckPlan(0, ALL_GOOD, r.providerId, r.idempotencyKey, r.requestSha)]
    + DispatchSteps(0, "", R.Adapter(r.providerId, true), None, 0)
  }

  lemma {:induction false} AgainFinishes(c: R.Config, w: World, rttId: string)
    requires S.Injective(c) && Inv(c, w) && rttId in w.ops.store.submissions && Strip(rttId) == rttId
    requires rttId in w.exec.store.attempts && w.exec.store.attempts[rttId].state == E.Created
    ensures FinalIn(Exec(c, w, Again(w.ops.store.submissions[rttId])).ops.store, rttId)
  {
    hide Exec, Inv, Strip, Upper, FinalIn, R.Inv, X.Inv;
    var r := w.ops.store.submissions[rttId];
    SubmissionNames(c, w, rttId);
    InvParts(c, w);
    StoredUnder(c, w.ops, rttId);
    XT.AttemptOfItsPlan(w.exec, rttId);
    XT.StateByPlace(w.exec, w.exec.store.attempts[rttId].planId, rttId);
    GateOpens(c, w, 0, rttId, r.providerId, r.idempotencyKey, r.requestSha);
    var q := ProviderRequest(rttId, w.exec.store.attempts[rttId].uttId, Upper(Strip(r.providerId)), r.idempotencyKey,
                             r.requestSha);
    var a := R.Adapter(r.providerId, true);
    PassedEnds(c, Put(w, 0, Passed(q)), 0, q, "", a, 0);
    ExecJoins(c, w, [CheckAttempt(0, rttId), CheckPlan(0, ALL_GOOD, r.providerId, r.idempotencyKey, r.requestSha)],
              DispatchSteps(0, "", a, None, 0));
  }

  lemma StoredUnder(c: R.Config, w: R.World, rttId: string)
    requires R.Inv(c, w) && rttId in w.store.submissions
    ensures w.store.submissions[rttId].rttId == rttId
  {
    hide R.EventsOk, R.DispatchersOk, R.CallsOk, R.SubmissionsOk;
    R.StoredRecordOk(w, rttId);
  }

  /** The constructive half for any spelling: check, plan, and a dispatch of the stored request. */
  lemma {:induction false} UndecidedFinishes(c: R.Config, w: World, rttId: string)
    requires S.Injective(c) && Inv(c, w) && rttId in w.ops.store.submissions
    requires Strip(rttId) in w.exec.store.attempts && w.exec.store.attempts[Strip(rttId)].state == E.Created
    ensures CanFinish(c, w, rttId)
  {
    hide Exec, Inv, Strip, Upper, FinalIn;
    var r := w.ops.store.submissions[rttId];
    var xs := GateOpensAfterTimeout(c, w, 0, rttId, r.providerId, r.idempotencyKey, r.requestSha, 0);
    var w1 := Exec(c, w, xs);
    var q := ProviderRequest(rttId, w.exec.store.attempts[Strip(rttId)].uttId, Upper(Strip(r.providerId)),
                             r.idempotencyKey, r.requestSha);
    var a := R.Adapter(r.providerId, true);
    SubmissionNames(c, w, rttId);
    InvParts(c, w);
    PassedEnds(c, w1, 0, q, "", a, 0);
    var ys := DispatchSteps(0, "", a, None, 0);
    ExecJoins(c, w, xs, ys);
    assert FinalIn(Exec(c, w, xs + ys).ops.store, rttId);
  }

  // ------------------------------------------------- when it is called again

  /** Some continuation makes exactly this one call more. */
  ghost predicate CanCall(c: R.Config, w: World, call: R.Call) {
    exists more :: Exec(c, w, more).ops.calls == w.ops.calls + [call]
  }

  /** Why identifiers must be unpadded: after any run, an undecided RTT can be dispatched
      under a padded spelling of its identifier, whatever was dispatched under its own, by
      any adapter and with another key. The checker reads the attempt, a time-out is
      reported under that spelling, and the plan's marker then matches it. */
  lemma {:induction false} PaddedDispatchCallsAgain(c: R.Config, actions: seq<Action>, given: string, provider: string,
                                                    key: string, sha: string, idempotent: bool)
    requires S.Injective(c) && Strip(given) != given
    requires var w := Exec(c, INITIAL, actions);
             && Strip(given) in w.exec.store.attempts && w.exec.store.attempts[Strip(given)].state == E.Created
             && given !in w.ops.store.submissions && key !in w.ops.store.rttByKey
    ensures CanCall(c, Exec(c, INITIAL, actions), R.Call(given, 2, key, sha, idempotent, Upper(Strip(provider)), None))
  {
    hide Exec, Inv, Strip, Upper, FinalIn;
    var w := Exec(c, INITIAL, actions);
    InitialInv(c);
    RunKeepsInv(c, INITIAL, actions);
    hide X.Inv, R.Inv;
    InvParts(c, w);
    var xs := GateOpensAfterTimeout(c, w, 0, given, provider, key, sha, 0);
    var q := ProviderRequest(given, w.exec.store.attempts[Strip(given)].uttId, Upper(Strip(provider)), key, sha);
    UpperTwice(Strip(provider));
    var ys := PassedCalls(c, Exec(c, w, xs), 0, q, idempotent);
    ExecJoins(c, w, xs, ys);
    assert Exec(c, w, xs + ys).ops.calls == w.ops.calls + [R.Call(given, 2, key, sha, idempotent, q.providerId, None)];
  }

  /** From a checker that passed: a new request is called by any adapter of its provider. */
  lemma PassedCalls(c: R.Config, w: World, k: int, q: ProviderRequest, idempotent: bool) returns (ys: seq<Action>)
    requires R.Inv(c, w.ops) && S.Injective(c) && CheckerOf(w, k) == Passed(q) && Upper(q.providerId) == q.providerId
    requires q.rttId !in w.ops.store.submissions && q.idempotencyKey !in w.ops.store.rttByKey
    ensures Exec(c, w, ys).exec == w.exec
    ensures Exec(c, w, ys).ops.calls
            == w.ops.calls + [R.Call(q.rttId, 2, q.idempotencyKey, q.requestSha, idempotent, q.providerId, None)]
  {
    hide Exec, R.Inv, Upper, FinalIn;
    var a := R.Adapter(q.providerId, idempotent);
    PassedEnds(c, w, k, q, "", a, 0);
    ys := DispatchSteps(k, "", a, None, 0);
  }

  /** A provider was called for an attempt of this plan beyond the n-th. */
  ghost predicate CalledBeyond(w: World, id: string, n: nat) {
    exists i :: 0 <= i < |w.ops.calls| && IsBeyond(w, w.ops.calls[i].rttId, id, n)
  }

  ghost predicate IsBeyond(w: World, rttId: string, id: string, n: nat) {
    && Strip(rttId) in w.exec.store.attempts && w.exec.store.attempts[Strip(rttId)].planId == id
    && w.exec.store.attempts[Strip(rttId)].attemptNumber > n
  }

  ghost predicate CanCallBeyond(c: R.Config, w: World, id: string, n: nat) {
    exists more :: CalledBeyond(Exec(c, w, more), id, n)
  }

  lemma StepFreezes(c: R.Config, w: World, a: Action)
    requires Inv(c, w)
    ensures XT.Frozen(w.exec.store, Do(c, w, a).exec.store)
  {
    hide X.Inv, R.Inv, X.Do, R.Do, R.DoPrepare, S.PlanGate, Strip;
    if a.Execute? { XT.StepFreezes(w.exec, a.step); }
  }

  lemma {:induction false} RunFreezes(c: R.Config, w: World, more: seq<Action>)
    requires Inv(c, w)
    ensures XT.Frozen(w.exec.store, Exec(c, w, more).exec.store)
    decreases |more|
  {
    hide Inv, Do;
    if more != [] {
      StepFreezes(c, w, more[0]);
      StepKeepsInv(c, w, more[0]);
      RunFreezes(c, Do(c, w, more[0]), more[1..]);
    }
  }

  /** After any run, let the newest attempt of a plan be recorded as failed. Another RTT of
      the same transaction can ever reach a provider if and only if that failure left the
      plan active: so a failure recorded as retryable for an RTT that moved money is
      exactly what lets a transaction be paid twice. */
  lemma {:induction false} AnotherCallIffActive(c: R.Config, actions: seq<Action>, r: string, unused: E.Identifier,
                                                key: string)
    requires S.Injective(c)
    requires var w := Exec(c, INITIAL, actions);
             && r in w.exec.store.attempts && w.exec.store.attempts[r].state == E.AttemptFailed
             && unused !in w.exec.store.attempts && key !in w.ops.store.rttByKey
    ensures var w := Exec(c, INITIAL, actions);
            var a := w.exec.store.attempts[r];
            && a.planId in w.exec.store.plans
            && var p := w.exec.store.plans[a.planId];
               a.attemptNumber == p.attemptsUsed ==>
                 (CanCallBeyond(c, w, a.planId, a.attemptNumber) <==> p.status == E.Active)
  {
    hide Exec, Inv, CanCallBeyond;
    var w := Exec(c, INITIAL, actions);
    InitialInv(c);
    RunKeepsInv(c, INITIAL, actions);
    InvParts(c, w);
    hide X.Inv, R.Inv;
    XT.AttemptOfItsPlan(w.exec, r);
    var a := w.exec.store.attempts[r];
    if a.attemptNumber == w.exec.store.plans[a.planId].attemptsUsed {
      NewestFailed(w.exec, a.planId, r);
      if w.exec.store.plans[a.planId].status == E.Active {
        ActiveIsCalled(c, w, a.planId, unused, key);
      } else {
        ClosedIsNotCalled(c, w, a.planId);
      }
    }
  }

  /** A plan whose newest attempt failed has nothing in flight and awaits nothing. */
  lemma NewestFailed(x: X.World, id: string, r: string)
    requires X.Inv(x) && id in x.store.plans && r in XT.AttemptsOf(x.store, id)
    requires x.store.attempts[r].state == E.AttemptFailed
    requires x.store.attempts[r].attemptNumber == x.store.plans[id].attemptsUsed
    ensures var p := x.store.plans[id]; p.current == None && (p.status == E.Active || XT.Closed(p))
  {
    hide X.Inv, Strip, X.CanStart;
    XT.ChainLength(x, id);
    var i := XT.ChainFacts(x, id, r);
    XT.StateByPlace(x, id, r);
  }

  lemma ClosedIsNotCalled(c: R.Config, w: World, id: string)
    requires Inv(c, w) && id in w.exec.store.plans && XT.Closed(w.exec.store.plans[id])
    ensures !CanCallBeyond(c, w, id, w.exec.store.plans[id].attemptsUsed)
  {
    hide Exec, Inv;
    var n := w.exec.store.plans[id].attemptsUsed;
    forall more ensures !CalledBeyond(Exec(c, w, more), id, n) {
      var w' := Exec(c, w, more);
      RunFreezes(c, w, more);
      RunKeepsInv(c, w, more);
      InvParts(c, w');
      NoneBeyond(w', id);
    }
  }

  lemma NoneBeyond(w: World, id: string)
    requires X.Inv(w.exec) && id in w.exec.store.plans
    ensures !CalledBeyond(w, id, w.exec.store.plans[id].attemptsUsed)
  {
    hide X.Inv, Strip;
    XT.PlanIsNumbered(w.exec, id);
    forall rttId ensures IsBeyond(w, rttId, id, 0) ==> Strip(rttId) in XT.AttemptsOf(w.exec.store, id) {}
  }

  /** The constructive half: start the next attempt, check it, dispatch it. */
  lemma ActiveIsCalled(c: R.Config, w: World, id: string, unused: E.Identifier, key: string)
    requires S.Injective(c) && Inv(c, w) && id in w.exec.store.plans
    requires w.exec.store.plans[id].status == E.Active && w.exec.store.plans[id].current == None
    requires unused !in w.exec.store.attempts && key !in w.ops.store.rttByKey
    ensures CanCallBeyond(c, w, id, w.exec.store.plans[id].attemptsUsed)
  {
    hide Exec, Inv, Strip, X.Do, X.Inv, R.Inv, CalledBeyond, S.Injective;
    var a1, a2 := Execute(X.ReadPlanToStart(0, w.exec.store.plans[id].uttId)), Execute(X.CommitStarted(0, unused, 0));
    ExecOne(c, w, a1);
    ExecNext(c, w, [a1], a2);
    var w2 := Exec(c, w, [a1] + [a2]);
    RunKeepsInv(c, w, [a1] + [a2]);
    InvParts(c, w);
    XT.ActiveStarts(w.exec, id, 0, unused, 0);
    NeverSubmitted(c, w, unused);
    var ys := StartedIsCalled(c, w2, id, unused, key, w.exec.store.plans[id].attemptsUsed);
    ExecJoins(c, w, [a1] + [a2], ys);
    assert CalledBeyond(Exec(c, w, [a1] + [a2] + ys), id, w.exec.store.plans[id].attemptsUsed);
  }

  lemma NeverSubmitted(c: R.Config, w: World, r: E.Identifier)
    requires Inv(c, w) && r !in w.exec.store.attempts
    ensures r !in w.ops.store.submissions
  {
    hide Inv, Strip;
    if r in w.ops.store.submissions { SubmissionNames(c, w, r); }
  }

  lemma StartedIsCalled(c: R.Config, w: World, id: string, r: E.Identifier, key: string, n: nat)
    returns (ys: seq<Action>)
    requires S.Injective(c) && Inv(c, w) && r in w.exec.store.attempts && id in w.exec.store.plans
    requires var a := w.exec.store.attempts[r]; a.state == E.Created && a.planId == id && a.attemptNumber > n
    requires w.exec.store.plans[id].current == Some(r)
    requires r !in w.ops.store.submissions && key !in w.ops.store.rttByKey
    ensures CalledBeyond(Exec(c, w, ys), id, n)
  {
    hide Exec, Inv, Strip, Upper, X.Inv, R.Inv;
    InvParts(c, w);
    var g := [CheckAttempt(0, r), CheckPlan(0, ALL_GOOD, "P", key, "")];
    var q := ProviderRequest(r, w.exec.store.attempts[r].uttId, Upper(Strip("P")), key, "");
    GateOpens(c, w, 0, r, "P", key, "");
    UpperTwice(Strip("P"));
    var zs := PassedCalls(c, Put(w, 0, Passed(q)), 0, q, true);
    ExecJoins(c, w, g, zs);
    ys := g + zs;
    var w' := Exec(c, w, ys);
    assert IsBeyond(w', w'.ops.calls[|w.ops.calls|].rttId, id, n);
  }
}
