/** What every run of one attempt's callbacks comes to: the RESULT body decides,
    once, and nothing that arrives later changes it. */
module CallbackTheorems {
  import opened Prelude
  import opened Execution
  import opened Callbacks
  import opened CallbackRuns
  import X = ExecutionRuns
  import T = ExecutionTheorems

  predicate Closed(s: AttemptState) { s == Succeeded || s == AttemptFailed }

  /** The attempt and its plan stand as this RESULT body requires. */
  ghost predicate StandsAs(c: Config, s0: Store, s: Store, body: Payload) {
    var r := c.submission.rttId;
    && AttemptOf(s, r).Some? && AttemptOf(s, r).value.state == VerdictState(body)
    && PlanIdOf(s0, r) in s0.plans && PlanIdOf(s0, r) in s.plans
    && s.plans[PlanIdOf(s0, r)].status == VerdictStatus(c, s0.plans[PlanIdOf(s0, r)], body)
    && s.plans[PlanIdOf(s0, r)].current == None
    && Noted(ResultCallback, body, AttemptOf(s, r).value, s.plans[PlanIdOf(s0, r)])
  }

  /** An attempt that is merely created is in flight, in every reachable execution state. */
  lemma {:induction false} CreatedIsInFlight(actions: seq<X.Action>, r: string)
    requires var s := X.Exec(X.INITIAL, actions).store; r in s.attempts && s.attempts[r].state == Created
    ensures InFlight(X.Exec(X.INITIAL, actions).store, r)
  {
    hide X.Exec;
    var w := X.Exec(X.INITIAL, actions);
    T.InitialInv();
    X.RunKeepsInv(X.INITIAL, actions);
    var id := w.store.attempts[r].planId;
    assert id in w.store.plans && w.store.plans[id].planId == id && w.store.attempts[r].rttId == r by {
      hide X.PlanOk, X.InChain, X.LocalOk;
    }
    T.StateByPlace(w, id, r);
    X.InvKeyed(w);
  }

  /** After any run: nothing has happened, or only time-outs were recorded, or
      exactly one RESULT was recorded, last, and it is the first body that arrived. */
  lemma {:induction false} ResultDecides(c: Config, s0: Store, actions: seq<Action>)
    requires InFlight(s0, c.submission.rttId)
    ensures var w := Exec(c, Begin(s0), actions);
            var r := c.submission.rttId;
            && AttemptOf(w.store, r).Some?
            && var state := AttemptOf(w.store, r).value.state;
            && (state == Created ==> w.store == s0 && w.log == [])
            && (state == Unresolved ==> w.log != [] && AllTimeouts(w.log) && PlanOf(w.store, r).Some?
                                        && PlanOf(w.store, r).value.status == AwaitingEvidence)
            && (Closed(state) ==>
                  && w.log != [] && w.log[|w.log| - 1] == ResultCallback && AllTimeouts(w.log[..|w.log| - 1])
                  && KeptResult(c, w.inbox).Some? && StandsAs(c, s0, w.store, KeptResult(c, w.inbox).value))
            && Near(s0, w.store, r)
  {
    hide Exec, HandlersOk, InboxOk, KeptResult, VerdictStatus;
    BeginInv(c, s0);
    RunKeepsInv(c, s0, Begin(s0), actions);
  }

  /** Two runs that kept the same RESULT body end alike, whatever else arrived,
      in whatever order, and wherever handlers crashed. */
  lemma {:induction false} SameResultSameEnd(c: Config, s0: Store, one: seq<Action>, two: seq<Action>)
    requires InFlight(s0, c.submission.rttId)
    requires var w1, w2 := Exec(c, Begin(s0), one), Exec(c, Begin(s0), two);
             var r := c.submission.rttId;
             && KeptResult(c, w1.inbox) == KeptResult(c, w2.inbox)
             && AttemptOf(w1.store, r).Some? && Closed(AttemptOf(w1.store, r).value.state)
             && AttemptOf(w2.store, r).Some? && Closed(AttemptOf(w2.store, r).value.state)
    ensures var w1, w2 := Exec(c, Begin(s0), one), Exec(c, Begin(s0), two);
            var r := c.submission.rttId;
            && AttemptOf(w1.store, r).value.state == AttemptOf(w2.store, r).value.state
            && PlanOf(w1.store, r).Some? && PlanOf(w2.store, r).Some?
            && PlanOf(w1.store, r).value.status == PlanOf(w2.store, r).value.status
  {
    hide Exec, KeptResult, VerdictStatus, AllTimeouts;
    ResultDecides(c, s0, one);
    ResultDecides(c, s0, two);
  }

  // ------------------------------------------------------- closed is closed

  lemma ClosedStep(c: Config, s0: Store, w: World, a: Action)
    requires Inv(c, s0, w) && Closed(w.store.attempts[c.submission.rttId].state)
    ensures Do(c, w, a).store == w.store && Do(c, w, a).log == w.log
  {
    hide HandlerOk, Committed, Refusal, KeptResult, InboxOk, VerdictStatus, AllTimeouts, Choose;
    if a.Commit? && HandlerOf(w, a.worker).SawPlan? {
      var h := HandlerOf(w, a.worker);
      NearFacts(c, s0, w);
      HeldFacts(c, w.inbox, w.store, h);
      if Committed(w.store, h.op, h.attempt, c.submission.rttId, h.plan, a.at).Some? {
        CommitShape(c, w.store, h.kind, h.payload, h.op, h.attempt, c.submission.rttId, h.plan, a.at);
      }
    }
  }

  lemma {:induction false} ClosedRun(c: Config, s0: Store, w: World, actions: seq<Action>)
    requires Inv(c, s0, w) && Closed(w.store.attempts[c.submission.rttId].state)
    ensures Exec(c, w, actions).store == w.store && Exec(c, w, actions).log == w.log
    decreases |actions|
  {
    hide Do, StoreOk, HandlersOk;
    if actions != [] {
      ClosedStep(c, s0, w, actions[0]);
      StepKeepsInv(c, s0, w, actions[0]);
      ClosedRun(c, s0, Do(c, w, actions[0]), actions[1..]);
    }
  }

  /** Once the RESULT is recorded, no callback of any kind changes plan or attempt again. */
  lemma {:induction false} ResultIsFinal(c: Config, s0: Store, before: seq<Action>, after: seq<Action>)
    requires InFlight(s0, c.submission.rttId)
    requires var s := Exec(c, Begin(s0), before).store;
             AttemptOf(s, c.submission.rttId).Some? && Closed(AttemptOf(s, c.submission.rttId).value.state)
    ensures var w := Exec(c, Begin(s0), before);
            Exec(c, w, after).store == w.store && Exec(c, w, after).log == w.log
  {
    hide Exec, Inv;
    BeginInv(c, s0);
    RunKeepsInv(c, s0, Begin(s0), before);
    ClosedRun(c, s0, Exec(c, Begin(s0), before), after);
  }

  // ------------------------------------------------------ one whole delivery

  /** Recording on the attempt in flight goes through. */
  lemma RecordGoesThrough(c: Config, s0: Store, w: World, kind: Kind, body: Payload, at: int)
    requires Inv(c, s0, w)
    requires var choice := Choose(c, kind, body, w.store.attempts[c.submission.rttId].state); choice.Perform?
    ensures var r := c.submission.rttId;
            var op := Choose(c, kind, body, w.store.attempts[r].state).op;
            && Record(w.store, r, op, at).Ok?
            && var s := Record(w.store, r, op, at).value.0;
            && AttemptOf(s, r).Some?
            && (kind.ResultCallback? ==> StandsAs(c, s0, s, body))
            && (kind.TimeoutCallback? ==> AttemptOf(s, r).value.state == Unresolved)
  {
    hide HandlersOk, InboxOk, KeptResult, VerdictStatus, FailureCode, StatusAfterRetryable;
    var r := c.submission.rttId;
    var a := w.store.attempts[r];
    NearFacts(c, s0, w);
    var plan := w.store.plans[a.planId];
    var op := Choose(c, kind, body, a.state).op;
    assert Possible(c, kind, body, op) && a.state == Expects(op);
    SameVerdict(c, s0.plans[a.planId], plan, body);
    assert Outcome(op, plan, a, r, at).Ok?;
    OutcomeByKind(c, kind, body, op, a, r, plan, at);
  }

  /** What is already closed stands as the kept body requires. */
  lemma ClosedStandsAs(c: Config, s0: Store, w: World, body: Payload)
    requires Inv(c, s0, w) && Closed(w.store.attempts[c.submission.rttId].state)
    requires Kept(c, w.inbox, ResultCallback, body)
    ensures StandsAs(c, s0, w.store, body)
  {
    hide HandlersOk, InboxOk, VerdictStatus;
    KeptIsKeptResult(c, w.inbox, body);
  }

  /** After any run whatsoever, a RESULT delivery that is not a forgery of the
      kept one closes the attempt as its body says. Only a refused settlement
      keeps the delivery from being marked, and then it can be repeated. */
  lemma {:induction false} DeliveryCloses(c: Config, s0: Store, actions: seq<Action>, body: Payload, settles: bool,
                                          at: int)
    requires InFlight(s0, c.submission.rttId) && Refusal(c, ResultCallback, body) == None
    requires KeptResult(c, Exec(c, Begin(s0), actions).inbox) in {None, Some(body)}
    ensures var w := Exec(c, Begin(s0), actions);
            var d := Process(c, w.inbox, w.store, ResultCallback, body, settles, at);
            && StandsAs(c, s0, d.store, body)
            && (d.result.Ok? || d.result == Err(SettlementRejected))
            && (settles || body.resultCode != 0 ==>
                  && d.result.Ok? && EventId(ResultCallback, body.conversationId) in d.inbox
                  && d.inbox[EventId(ResultCallback, body.conversationId)].state == Applied)
  {
    hide Exec, EvidenceProblem, Lookup, VerdictStatus;
    BeginInv(c, s0);
    RunKeepsInv(c, s0, Begin(s0), actions);
    DeliveryFrom(c, s0, Exec(c, Begin(s0), actions), body, settles, at);
  }

  lemma DeliveryFrom(c: Config, s0: Store, w: World, body: Payload, settles: bool, at: int)
    requires Inv(c, s0, w) && Refusal(c, ResultCallback, body) == None
    requires KeptResult(c, w.inbox) in {None, Some(body)}
    ensures var d := Process(c, w.inbox, w.store, ResultCallback, body, settles, at);
            && StandsAs(c, s0, d.store, body)
            && (d.result.Ok? || d.result == Err(SettlementRejected))
            && (settles || body.resultCode != 0 ==>
                  && d.result.Ok? && EventId(ResultCallback, body.conversationId) in d.inbox
                  && d.inbox[EventId(ResultCallback, body.conversationId)].state == Applied)
  {
    hide HandlersOk, StandsAs, EventId, Record, Near, EvidenceProblem, Lookup, DisposedAs, FailureCode;
    var r, id := c.submission.rttId, EventId(ResultCallback, body.conversationId);
    NearFacts(c, s0, w);
    assert id in w.inbox ==> w.inbox[id].digest == OfPayload(body);
    var state := w.store.attempts[r].state;
    if id in w.inbox && Closed(state) {
      ClosedStandsAs(c, s0, w, body);
    } else if !Closed(state) {
      RecordGoesThrough(c, s0, w, ResultCallback, body, at);
    }
  }

  /** A TIMEOUT after the RESULT, and another body under a kept identifier,
      change neither plan nor attempt. */
  lemma {:induction false} LateOrForgedChangesNothing(c: Config, s0: Store, actions: seq<Action>, kind: Kind,
                                                      body: Payload, settles: bool, at: int)
    requires InFlight(s0, c.submission.rttId)
    ensures var w := Exec(c, Begin(s0), actions);
            var r := c.submission.rttId;
            var d := Process(c, w.inbox, w.store, kind, body, settles, at);
            && AttemptOf(w.store, r).Some?
            && (kind.TimeoutCallback? && Closed(AttemptOf(w.store, r).value.state) ==>
                  d.store == w.store && (d.result.Err? || d.result == Ok(AlreadyApplied)))
            && (kind.ResultCallback? && KeptResult(c, w.inbox) !in {None, Some(body)} ==>
                  d.store == w.store && d.inbox == w.inbox && d.result.Err?)
  {
    hide Exec, EventId, Record, EvidenceProblem, Lookup, StoreOk, HandlersOk;
    BeginInv(c, s0);
    RunKeepsInv(c, s0, Begin(s0), actions);
    NearFacts(c, s0, Exec(c, Begin(s0), actions));
  }
}
