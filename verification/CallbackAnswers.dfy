/** What a callback is refused for, what it does to plan and attempt and what it is answered,
    written out on the body, the submission and the configured codes. */
module CallbackAnswers {
  import opened Prelude
  import opened Execution
  import opened Callbacks
  import opened CallbackRuns
  import CallbackTheorems
  import ExecutionDecisions

  // ------------------------------------------------------------- what is refused

  /** The value of the first entry under a name. */
  ghost predicate Entered(context: seq<(string, string)>, key: string, value: string) {
    exists i :: 0 <= i < |context| && context[i] == (key, value) && forall j :: 0 <= j < i ==> context[j].0 != key
  }

  lemma {:induction false} LookupFinds(context: seq<(string, string)>, key: string, value: string)
    ensures Lookup(context, key) == Some(value) <==> Entered(context, key, value)
  {
    if context != [] && context[0].0 != key {
      var rest := context[1..];
      LookupFinds(rest, key, value);
      if i :| 0 <= i < |rest| && rest[i] == (key, value) && forall j :: 0 <= j < i ==> rest[j].0 != key {
        assert context[i + 1] == (key, value);
        assert forall j :: 0 <= j < i + 1 ==> context[j].0 != key by {
          forall j | 0 <= j < i + 1 ensures context[j].0 != key { if j > 0 { assert context[j] == rest[j - 1]; } }
        }
      }
      if i :| 0 <= i < |context| && context[i] == (key, value) && forall j :: 0 <= j < i ==> context[j].0 != key {
        assert rest[i - 1] == (key, value);
        assert forall j :: 0 <= j < i - 1 ==> rest[j].0 != key by {
          forall j | 0 <= j < i - 1 ensures rest[j].0 != key { assert rest[j] == context[j + 1]; }
        }
      }
    } else if context != [] {
      assert Lookup(context, key) == Some(context[0].1);
    }
  }

  /** The reported amount as a number: a number, or a text of digits. */
  ghost predicate Reports(p: Payload, amount: int) {
    && p.amount.Some?
    && match p.amount.value
       case Number(n) => n == amount
       case Text(s) => NaturalText(s) == Some(amount)
  }

  /** A success proves itself: a transaction identifier, a hundredth of the dispatched minor
      amount, and a receipt, if there is one, that is the transaction identifier. */
  ghost predicate Proves(p: Payload, context: seq<(string, string)>) {
    && p.transactionId.Some? && p.transactionId.value != ""
    && (p.receipt == None || p.receipt == Some(Text(p.transactionId.value)))
    && exists text, minor, amount :: Entered(context, "amount_minor", text) && NaturalText(text) == Some(minor)
                                     && Reports(p, amount) && minor == 100 * amount
  }

  lemma {:induction false} EvidenceProves(p: Payload, context: seq<(string, string)>)
    ensures EvidenceProblem(p, Lookup(context, AMOUNT_KEY)) == None <==> Proves(p, context)
  {
    hide Lookup, NaturalText, Entered;
    var found := Lookup(context, AMOUNT_KEY);
    forall text ensures Lookup(context, AMOUNT_KEY) == Some(text) <==> Entered(context, "amount_minor", text) {
      LookupFinds(context, AMOUNT_KEY, text);
    }
    if EvidenceProblem(p, found) == None {
      var text := found.value;
      assert Entered(context, "amount_minor", text) && Reports(p, AmountOf(p.amount).value);
      assert NaturalText(text).value == 100 * AmountOf(p.amount).value;
    }
    if Proves(p, context) {
      var text, minor, amount :| Entered(context, "amount_minor", text) && NaturalText(text) == Some(minor)
                                 && Reports(p, amount) && minor == 100 * amount;
      assert found == Some(text) && AmountOf(p.amount) == Some(amount);
    }
  }

  /** A callback enters the inbox exactly when its conversation is the submission's, its
      originator is the one on record and, for a success, it proves itself. */
  lemma {:induction false} RefusedExactly(c: Config, kind: Kind, p: Payload)
    ensures Refusal(c, kind, p) == None <==>
              && c.submission.externalRef == Some(p.conversationId)
              && Entered(c.submission.context, "originator_conversation_id", p.originatorId)
              && (kind == ResultCallback && p.resultCode == 0 ==> Proves(p, c.submission.context))
    ensures Refusal(c, kind, p) == Some(NoMatchingSubmission) <==> c.submission.externalRef != Some(p.conversationId)
    ensures Refusal(c, kind, p) == Some(CorrelationMismatch) <==>
              && c.submission.externalRef == Some(p.conversationId)
              && !Entered(c.submission.context, "originator_conversation_id", p.originatorId)
  {
    hide Lookup, Proves, Entered, EvidenceProblem;
    LookupFinds(c.submission.context, ORIGINATOR_KEY, p.originatorId);
    EvidenceProves(p, c.submission.context);
    EvidenceErrors(p, Lookup(c.submission.context, AMOUNT_KEY));
  }

  lemma EvidenceErrors(p: Payload, expected: Option<string>)
    ensures EvidenceProblem(p, expected) != Some(NoMatchingSubmission)
    ensures EvidenceProblem(p, expected) != Some(CorrelationMismatch)
  {
    hide NaturalText;
  }

  // ------------------------------------------------------------ what is answered

  /** The callback's inbox record is marked applied. */
  ghost predicate IsApplied(inbox: Inbox, kind: Kind, p: Payload) {
    EventId(kind, p.conversationId) in inbox && inbox[EventId(kind, p.conversationId)].state == Applied
  }

  /** After any run, a RESULT with a non-zero code that is not refused and does not
      contradict the body on record: the attempt has failed under that code. A code outside
      the retryable ones fails the plan; one among them leaves it active exactly while it has
      attempts and an affordable untried route left, and exhausts it otherwise. The answer
      names the same disposition, unless the callback had been applied before; afterwards it
      is applied. */
  lemma {:induction false} FailedResultEnds(c: Config, s0: Store, actions: seq<Action>, body: Payload, settles: bool,
                                            at: int)
    requires InFlight(s0, c.submission.rttId) && Refusal(c, ResultCallback, body) == None && body.resultCode != 0
    requires KeptResult(c, Exec(c, Begin(s0), actions).inbox) in {None, Some(body)}
    ensures var w := Exec(c, Begin(s0), actions);
            var d := Process(c, w.inbox, w.store, ResultCallback, body, settles, at);
            var r, id := c.submission.rttId, PlanIdOf(s0, c.submission.rttId);
            && id in s0.plans && id in d.store.plans && r in d.store.attempts
            && var p0, p, a := s0.plans[id], d.store.plans[id], d.store.attempts[r];
            && a.state == AttemptFailed && p.current == None
            && a.failureCode == Some("MPESA_RESULT_" + Encoding.Decimal(body.resultCode))
            && (body.resultCode !in c.retryable ==> p.status == PlanFailed)
            && (body.resultCode in c.retryable ==>
                  p.status == if p0.attemptsUsed < p0.maxAttempts && ExecutionDecisions.RouteLeft(p0, p0.spent)
                              then Active else Exhausted)
            && d.result == Ok(if IsApplied(w.inbox, ResultCallback, body) then AlreadyApplied
                              else if body.resultCode in c.retryable then ConfirmedRetryable else ConfirmedTerminal)
            && IsApplied(d.inbox, ResultCallback, body)
  {
    hide Exec, EvidenceProblem, Lookup, EventId, Near, PhaseOk, InboxOk, HandlersOk;
    BeginInv(c, s0);
    RunKeepsInv(c, s0, Begin(s0), actions);
    CallbackTheorems.DeliveryFrom(c, s0, Exec(c, Begin(s0), actions), body, settles, at);
    var id := PlanIdOf(s0, c.submission.rttId);
    ExecutionDecisions.RouteLeftIff(s0.plans[id], s0.plans[id].spent);
    AnswersKind(c, Exec(c, Begin(s0), actions), body, settles, at);
  }

  lemma AnswersKind(c: Config, w: World, body: Payload, settles: bool, at: int)
    ensures var d := Process(c, w.inbox, w.store, ResultCallback, body, settles, at);
            && (d.result == Ok(AlreadyApplied) ==> IsApplied(w.inbox, ResultCallback, body))
            && (IsApplied(w.inbox, ResultCallback, body) && d.result.Ok? ==> d.result == Ok(AlreadyApplied))
            && (d.result.Ok? && d.result != Ok(AlreadyApplied) ==>
                  d.result == Ok(if body.resultCode == 0 then ConfirmedSuccess
                                 else if body.resultCode in c.retryable then ConfirmedRetryable else ConfirmedTerminal))
  {
    hide Record, Choose, Refusal, EventId;
  }

  /** The same of a success: the attempt succeeded on its route and the plan is finalized;
      the answer says so if the settlement was accepted, and otherwise that it was not. */
  lemma {:induction false} SuccessEnds(c: Config, s0: Store, actions: seq<Action>, body: Payload, settles: bool,
                                       at: int)
    requires InFlight(s0, c.submission.rttId) && Refusal(c, ResultCallback, body) == None && body.resultCode == 0
    requires KeptResult(c, Exec(c, Begin(s0), actions).inbox) in {None, Some(body)}
    ensures var w := Exec(c, Begin(s0), actions);
            var d := Process(c, w.inbox, w.store, ResultCallback, body, settles, at);
            var r, id := c.submission.rttId, PlanIdOf(s0, c.submission.rttId);
            && id in d.store.plans && r in d.store.attempts
            && var p, a := d.store.plans[id], d.store.attempts[r];
            && a.state == Succeeded && p.current == None && p.status == Finalized
            && p.successfulRoute == Some(a.routeId)
            && (IsApplied(w.inbox, ResultCallback, body) ==> d.result == Ok(AlreadyApplied))
            && (!IsApplied(w.inbox, ResultCallback, body) ==>
                  d.result == if settles then Ok(ConfirmedSuccess) else Err(SettlementRejected))
            && (settles ==> IsApplied(d.inbox, ResultCallback, body))
  {
    hide Exec, EvidenceProblem, Lookup, EventId, Near, PhaseOk, InboxOk, HandlersOk;
    BeginInv(c, s0);
    RunKeepsInv(c, s0, Begin(s0), actions);
    CallbackTheorems.DeliveryFrom(c, s0, Exec(c, Begin(s0), actions), body, settles, at);
    AnswersKind(c, Exec(c, Begin(s0), actions), body, settles, at);
    AnswersSettlement(c, Exec(c, Begin(s0), actions), body, settles, at);
  }

  lemma AnswersSettlement(c: Config, w: World, body: Payload, settles: bool, at: int)
    requires body.resultCode == 0
    ensures var d := Process(c, w.inbox, w.store, ResultCallback, body, settles, at);
            && (!settles && d.result.Ok? ==> d.result == Ok(AlreadyApplied))
            && (d.result == Err(SettlementRejected) ==> !settles && !IsApplied(w.inbox, ResultCallback, body))
  {
    hide Record, Choose, EventId, Lookup, NaturalText;
  }

  /** After any run, a TIMEOUT that is not refused and does not contradict the body on
      record: one that was applied before changes nothing. Otherwise an attempt without
      outcome becomes unresolved and its plan waits for evidence; one that is unresolved
      stays so; and on one that has an outcome the callback is refused as a conflict. */
  lemma {:induction false} TimeoutEnds(c: Config, s0: Store, actions: seq<Action>, body: Payload, settles: bool,
                                       at: int)
    requires InFlight(s0, c.submission.rttId) && Refusal(c, TimeoutCallback, body) == None
    requires var inbox := Exec(c, Begin(s0), actions).inbox;
             var e := EventId(TimeoutCallback, body.conversationId);
             e in inbox ==> inbox[e].digest == OfPayload(body)
    ensures var w := Exec(c, Begin(s0), actions);
            var d := Process(c, w.inbox, w.store, TimeoutCallback, body, settles, at);
            var r, id := c.submission.rttId, PlanIdOf(s0, c.submission.rttId);
            && r in w.store.attempts && r in d.store.attempts && id in d.store.plans
            && var state, p, a := w.store.attempts[r].state, d.store.plans[id], d.store.attempts[r];
            if IsApplied(w.inbox, TimeoutCallback, body) then d.store == w.store && d.result == Ok(AlreadyApplied)
            else if state == Created then
              && a.state == Unresolved && a.failureCode == Some("MPESA_CALLBACK_TIMEOUT")
              && p.status == AwaitingEvidence && p.current == Some(r) && d.result == Ok(NeedsReconciliation)
              && IsApplied(d.inbox, TimeoutCallback, body)
            else if state == Unresolved then
              d.store == w.store && d.result == Ok(NeedsReconciliation) && IsApplied(d.inbox, TimeoutCallback, body)
            else d.store == w.store && d.result == Err(ConflictsWithOutcome)
  {
    hide Exec, HandlersOk, InboxOk, KeptResult, EvidenceProblem, Lookup, EventId;
    BeginInv(c, s0);
    RunKeepsInv(c, s0, Begin(s0), actions);
    var w := Exec(c, Begin(s0), actions);
    NearFacts(c, s0, w);
    TimeoutFrom(c, s0, w, body, settles, at);
  }

  lemma {:induction false} TimeoutFrom(c: Config, s0: Store, w: World, body: Payload, settles: bool, at: int)
    requires StoreOk(c, s0, w) && Refusal(c, TimeoutCallback, body) == None
    requires var e := EventId(TimeoutCallback, body.conversationId);
             e in w.inbox ==> w.inbox[e].digest == OfPayload(body)
    ensures var d := Process(c, w.inbox, w.store, TimeoutCallback, body, settles, at);
            var r, id := c.submission.rttId, PlanIdOf(s0, c.submission.rttId);
            && r in w.store.attempts && r in d.store.attempts && id in d.store.plans
            && var state, p, a := w.store.attempts[r].state, d.store.plans[id], d.store.attempts[r];
            if IsApplied(w.inbox, TimeoutCallback, body) then d.store == w.store && d.result == Ok(AlreadyApplied)
            else if state == Created then
              && a.state == Unresolved && a.failureCode == Some("MPESA_CALLBACK_TIMEOUT")
              && p.status == AwaitingEvidence && p.current == Some(r) && d.result == Ok(NeedsReconciliation)
              && IsApplied(d.inbox, TimeoutCallback, body)
            else if state == Unresolved then
              d.store == w.store && d.result == Ok(NeedsReconciliation) && IsApplied(d.inbox, TimeoutCallback, body)
            else d.store == w.store && d.result == Err(ConflictsWithOutcome)
  {
    hide InboxOk, KeptResult, EventId, Near, Refusal, AllTimeouts, VerdictStatus, Noted;
    var r := c.submission.rttId;
    NearFacts(c, s0, w);
    var a := w.store.attempts[r];
    if a.state == Created {
      TimeoutRecords(w.store, r, at);
    }
  }

  lemma TimeoutRecords(s: Store, r: string, at: int)
    requires r in s.attempts && s.attempts[r].rttId == r && s.attempts[r].state == Created && Generated(r)
    requires s.attempts[r].planId in s.plans && s.plans[s.attempts[r].planId].planId == s.attempts[r].planId
    requires s.plans[s.attempts[r].planId].current == Some(r)
    ensures var result := Record(s, r, Fail("MPESA_CALLBACK_TIMEOUT", ReconciliationRequired, 0), at);
            && result.Ok?
            && var s' := result.value.0;
               var id := s.attempts[r].planId;
               && r in s'.attempts && s'.attempts[r].state == Unresolved && id in s'.plans
               && s'.attempts[r].failureCode == Some("MPESA_CALLBACK_TIMEOUT")
               && s'.plans[id].status == AwaitingEvidence && s'.plans[id].current == Some(r)
  {
    hide Strip;
  }
}
