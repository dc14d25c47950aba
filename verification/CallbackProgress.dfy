/** Progress in the world of CallbackSettlement: after any run, what one more delivery of
    a believed success brings about. */
module CallbackProgress {
  import opened Prelude
  import opened Callbacks
  import opened CallbackSettlement
  import E = Execution
  import O = Operations
  import X = ExecutionRuns
  import T = ExecutionTheorems
  import M = Notifications
  import N = NotificationRuns
  import NT = NotificationTheorems

  // -------------------------------------------------- recording the outcome

  /** The operation a success callback performs on an attempt in this state. */
  function SuccessOp(d: Desk, sub: O.Submission, p: Payload, state: E.AttemptState): E.Operation {
    if state == E.Created then E.Succeed(0)
    else E.Resolve(true, FailureCode(p), FailureKind(ConfigFor(d, sub), p), 0)
  }

  function Recorded(x: X.World, k: int, r: string, op: E.Operation, at: int): X.World {
    X.Do(X.Do(X.Do(x, X.ReadAttempt(k, r, op)), X.ReadPlan(k)), X.CommitOutcome(k, at))
  }

  ghost predicate Finalizes(x: X.World, x': X.World, r: string) {
    && r in x.store.attempts && r in x'.store.attempts && x'.store.attempts[r].state == E.Succeeded
    && x'.store.attempts[r].rttId == r && x'.store.planByUtt == x.store.planByUtt && x'.log != x.log
    && var id := x.store.attempts[r].planId;
       && id in x'.store.plans && x'.store.plans[id].status == E.Finalized && x'.store.plans[id].previousRtt == Some(r)
  }

  /** Recording a success on an open attempt finalizes its plan if the plan's marker is
      the attempt's own identifier, and otherwise changes nothing. */
  lemma RecordsIfMarked(d: Desk, sub: O.Submission, p: Payload, x: X.World, k: int, r: string, at: int)
    requires X.Inv(x) && r in x.store.attempts && T.Open(x.store.attempts[r])
    ensures var a := x.store.attempts[r];
            var x' := Recorded(x, k, r, SuccessOp(d, sub, p, a.state), at);
            && a.planId in x.store.plans && !T.Closed(x.store.plans[a.planId])
            && (if x.store.plans[a.planId].current == Some(r) then Finalizes(x, x', r)
                else x'.store == x.store && x'.log == x.log)
  {
    hide X.Inv, Strip, FailureCode, FailureKind, T.Closed;
    var a := x.store.attempts[r];
    var op := SuccessOp(d, sub, p, a.state);
    X.InvKeyed(x);
    T.AttemptOfItsPlan(x, r);
    OpenPlan(x, r);
    var plan := x.store.plans[a.planId];
    var x1 := X.Do(x, X.ReadAttempt(k, r, op));
    assert X.LocalOf(x1, k) == X.SawAttempt(op, r, a);
    var x2 := X.Do(x1, X.ReadPlan(k));
    assert X.LocalOf(x2, k) == X.SawBoth(op, r, a, plan);
    CommitIfMarked(d, sub, p, x2, k, r, a, plan, at);
  }

  /** An open attempt has an open plan, awaiting evidence if the attempt does. */
  lemma OpenPlan(x: X.World, r: string)
    requires X.Inv(x) && r in x.store.attempts && T.Open(x.store.attempts[r])
    requires x.store.attempts[r].planId in x.store.plans && r in T.AttemptsOf(x.store, x.store.attempts[r].planId)
    ensures var a := x.store.attempts[r];
            var p := x.store.plans[a.planId];
            && !T.Closed(p) && p.current.Some?
            && (a.state == E.Unresolved ==> p.status == E.AwaitingEvidence)
  {
    hide X.Inv, Strip, X.CanStart;
    var id := x.store.attempts[r].planId;
    T.ChainLength(x, id);
    T.StateByPlace(x, id, r);
    T.CurrentIsOpen(x, id);
  }

  lemma CommitIfMarked(d: Desk, sub: O.Submission, p: Payload, x: X.World, k: int, r: string, a: E.Attempt,
                       plan: E.Plan, at: int)
    requires X.LocalOf(x, k) == X.SawBoth(SuccessOp(d, sub, p, a.state), r, a, plan)
    requires r in x.store.attempts && x.store.attempts[r] == a && a.rttId == r && T.Open(a) && a.planId == plan.planId
    requires plan.planId in x.store.plans && x.store.plans[plan.planId] == plan
    requires a.state == E.Unresolved ==> plan.status == E.AwaitingEvidence
    ensures var x' := X.Do(x, X.CommitOutcome(k, at));
            if plan.current == Some(r) then Finalizes(x, x', r) else x'.store == x.store && x'.log == x.log
  {
    hide FailureCode, FailureKind;
  }

  // ------------------------------------------------------------- settlement

  /** The settlement service, asked for this callback, will not refuse for the request's own sake. */
  predicate Answers(sheet: M.Request, p: Payload) {
    && sheet.uttFound && sheet.signatureValid && sheet.signs && |sheet.senderBody| <= 320 && |sheet.receiverBody| <= 320
    && p.transactionId.Some? && Strip(p.transactionId.value) != ""
  }

  lemma {:induction false} StripKeepsFirst(s: string)
    requires s != "" && !Blank(s[0])
    ensures Strip(s) != ""
    decreases |s|
  {
    hide Blank;
    if Blank(s[|s| - 1]) { StripKeepsFirst(s[..|s| - 1]); }
  }

  lemma EventIdNotBlank(conversationId: string)
    ensures Strip(EventId(ResultCallback, conversationId)) != ""
  {
    assert EventId(ResultCallback, conversationId)[0] == 'M';
    StripKeepsFirst(EventId(ResultCallback, conversationId));
  }

  /** A transaction whose plan is still open has neither evidence nor messages. */
  lemma OpenIsUnsettled(b: N.World, r: string, id: M.NotificationId)
    requires N.Inv(b) && r in b.exec.store.attempts && T.Open(b.exec.store.attempts[r])
    requires id.evidence.uttId == b.exec.store.attempts[r].uttId
    ensures b.exec.store.attempts[r].uttId !in b.store.evidence && id !in b.store.notifications
  {
    hide X.Inv, N.SmsOk, Strip;
    var u := b.exec.store.attempts[r].uttId;
    T.AttemptOfItsPlan(b.exec, r);
    OpenPlan(b.exec, r);
    assert N.EvidenceOk(b.exec.store, b.store, u);
    if u in b.store.evidence { NT.WinnerIsPrevious(b, u, b.store.evidence[u].rttId); }
    assert N.NotificationOk(b.store, id);
  }

  /** From a finalized plan: the three steps of a confirmation store the evidence. */
  lemma Settles(b: N.World, k: int, q: M.Request, r: string, id: string)
    requires E.Linked(b.exec.store, q.uttId) && b.exec.store.planByUtt[q.uttId] == id && r in b.exec.store.attempts
    requires b.exec.store.plans[id].status == E.Finalized && b.exec.store.plans[id].previousRtt == Some(r)
    requires b.exec.store.attempts[r].state == E.Succeeded && b.exec.store.attempts[r].rttId == r
    requires M.Proper(q) && q.uttId !in b.store.evidence
    requires forall role :: M.NotificationId(M.IdentityOf(q), role) !in b.store.notifications
    ensures var b2 := N.Do(N.Do(b, N.ReadPlan(k, q)), N.ReadAttempt(k));
            && b2.exec == b.exec && N.ConfirmerOf(b2, k) == N.SawBoth(q, b.exec.store.attempts[r])
            && b2.store == b.store && M.CommitRequest(b2.store, q, r).Ok?
  {
    hide Strip;
    var plan, a := b.exec.store.plans[id], b.exec.store.attempts[r];
    var b1 := N.Do(b, N.ReadPlan(k, q));
    assert M.PlanFor(b.exec.store, q.uttId) == Some(plan);
    assert N.ConfirmerOf(b1, k) == N.SawPlan(q, plan);
    assert M.AttemptFor(b1.exec.store, r) == Some(a);
  }

  // ------------------------------------------------------------ one delivery

  /** The steps of one delivery that nobody interrupts: received and looked up, recorded, settled, marked. */
  function Received(k: nat, p: Payload, at: int): seq<Action> { [Receive(k, ResultCallback, p, at), Look(k)] }

  function Recordings(k: nat, at: int): seq<Action> { [RecordRead(k), RecordPlan(k), RecordCommit(k, at)] }

  function Endings(k: nat, sheet: M.Request, at: int): seq<Action> {
    [ConfirmPlan(k, sheet), ConfirmAttempt(k), ConfirmCommit(k), Finish(k, at)]
  }

  function Delivery(k: nat, p: Payload, sheet: M.Request, at: int): seq<Action> {
    Received(k, p, at) + (Recordings(k, at) + Endings(k, sheet, at))
  }

  lemma {:induction false} ExecJoins(d: Desk, w: World, xs: seq<Action>, ys: seq<Action>)
    ensures Exec(d, w, xs + ys) == Exec(d, Exec(d, w, xs), ys)
    decreases |xs|
  {
    if xs == [] {
      assert xs + ys == ys;
    } else {
      assert (xs + ys)[1..] == xs[1..] + ys;
      ExecJoins(d, Do(d, w, xs[0]), xs[1..], ys);
    }
  }

  lemma {:induction false} ExecFirst(d: Desk, w: World, a: Action, rest: seq<Action>)
    ensures Exec(d, w, [a] + rest) == Exec(d, Do(d, w, a), rest)
  {
    hide Do;
    assert ([a] + rest)[1..] == rest;
  }

  lemma {:induction false} ExecTwo(d: Desk, w: World, a: Action, b: Action)
    ensures Exec(d, w, [a, b]) == Do(d, Do(d, w, a), b)
  {
    hide Do;
    assert [a] + [b] == [a, b] && [b] + [] == [b];
    ExecFirst(d, w, a, [b]);
    ExecFirst(d, Do(d, w, a), b, []);
  }

  lemma {:induction false} ExecThree(d: Desk, w: World, a: Action, b: Action, e: Action)
    ensures Exec(d, w, [a, b, e]) == Do(d, Do(d, Do(d, w, a), b), e)
  {
    hide Do, Exec;
    assert [a] + [b, e] == [a, b, e];
    ExecFirst(d, w, a, [b, e]);
    ExecTwo(d, Do(d, w, a), b, e);
  }

  lemma {:induction false} ExecFour(d: Desk, w: World, a: Action, b: Action, e: Action, f: Action)
    ensures Exec(d, w, [a, b, e, f]) == Do(d, Do(d, Do(d, Do(d, w, a), b), e), f)
  {
    hide Do, Exec;
    assert [a] + [b, e, f] == [a, b, e, f];
    ExecFirst(d, w, a, [b, e, f]);
    ExecThree(d, Do(d, w, a), b, e, f);
  }

  /** A success callback that is found, believed, of a body that is not another than the
      one kept, for an attempt without final outcome of the submission's transaction. */
  ghost predicate Believed(d: Desk, w: World, p: Payload, sub: O.Submission) {
    && d.find(p.conversationId) == Some(sub) && p.resultCode == 0
    && Refusal(ConfigFor(d, sub), ResultCallback, p).None?
    && (EventId(ResultCallback, p.conversationId) in w.inbox ==>
          w.inbox[EventId(ResultCallback, p.conversationId)].digest == OfPayload(p))
    && sub.rttId in w.base.exec.store.attempts && T.Open(w.base.exec.store.attempts[sub.rttId])
    && w.base.exec.store.attempts[sub.rttId].uttId == sub.uttId
  }

  ghost predicate Kept(inbox: Inbox, p: Payload, state: InboxState) {
    var id := EventId(ResultCallback, p.conversationId);
    id in inbox && inbox[id].digest == OfPayload(p) && inbox[id].state == state
  }

  /** Received: the handler is about to record the success. */
  lemma {:induction false} ReceivedRecords(d: Desk, w: World, k: nat, p: Payload, sub: O.Submission, at: int)
    requires Inv(d, w) && Believed(d, w, p, sub)
    ensures var w' := Exec(d, w, Received(k, p, at));
            && w'.base == w.base && Kept(w'.inbox, p, InboxState.Received)
            && HandlerOf(w', k) == Recording(ResultCallback, p, sub,
                                             SuccessOp(d, sub, p, w.base.exec.store.attempts[sub.rttId].state))
  {
    hide Exec, N.Inv, HandlersOk, EventId, Refusal, FailureCode, FailureKind;
    ExecTwo(d, w, Receive(k, ResultCallback, p, at), Look(k));
    NotYetApplied(d, w, p, sub);
    var w1 := Do(d, w, Receive(k, ResultCallback, p, at));
    assert HandlerOf(w1, k) == Took(ResultCallback, p, sub);
  }

  lemma NotYetApplied(d: Desk, w: World, p: Payload, sub: O.Submission)
    requires Inv(d, w) && Believed(d, w, p, sub)
    ensures EventId(ResultCallback, p.conversationId) in w.inbox ==> Kept(w.inbox, p, InboxState.Received)
  {
    hide N.Inv, HandlersOk, EventId, Refusal, Evidenced;
  }

  /** Recorded: the handler goes on if and only if the plan's marker is the RTT's own identifier. */
  lemma {:induction false} RecordingFinishes(d: Desk, w: World, k: nat, p: Payload, sub: O.Submission, at: int)
    requires X.Inv(w.base.exec) && sub.rttId in w.base.exec.store.attempts
    requires T.Open(w.base.exec.store.attempts[sub.rttId])
    requires HandlerOf(w, k) == Recording(ResultCallback, p, sub,
                                          SuccessOp(d, sub, p, w.base.exec.store.attempts[sub.rttId].state))
    ensures var w' := Exec(d, w, Recordings(k, at));
            var r := sub.rttId;
            var id := w.base.exec.store.attempts[r].planId;
            && w'.inbox == w.inbox && w'.base.store == w.base.store && id in w.base.exec.store.plans
            && (if w.base.exec.store.plans[id].current == Some(r)
                then Finalizes(w.base.exec, w'.base.exec, r) && HandlerOf(w', k) == Finishing(ResultCallback, p, sub)
                else w'.base.exec.store == w.base.exec.store && HandlerOf(w', k) == Free)
  {
    hide Exec, X.Inv, X.Do, SuccessOp, T.Open, Finalizes;
    ExecThree(d, w, RecordRead(k), RecordPlan(k), RecordCommit(k, at));
    var r, x := sub.rttId, w.base.exec;
    var op := SuccessOp(d, sub, p, x.store.attempts[r].state);
    RecordsIfMarked(d, sub, p, x, Own(k), r, at);
    var w1 := Do(d, w, RecordRead(k));
    assert HandlerOf(w1, k) == Reading(ResultCallback, p, sub, op);
    var w2 := Do(d, w1, RecordPlan(k));
    assert HandlerOf(w2, k) == Reading(ResultCallback, p, sub, op);
    var w3 := Do(d, w2, RecordCommit(k, at));
    assert w3.base.exec == Recorded(x, Own(k), r, op, at);
    ReadsLogNothing(x, Own(k), r, op);
    FinalizesLogs(x, w3.base.exec, r);
  }

  lemma ReadsLogNothing(x: X.World, k: int, r: string, op: E.Operation)
    ensures var x2 := X.Do(X.Do(x, X.ReadAttempt(k, r, op)), X.ReadPlan(k)); x2.log == x.log && x2.store == x.store
  {
    hide E.FindAttempt;
  }

  lemma FinalizesLogs(x: X.World, x': X.World, r: string)
    ensures Finalizes(x, x', r) ==> x'.log != x.log
  {
  }

  /** Settled: evidence is stored for the callback and the callback is marked. */
  lemma {:induction false} EndingSettles(d: Desk, w: World, k: nat, p: Payload, sub: O.Submission, sheet: M.Request,
                                         id: string, at: int)
    requires HandlerOf(w, k) == Finishing(ResultCallback, p, sub) && p.resultCode == 0 && Answers(sheet, p)
    requires d.settles
    requires Kept(w.inbox, p, InboxState.Received) && sub.uttId !in w.base.store.evidence
    requires forall n :: n in w.base.store.notifications ==> n.evidence.uttId != sub.uttId
    requires E.Linked(w.base.exec.store, sub.uttId) && w.base.exec.store.planByUtt[sub.uttId] == id
    requires sub.rttId in w.base.exec.store.attempts
    requires w.base.exec.store.plans[id].status == E.Finalized
    requires w.base.exec.store.plans[id].previousRtt == Some(sub.rttId)
    requires var a := w.base.exec.store.attempts[sub.rttId]; a.state == E.Succeeded && a.rttId == sub.rttId
    ensures var w' := Exec(d, w, Endings(k, sheet, at));
            && w'.base.exec == w.base.exec && Evidenced(w'.base.store, sub, p) && Kept(w'.inbox, p, Applied)
            && w'.base.store.evidence[sub.uttId].rttId == sub.rttId
  {
    hide Exec, EventId, Strip, Do, Evidenced, N.Do, M.CommitRequest;
    ExecFour(d, w, ConfirmPlan(k, sheet), ConfirmAttempt(k), ConfirmCommit(k), Finish(k, at));
    EventIdNotBlank(p.conversationId);
    var q := RequestFor(sub, p, sheet);
    Settles(w.base, Own(k), q, sub.rttId, id);
    ConfirmReads(d, w, k, p, sub, sheet);
    var w2 := Do(d, Do(d, w, ConfirmPlan(k, sheet)), ConfirmAttempt(k));
    ConfirmCommits(d, w2, k, p, sub, sheet, w.base.exec.store.attempts[sub.rttId]);
    SettledMarks(d, Do(d, w2, ConfirmCommit(k)), k, p, sub, at);
  }

  lemma ConfirmReads(d: Desk, w: World, k: nat, p: Payload, sub: O.Submission, sheet: M.Request)
    requires HandlerOf(w, k) == Finishing(ResultCallback, p, sub) && p.resultCode == 0 && d.settles
    ensures var w2 := Do(d, Do(d, w, ConfirmPlan(k, sheet)), ConfirmAttempt(k));
            var q := RequestFor(sub, p, sheet);
            && w2.base == N.Do(N.Do(w.base, N.ReadPlan(Own(k), q)), N.ReadAttempt(Own(k)))
            && w2.inbox == w.inbox && HandlerOf(w2, k) == Confirming(ResultCallback, p, sub, q)
  {
    hide N.Do, RequestFor;
    assert HandlerOf(Do(d, w, ConfirmPlan(k, sheet)), k)
           == Confirming(ResultCallback, p, sub, RequestFor(sub, p, sheet));
  }

  lemma ConfirmCommits(d: Desk, w: World, k: nat, p: Payload, sub: O.Submission, sheet: M.Request, a: E.Attempt)
    requires HandlerOf(w, k) == Confirming(ResultCallback, p, sub, RequestFor(sub, p, sheet))
    requires N.ConfirmerOf(w.base, Own(k)) == N.SawBoth(RequestFor(sub, p, sheet), a)
    requires sub.uttId !in w.base.store.evidence && p.transactionId.Some?
    requires M.CommitRequest(w.base.store, RequestFor(sub, p, sheet), a.rttId).Ok?
    ensures var w' := Do(d, w, ConfirmCommit(k));
            && w'.base.exec == w.base.exec && w'.inbox == w.inbox && HandlerOf(w', k) == Settled(ResultCallback, p, sub)
            && Evidenced(w'.base.store, sub, p) && w'.base.store.evidence[sub.uttId].rttId == a.rttId
  {
    hide M.CommitRequest, EventId, Strip;
    AcceptedIsStored(w.base.store, RequestFor(sub, p, sheet), a.rttId);
    AcceptedNamesRtt(w.base.store, RequestFor(sub, p, sheet), a.rttId);
  }

  lemma SettledMarks(d: Desk, w: World, k: nat, p: Payload, sub: O.Submission, at: int)
    requires HandlerOf(w, k) == Settled(ResultCallback, p, sub) && Kept(w.inbox, p, InboxState.Received)
    ensures var w' := Do(d, w, Finish(k, at)); w'.base == w.base && Kept(w'.inbox, p, Applied)
  {
    hide EventId;
  }

  lemma AcceptedNamesRtt(s: M.Store, q: M.Request, rttId: string)
    requires M.CommitRequest(s, q, rttId).Ok? && q.uttId !in s.evidence
    ensures var s' := M.CommitRequest(s, q, rttId).value.0;
            q.uttId in s'.evidence && s'.evidence[q.uttId].rttId == rttId
  {
    hide Strip;
  }

  lemma {:induction false} FreeStays(d: Desk, w: World, k: nat, sheet: M.Request, at: int)
    requires HandlerOf(w, k) == Free
    ensures Exec(d, w, Endings(k, sheet, at)) == w
  {
    hide Exec;
    ExecFour(d, w, ConfirmPlan(k, sheet), ConfirmAttempt(k), ConfirmCommit(k), Finish(k, at));
  }

  /** Without a settlement service the callback is marked and nothing is settled. */
  lemma {:induction false} EndingMarks(d: Desk, w: World, k: nat, p: Payload, sub: O.Submission, sheet: M.Request,
                                       at: int)
    requires HandlerOf(w, k) == Finishing(ResultCallback, p, sub) && !d.settles && Kept(w.inbox, p, InboxState.Received)
    ensures var w' := Exec(d, w, Endings(k, sheet, at)); w'.base == w.base && Kept(w'.inbox, p, Applied)
  {
    hide Exec, EventId;
    ExecFour(d, w, ConfirmPlan(k, sheet), ConfirmAttempt(k), ConfirmCommit(k), Finish(k, at));
  }

  /** After any run, let a believed success arrive for an RTT without final outcome, and let
      nobody interrupt its handler. If the plan's in-flight marker is the RTT's own
      identifier, the RTT succeeds, the callback is marked applied, and its transaction is
      settled by this callback exactly if a settlement service is configured. If it is a
      padded spelling, nothing is recorded or settled and the callback stays unmarked. */
  lemma {:induction false} DeliverySettlesIffMarked(d: Desk, actions: seq<Action>, k: nat, p: Payload,
                                                    sub: O.Submission, sheet: M.Request, at: int)
    requires Believed(d, Exec(d, START, actions), p, sub) && (d.settles ==> Answers(sheet, p))
    ensures var w := Exec(d, START, actions);
            var w' := Exec(d, w, Delivery(k, p, sheet, at));
            var id := w.base.exec.store.attempts[sub.rttId].planId;
            && id in w.base.exec.store.plans
            && (if w.base.exec.store.plans[id].current == Some(sub.rttId) then
                  && Succeeded(w'.base.exec.store, sub.rttId) && Kept(w'.inbox, p, Applied)
                  && (if d.settles
                      then Evidenced(w'.base.store, sub, p) && w'.base.store.evidence[sub.uttId].rttId == sub.rttId
                      else w'.base.store == w.base.store && sub.uttId !in w'.base.store.evidence)
                else
                  && w'.base.exec.store == w.base.exec.store && w'.base.store == w.base.store
                  && Kept(w'.inbox, p, InboxState.Received))
  {
    hide Exec, Inv, Believed, Answers, Kept, Evidenced, N.Inv, X.Inv, SuccessOp, T.Open, Finalizes, Received,
         Recordings, Endings;
    var w := Exec(d, START, actions);
    StartInv(d);
    RunKeepsInv(d, START, actions);
    Parts(d, w, p, sub);
    ReceivedRecords(d, w, k, p, sub, at);
    var w1 := Exec(d, w, Received(k, p, at));
    RecordingFinishes(d, w1, k, p, sub, at);
    var w2 := Exec(d, w1, Recordings(k, at));
    ExecJoins(d, w, Received(k, p, at), Recordings(k, at) + Endings(k, sheet, at));
    ExecJoins(d, w1, Recordings(k, at), Endings(k, sheet, at));
    if HandlerOf(w2, k) == Free {
      FreeStays(d, w2, k, sheet, at);
    } else {
      Unsettled(d, w, p, sub);
      FinalizedParts(w.base.exec, w2.base.exec, sub);
      if d.settles {
        EndingSettles(d, w2, k, p, sub, sheet, w.base.exec.store.attempts[sub.rttId].planId, at);
      } else {
        EndingMarks(d, w2, k, p, sub, sheet, at);
      }
    }
  }

  lemma Parts(d: Desk, w: World, p: Payload, sub: O.Submission)
    requires Inv(d, w) && Believed(d, w, p, sub)
    ensures N.Inv(w.base) && X.Inv(w.base.exec) && p.resultCode == 0
    ensures sub.rttId in w.base.exec.store.attempts && T.Open(w.base.exec.store.attempts[sub.rttId])
    ensures w.base.exec.store.attempts[sub.rttId].uttId == sub.uttId
  {
    hide N.Inv, X.Inv, EventId, Refusal, HandlersOk, AppliedOk;
    NT.ExecInv(w.base);
  }

  lemma Unsettled(d: Desk, w: World, p: Payload, sub: O.Submission)
    requires Inv(d, w) && Believed(d, w, p, sub)
    ensures sub.uttId !in w.base.store.evidence
    ensures forall n :: n in w.base.store.notifications ==> n.evidence.uttId != sub.uttId
    ensures E.Linked(w.base.exec.store, sub.uttId)
    ensures w.base.exec.store.planByUtt[sub.uttId] == w.base.exec.store.attempts[sub.rttId].planId
  {
    hide Inv, N.Inv, X.Inv, Believed, T.Open;
    Parts(d, w, p, sub);
    T.AttemptOfItsPlan(w.base.exec, sub.rttId);
    OpenIsUnsettled(w.base, sub.rttId, M.NotificationId(M.EvidenceId(sub.uttId, "", "", "", ""), M.Sender));
    forall n: M.NotificationId | n.evidence.uttId == sub.uttId ensures n !in w.base.store.notifications {
      OpenIsUnsettled(w.base, sub.rttId, n);
    }
  }

  lemma FinalizedParts(x: X.World, x': X.World, sub: O.Submission)
    requires Finalizes(x, x', sub.rttId) && E.Linked(x.store, sub.uttId)
    requires x.store.planByUtt[sub.uttId] == x.store.attempts[sub.rttId].planId
    ensures var id := x.store.attempts[sub.rttId].planId;
            && E.Linked(x'.store, sub.uttId) && x'.store.planByUtt[sub.uttId] == id && sub.rttId in x'.store.attempts
            && x'.store.plans[id].status == E.Finalized && x'.store.plans[id].previousRtt == Some(sub.rttId)
            && var a := x'.store.attempts[sub.rttId]; a.state == E.Succeeded && a.rttId == sub.rttId
  {
  }
}
