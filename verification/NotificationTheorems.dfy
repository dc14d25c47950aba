/** What every run of settlement and SMS delivery guarantees, stated on the stores
    and on the list of messages handed to the gateway. */
module NotificationTheorems {
  import opened Prelude
  import opened Notifications
  import opened NotificationRuns
  import E = Execution
  import X = ExecutionRuns
  import T = ExecutionTheorems

  ghost function NotificationsOf(s: Store, uttId: string): set<NotificationId> {
    set id | id in s.notifications && s.notifications[id].uttId == uttId
  }

  /** One finalized plan, whose only winner the evidence names. */
  ghost predicate NamesTheWinner(x: E.Store, e: Evidence) {
    && E.Linked(x, e.uttId)
    && var p := x.plans[x.planByUtt[e.uttId]];
    && p.status == E.Finalized && e.rttId in T.AttemptsOf(x, p.planId) && x.attempts[e.rttId].state == E.Succeeded
    && (forall r :: r in T.AttemptsOf(x, p.planId) && x.attempts[r].state == E.Succeeded ==> r == e.rttId)
  }

  /** In every reachable state: evidence exists only for a finalized plan, names its
      only successful attempt, and comes with exactly one message to each side. */
  lemma {:induction false} SettledOnce(actions: seq<Action>, uttId: string)
    requires uttId in Exec(START, actions).store.evidence
    ensures var w := Exec(START, actions);
            var e := w.store.evidence[uttId];
            && e.uttId == uttId && e.id.uttId == uttId && NamesTheWinner(w.exec.store, e)
            && NotificationsOf(w.store, uttId) == {NotificationId(e.id, Sender), NotificationId(e.id, Receiver)}
            && w.store.notifications[NotificationId(e.id, Sender)].role == Sender
            && w.store.notifications[NotificationId(e.id, Receiver)].role == Receiver
  {
    hide Exec, Inv, NamesTheWinner;
    ReachableInv(actions);
    StoredIsSettled(Exec(START, actions), uttId);
  }

  lemma StoredIsSettled(w: World, uttId: string)
    requires Inv(w) && uttId in w.store.evidence
    ensures var e := w.store.evidence[uttId];
            && e.uttId == uttId && e.id.uttId == uttId && NamesTheWinner(w.exec.store, e)
            && NotificationsOf(w.store, uttId) == {NotificationId(e.id, Sender), NotificationId(e.id, Receiver)}
            && w.store.notifications[NotificationId(e.id, Sender)].role == Sender
            && w.store.notifications[NotificationId(e.id, Receiver)].role == Receiver
  {
    hide X.Inv, SmsOk, NamesTheWinner;
    var e := w.store.evidence[uttId];
    assert EvidenceOk(w.exec.store, w.store, uttId);
    EvidenceNamesWinner(w, e);
    forall id | id in w.store.notifications && w.store.notifications[id].uttId == uttId
      ensures id in {NotificationId(e.id, Sender), NotificationId(e.id, Receiver)} {
      assert NotificationOk(w.store, id);
    }
    assert NotificationOk(w.store, NotificationId(e.id, Sender))
           && NotificationOk(w.store, NotificationId(e.id, Receiver));
  }

  lemma ExecInv(w: World)
    requires Inv(w)
    ensures X.Inv(w.exec)
  {
    hide X.Inv;
  }

  lemma EvidenceNamesWinner(w: World, e: Evidence)
    requires X.Inv(w.exec) && Won(w.exec.store, e.uttId, e.rttId)
    ensures NamesTheWinner(w.exec.store, e)
  {
    hide X.Inv, Strip;
    var x := w.exec.store;
    var id :| WonBy(x, id, e.uttId, e.rttId);
    X.InvKeyed(w.exec);
    T.IndexFacts(w.exec, id);
    T.PlanHasOneWinner(w.exec, id);
    assert T.Won(x, x.plans[id], Strip(e.rttId));
  }

  // ------------------------------------------------------------ nothing is lost

  /** Evidence stays; a finished row never changes; no row goes back. */
  ghost predicate Kept(s: Store, s': Store) {
    && (forall u :: u in s.evidence ==> u in s'.evidence && s'.evidence[u] == s.evidence[u])
    && SmsKept(s, s')
  }

  ghost predicate SmsKept(s: Store, s': Store) {
    forall id :: id in s.notifications ==>
      && id in s'.notifications && s.notifications[id].version <= s'.notifications[id].version
      && (FinalSms(s.notifications[id].state) ==> s'.notifications[id] == s.notifications[id])
  }

  lemma MoveKeeps(w: World, k: int, before: Notification, after: Notification, next: Relay)
    requires SmsSnapshot(w.store, before) && !FinalSms(before.state) && after.state != Prepared
    requires after == before.(state := after.state, code := after.code, reference := after.reference,
                              version := before.version + 1, updatedAt := after.updatedAt)
    ensures Kept(w.store, Move(w, k, before, after, next).store)
  {
    hide Move;
    MoveShape(w, k, before, after, next);
  }

  lemma StepKeeps(w: World, a: Action)
    requires Inv(w)
    ensures Kept(w.store, Do(w, a).store)
  {
    hide X.Inv, X.Do, SettlementOk, Move, CommitRequest, Kept, FinishSms, AfterReply;
    HeldOk(w, a);
    NothingLost(w.store);
    if a.Advance? && RelayOf(w, a.worker).Holding? {
      var n := RelayOf(w, a.worker).row;
      if n.state == Dispatching {
        FinishShape(n, Unknown, SMS_BLOCKED, None, a.at);
        MoveKeeps(w, a.worker, n, FinishSms(n, Unknown, SMS_BLOCKED, None, a.at), Off);
      } else {
        MoveKeeps(w, a.worker, n, BeginSms(n, a.at), MustSend(BeginSms(n, a.at)));
      }
    } else if a.Finish? && RelayOf(w, a.worker).Called? {
      var r := RelayOf(w, a.worker);
      ReplyShape(r.row, r.reply, a.at);
      MoveKeeps(w, a.worker, r.row, AfterReply(r.row, r.reply, a.at), Off);
    } else if a.CommitEvidence? && ConfirmerOf(w, a.worker).SawBoth? {
      var c := ConfirmerOf(w, a.worker);
      CommitKeeps(w.store, c.request, c.attempt.rttId);
    }
  }

  lemma NothingLost(s: Store)
    ensures Kept(s, s)
  {
  }

  lemma HeldOk(w: World, a: Action)
    requires Inv(w)
    ensures !a.Execute? ==> RelayOk(w.store, w.sends, RelayOf(w, a.worker))
  {
    hide X.Inv, SettlementOk, SendsOk, OneSender, RelayOk;
    if !a.Execute? { HeldRow(w, a.worker); }
  }

  lemma FinishShape(n: Notification, state: SmsState, code: string, reference: Option<string>, at: int)
    requires FinalSms(state)
    ensures var after := FinishSms(n, state, code, reference, at);
            after.state == state && after == n.(state := after.state, code := after.code, reference := after.reference,
                                                version := n.version + 1, updatedAt := after.updatedAt)
  {
  }

  lemma ReplyShape(n: Notification, reply: Reply, at: int)
    ensures var after := AfterReply(n, reply, at);
            FinalSms(after.state) && after == n.(state := after.state, code := after.code, reference := after.reference,
                                                 version := n.version + 1, updatedAt := after.updatedAt)
  {
  }

  lemma CommitKeeps(s: Store, q: Request, rttId: string)
    ensures CommitRequest(s, q, rttId).Ok? ==> Kept(s, CommitRequest(s, q, rttId).value.0)
  {
    hide Strip;
  }

  lemma {:induction false} RunKeeps(w: World, actions: seq<Action>)
    requires Inv(w)
    ensures Kept(w.store, Exec(w, actions).store)
    decreases |actions|
  {
    hide Inv, Do;
    if actions != [] {
      StepKeeps(w, actions[0]);
      StepKeepsInv(w, actions[0]);
      RunKeeps(Do(w, actions[0]), actions[1..]);
    }
  }

  /** Evidence, once stored, is the evidence for ever, its plan stays finalized with
      the same winner, and SENT, REJECTED and UNKNOWN are never left. */
  lemma {:induction false} SettlementsStay(before: seq<Action>, after: seq<Action>)
    ensures Kept(Exec(START, before).store, Exec(Exec(START, before), after).store)
    ensures var s, w := Exec(START, before).store, Exec(Exec(START, before), after);
            forall u :: u in s.evidence ==> NamesTheWinner(w.exec.store, s.evidence[u])
  {
    hide Exec, SmsOk, NamesTheWinner, X.Inv;
    var w0 := Exec(START, before);
    var w := Exec(w0, after);
    ReachableInv(before);
    RunKeeps(w0, after);
    RunKeepsInv(w0, after);
    forall u | u in w0.store.evidence ensures NamesTheWinner(w.exec.store, w0.store.evidence[u]) {
      assert EvidenceOk(w.exec.store, w.store, u);
      EvidenceNamesWinner(w, w.store.evidence[u]);
    }
  }

  // ---------------------------------------------------------------- replays

  /** A second confirmation never changes anything: with the same identity it is
      answered from the store, with another it is refused. */
  lemma {:induction false} ReplayAnswersStored(actions: seq<Action>, q: Request)
    requires q.uttId in Exec(START, actions).store.evidence
    ensures var w := Exec(START, actions);
            var e := w.store.evidence[q.uttId];
            match Confirm(w.exec.store, w.store, q)
            case Ok((s, answer)) =>
              && s == w.store && IdentityOf(q) == e.id && answer.replayed && answer.evidence == e
              && NotificationId(e.id, Sender) in w.store.notifications
              && answer.sender == w.store.notifications[NotificationId(e.id, Sender)]
              && NotificationId(e.id, Receiver) in w.store.notifications
              && answer.receiver == w.store.notifications[NotificationId(e.id, Receiver)]
            case Err(error) =>
              && error in {UttNotFound, InvalidUtt, MissingReference, SigningRefused, TooLong, ConflictingEvidence}
              && (error == ConflictingEvidence <==> Proper(q))
    ensures var w := Exec(START, actions);
            Confirm(w.exec.store, w.store, q).Ok? <==> Proper(q) && IdentityOf(q) == w.store.evidence[q.uttId].id
  {
    hide Exec, X.Inv, SmsOk, Strip;
    ReachableInv(actions);
    var w := Exec(START, actions);
    var e := w.store.evidence[q.uttId];
    assert EvidenceOk(w.exec.store, w.store, q.uttId);
    EvidenceNamesWinner(w, e);
    WinnerIsPrevious(w, q.uttId, e.rttId);
  }

  /** A finalized plan without evidence is settled by a proper request if and only if its
      success was reported without blanks around the identifier: otherwise the attempt it keeps is
      never found, and the transaction is never settled nor its parties told. */
  lemma {:induction false} SettlesIffUnpadded(actions: seq<Action>, q: Request)
    requires var w := Exec(START, actions);
             && PlanFor(w.exec.store, q.uttId).Some? && PlanFor(w.exec.store, q.uttId).value.status == E.Finalized
             && q.uttId !in w.store.evidence
    ensures var w := Exec(START, actions);
            var previous := PlanFor(w.exec.store, q.uttId).value.previousRtt;
            && previous.Some?
            && (Confirm(w.exec.store, w.store, q).Ok? <==> Proper(q) && Strip(previous.value) == previous.value)
  {
    hide Exec, X.Inv, SmsOk, Strip;
    ReachableInv(actions);
    var w := Exec(START, actions);
    X.InvKeyed(w.exec);
    PlanForIsPlanned(w.exec, q.uttId);
    T.PlanHasOneWinner(w.exec, PlanFor(w.exec.store, q.uttId).value.planId);
    assert NotificationOk(w.store, Message(q, Sender).id) && NotificationOk(w.store, Message(q, Receiver).id);
  }

  lemma WinnerIsPrevious(w: World, uttId: string, rttId: string)
    requires X.Inv(w.exec) && Won(w.exec.store, uttId, rttId)
    ensures var x := w.exec.store;
            && PlanFor(x, uttId).Some? && PlanFor(x, uttId).value.status == E.Finalized
            && PlanFor(x, uttId).value.previousRtt == Some(rttId)
            && AttemptFor(x, rttId).Some? && AttemptFor(x, rttId).value.state == E.Succeeded
  {
    var id :| WonBy(w.exec.store, id, uttId, rttId);
    hide X.Inv;
    T.IndexFacts(w.exec, id);
  }

  // ---------------------------------------------------------------- sending

  /** However many relays run and wherever they crash, the gateway is handed each
      notification at most once, and no row claims an answer it did not get. */
  lemma {:induction false} SentAtMostOnce(actions: seq<Action>)
    ensures var w := Exec(START, actions);
            && Distinct(w.sends)
            && (forall id :: id in w.sends ==>
                  id in w.store.notifications && w.store.notifications[id].state != Prepared)
            && (forall id :: id in w.store.notifications && w.store.notifications[id].state in {Sent, Rejected} ==>
                  id in w.sends)
  {
    hide Exec, X.Inv, SettlementOk, RelayOk, OneSender;
    ReachableInv(actions);
  }

  // ---------------------------------------------------- steps make the whole

  lemma MoveIsFinishOnce(w: World, k: int, before: Notification, after: Notification, sent: bool)
    ensures Move(w, k, before, after, Off).store == FinishOnce(w.store, before, after, sent).store
    ensures Move(w, k, before, after, Off).sends == w.sends && RelayOf(Move(w, k, before, after, Off), k) == Off
  {
  }

  lemma OffStays(w: World, k: int, reply: Reply, at: int)
    requires RelayOf(w, k) == Off
    ensures DoAdvance(w, k, at) == w && DoSend(w, k, reply) == w && DoFinish(w, k, at) == w
  {
  }

  /** A relay that is never interrupted does exactly what deliver does. */
  lemma UninterruptedRelayDelivers(w: World, k: int, id: NotificationId, reply: Reply, at: int)
    ensures var w' := DoFinish(DoSend(DoAdvance(DoTake(w, k, id), k, at), k, reply), k, at);
            var d := DeliverOnce(w.store, id, reply, at);
            w'.store == d.store && w'.sends == w.sends + (if d.sent then [id] else [])
    requires id in w.store.notifications ==> w.store.notifications[id].id == id
  {
    hide FinishSms, AfterReply, FinalSms, Move;
    var w1 := DoTake(w, k, id);
    if RelayOf(w1, k) == Off {
      OffStays(w1, k, reply, at);
    } else {
      var n := w.store.notifications[id];
      if n.state == Dispatching {
        MoveIsFinishOnce(w1, k, n, FinishSms(n, Unknown, SMS_BLOCKED, None, at), false);
        OffStays(DoAdvance(w1, k, at), k, reply, at);
      } else {
        FreshDelivery(w1, k, n, reply, at);
      }
    }
  }

  lemma FreshDelivery(w: World, k: int, n: Notification, reply: Reply, at: int)
    requires RelayOf(w, k) == Holding(n) && n.state != Dispatching
    ensures var w' := DoFinish(DoSend(DoAdvance(w, k, at), k, reply), k, at);
            match TransitionNotification(w.store, n.version, BeginSms(n, at))
            case Err(_) => w'.store == w.store && w'.sends == w.sends
            case Ok(s) =>
              && w'.store == FinishOnce(s, BeginSms(n, at), AfterReply(BeginSms(n, at), reply, at), true).store
              && w'.sends == w.sends + (if reply.NoDestination? then [] else [n.id])
  {
    hide AfterReply, FinishOnce;
    var w2 := DoAdvance(w, k, at);
    if RelayOf(w2, k).MustSend? {
      var w3 := DoSend(w2, k, reply);
      MoveIsFinishOnce(w3, k, BeginSms(n, at), AfterReply(BeginSms(n, at), reply, at), true);
    } else {
      OffStays(w2, k, reply, at);
    }
  }

  /** A confirmer that is never interrupted does exactly what confirmation does. */
  lemma UninterruptedConfirmerConfirms(w: World, k: int, q: Request)
    ensures var w' := DoCommitEvidence(DoReadAttempt(DoReadPlan(w, k, q), k), k);
            w'.store == (match Confirm(w.exec.store, w.store, q) case Ok((s, _)) => s case Err(_) => w.store)
  {
    hide AttemptProblem, CommitRequest;
  }
}
