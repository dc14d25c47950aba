/** Whom a settlement message goes to, what it says, and what is recorded of the gateway's
    reply, over every run and written out on the request that was confirmed. */
module NotificationTexts {
  import opened Prelude
  import opened Notifications
  import opened NotificationRuns
  import X = ExecutionRuns
  import NT = NotificationTheorems

  /** The identity of a settlement, from the request that asked for it. */
  ghost predicate Identifies(id: EvidenceId, q: Request) {
    && id.uttId == q.uttId && id.uttSha == q.uttSha && id.providerId == q.providerId
    && id.transactionId == Strip(q.transactionId) && id.callbackId == Strip(q.callbackId)
  }

  /** Contact and text of one side: the payer's for the sender, the beneficiary's for the receiver. */
  ghost predicate ForSide(q: Request, role: Role, contact: string, body: string) {
    match role
    case Sender => contact == q.senderContact && body == q.senderBody
    case Receiver => contact == q.receiverContact && body == q.receiverBody
  }

  /** A row carries what the confirmed request said for its side. */
  ghost predicate Carries(asked: map<string, Request>, n: Notification) {
    && n.uttId in asked && Identifies(n.id.evidence, asked[n.uttId]) && n.id.role == n.role
    && n.evidenceId == n.id.evidence && asked[n.uttId].uttId == n.uttId
    && ForSide(asked[n.uttId], n.role, n.contact, n.body) && n.createdAt == asked[n.uttId].at
  }

  ghost predicate RepliedAt(handed: seq<Sms>, id: NotificationId, reply: Reply, i: int) {
    0 <= i < |handed| && handed[i].id == id && handed[i].reply == reply
  }

  ghost predicate Replied(handed: seq<Sms>, id: NotificationId, reply: Reply) {
    exists i :: RepliedAt(handed, id, reply, i)
  }

  /** SENT and REJECTED are the gateway's own words; UNKNOWN says why nobody knows. */
  ghost predicate StateOk(handed: seq<Sms>, n: Notification) {
    match n.state
    case Prepared => n.code == None && n.reference == None
    case Dispatching => n.code == None && n.reference == None
    case Sent => exists code :: n.code == Some(Upper(code)) && Replied(handed, n.id, Answered(true, code, n.reference))
    case Rejected =>
      exists code :: n.code == Some(Upper(code)) && Replied(handed, n.id, Answered(false, code, n.reference))
    case Unknown =>
      n.reference == None
      && n.code in {Some("SMS_GATEWAY_OUTCOME_UNKNOWN"), Some("NON_IDEMPOTENT_SMS_RECOVERY_BLOCKED")}
  }

  ghost predicate HeldOk(asked: map<string, Request>, handed: seq<Sms>, r: Relay) {
    match r
    case Off => true
    case Holding(n) => Carries(asked, n) && n.code == None && n.reference == None
    case MustSend(n) => Carries(asked, n) && n.code == None && n.reference == None
    case Called(n, reply) =>
      Carries(asked, n) && n.code == None && n.reference == None && (reply.Answered? ==> Replied(handed, n.id, reply))
  }

  ghost predicate HandedOk(asked: map<string, Request>, x: Sms) {
    && x.id.evidence.uttId in asked && Identifies(x.id.evidence, asked[x.id.evidence.uttId])
    && ForSide(asked[x.id.evidence.uttId], x.id.role, x.contact, x.body)
  }

  ghost predicate EvidenceTold(asked: map<string, Request>, u: string, e: Evidence) {
    u in asked && asked[u].uttId == u && Identifies(e.id, asked[u]) && e.settledAt == asked[u].at
  }

  ghost predicate RowsOk(w: World) {
    forall id :: id in w.store.notifications ==>
      && w.store.notifications[id].id == id
      && Carries(w.asked, w.store.notifications[id]) && StateOk(w.handed, w.store.notifications[id])
  }

  ghost predicate TextsOk(w: World) {
    && w.asked.Keys == w.store.evidence.Keys
    && (forall u :: u in w.store.evidence ==> EvidenceTold(w.asked, u, w.store.evidence[u]))
    && RowsOk(w)
    && (forall k :: k in w.relays ==> HeldOk(w.asked, w.handed, w.relays[k]))
    && |w.handed| == |w.sends|
    && (forall i :: 0 <= i < |w.handed| ==> w.handed[i].id == w.sends[i] && HandedOk(w.asked, w.handed[i]))
  }

  // --------------------------------------------------------------- the steps

  lemma SameTexts(w: World, w': World)
    requires TextsOk(w) && w'.store == w.store && w'.relays == w.relays && w'.sends == w.sends
    requires w'.handed == w.handed && w'.asked == w.asked
    ensures TextsOk(w')
  {
    hide EvidenceTold, Carries, StateOk, HeldOk, HandedOk;
  }

  ghost predicate SameRequests(asked: map<string, Request>, asked': map<string, Request>) {
    forall u :: u in asked ==> u in asked' && asked'[u] == asked[u]
  }

  lemma MoreAsked(asked: map<string, Request>, asked': map<string, Request>, handed: seq<Sms>)
    requires SameRequests(asked, asked')
    ensures forall n :: Carries(asked, n) ==> Carries(asked', n)
    ensures forall r :: HeldOk(asked, handed, r) ==> HeldOk(asked', handed, r)
    ensures forall x :: HandedOk(asked, x) ==> HandedOk(asked', x)
    ensures forall u, e :: EvidenceTold(asked, u, e) ==> EvidenceTold(asked', u, e)
  {
    hide ForSide, Identifies, Replied;
  }

  lemma NewMessages(s: Store, q: Request, rttId: string, asked: map<string, Request>, handed: seq<Sms>, role: Role)
    requires asked == asked[q.uttId := q] && q.uttId in asked
    ensures Carries(asked, Message(q, role)) && StateOk(handed, Message(q, role))
    ensures EvidenceTold(asked, q.uttId, Evidence(IdentityOf(q), q.uttId, rttId, q.at))
  {
    hide Strip;
  }

  /** The two rows of new evidence. */
  lemma Added(s: Store, q: Request, rttId: string)
    requires q.uttId !in s.evidence && CommitRequest(s, q, rttId).Ok?
    ensures var s' := CommitRequest(s, q, rttId).value.0;
            && s'.evidence == s.evidence[q.uttId := Evidence(IdentityOf(q), q.uttId, rttId, q.at)]
            && s'.notifications == s.notifications[Message(q, Sender).id := Message(q, Sender)]
                                                 [Message(q, Receiver).id := Message(q, Receiver)]
  {
    hide Strip;
  }

  lemma Replay(s: Store, q: Request, rttId: string)
    requires q.uttId in s.evidence && CommitRequest(s, q, rttId).Ok?
    ensures CommitRequest(s, q, rttId).value.0 == s
  {
    hide Strip;
  }

  lemma CommitKeepsTexts(w: World, k: int)
    requires TextsOk(w)
    ensures TextsOk(DoCommitEvidence(w, k))
  {
    hide EvidenceTold, Carries, StateOk, HeldOk, HandedOk, CommitRequest, Message, IdentityOf;
    var c, w' := ConfirmerOf(w, k), DoCommitEvidence(w, k);
    if c.SawBoth? && CommitRequest(w.store, c.request, c.attempt.rttId).Ok? && c.request.uttId !in w.store.evidence {
      var q := c.request;
      Added(w.store, q, c.attempt.rttId);
      NewMessages(w.store, q, c.attempt.rttId, w'.asked, w.handed, Sender);
      NewMessages(w.store, q, c.attempt.rttId, w'.asked, w.handed, Receiver);
      MoreAsked(w.asked, w'.asked, w.handed);
    } else {
      if c.SawBoth? && CommitRequest(w.store, c.request, c.attempt.rttId).Ok? {
        Replay(w.store, c.request, c.attempt.rttId);
      }
      SameTexts(w, w');
    }
  }

  /** One row moved on under relay k. */
  lemma MoveKeepsTexts(w: World, k: int, before: Notification, after: Notification, next: Relay)
    requires TextsOk(w) && Carries(w.asked, after) && StateOk(w.handed, after) && HeldOk(w.asked, w.handed, next)
    ensures TextsOk(Move(w, k, before, after, next))
  {
    hide EvidenceTold, Carries, StateOk, HandedOk, HeldOk, Move;
    MoveIs(w, k, before, after, next);
    NobodyHolds(w.asked, w.handed);
  }

  lemma NobodyHolds(asked: map<string, Request>, handed: seq<Sms>)
    ensures HeldOk(asked, handed, Off)
  {
  }

  lemma MoveIs(w: World, k: int, before: Notification, after: Notification, next: Relay)
    ensures var w' := Move(w, k, before, after, next);
            || w' == PutR(w, k, Off)
            || w' == PutR(w, k, next).(store := w.store.(notifications := w.store.notifications[after.id := after]))
  {
  }

  lemma Undecided(asked: map<string, Request>, handed: seq<Sms>, n: Notification, at: int)
    requires Carries(asked, n) && n.code == None && n.reference == None
    ensures Carries(asked, BeginSms(n, at)) && StateOk(handed, BeginSms(n, at))
    ensures var b := FinishSms(n, Unknown, SMS_BLOCKED, None, at); Carries(asked, b) && StateOk(handed, b)
  {
    hide ForSide, Identifies, Upper;
    SmsCodes();
  }

  lemma SmsCodes()
    ensures Upper("SMS_GATEWAY_OUTCOME_UNKNOWN") == "SMS_GATEWAY_OUTCOME_UNKNOWN"
    ensures Upper("NON_IDEMPOTENT_SMS_RECOVERY_BLOCKED") == "NON_IDEMPOTENT_SMS_RECOVERY_BLOCKED"
  {
    UpperOfCapitals("SMS_GATEWAY_OUTCOME_UNKNOWN");
    UpperOfCapitals("NON_IDEMPOTENT_SMS_RECOVERY_BLOCKED");
  }

  lemma Answers(asked: map<string, Request>, handed: seq<Sms>, n: Notification, reply: Reply, at: int)
    requires HeldOk(asked, handed, Called(n, reply))
    ensures var b := AfterReply(n, reply, at); Carries(asked, b) && StateOk(handed, b)
  {
    hide ForSide, Identifies, Upper, Replied;
    SmsCodes();
  }

  lemma AdvanceKeepsTexts(w: World, k: int, at: int)
    requires TextsOk(w)
    ensures TextsOk(DoAdvance(w, k, at))
  {
    hide TextsOk, Carries, StateOk, Move;
    var r := RelayOf(w, k);
    if r.Holding? {
      assert HeldOk(w.asked, w.handed, r) by { HeldBy(w, k); }
      Undecided(w.asked, w.handed, r.row, at);
      MoveKeepsTexts(w, k, r.row, FinishSms(r.row, Unknown, SMS_BLOCKED, None, at), Off);
      MoveKeepsTexts(w, k, r.row, BeginSms(r.row, at), MustSend(BeginSms(r.row, at)));
    }
  }

  lemma HeldBy(w: World, k: int)
    requires TextsOk(w)
    ensures HeldOk(w.asked, w.handed, RelayOf(w, k))
  {
    hide EvidenceTold, RowsOk, HandedOk, Carries;
  }

  lemma FinishKeepsTexts(w: World, k: int, at: int)
    requires TextsOk(w)
    ensures TextsOk(DoFinish(w, k, at))
  {
    hide TextsOk, Carries, StateOk, Move, AfterReply;
    var r := RelayOf(w, k);
    if r.Called? {
      HeldBy(w, k);
      Answers(w.asked, w.handed, r.row, r.reply, at);
      MoveKeepsTexts(w, k, r.row, AfterReply(r.row, r.reply, at), Off);
    }
  }

  lemma MoreHanded(asked: map<string, Request>, handed: seq<Sms>, x: Sms)
    ensures forall n :: StateOk(handed, n) ==> StateOk(handed + [x], n)
    ensures forall r :: HeldOk(asked, handed, r) ==> HeldOk(asked, handed + [x], r)
  {
    hide Carries, Upper;
    forall id, reply ensures Replied(handed, id, reply) ==> Replied(handed + [x], id, reply) {
      if i :| RepliedAt(handed, id, reply, i) { assert RepliedAt(handed + [x], id, reply, i); }
    }
    hide Replied;
  }

  lemma SendKeepsTexts(w: World, k: int, reply: Reply)
    requires TextsOk(w)
    ensures TextsOk(DoSend(w, k, reply))
  {
    hide EvidenceTold, Carries, StateOk;
    var w', r := DoSend(w, k, reply), RelayOf(w, k);
    if r.MustSend? && !reply.NoDestination? {
      var x := Sms(r.row.id, r.row.contact, r.row.body, reply);
      assert HeldOk(w.asked, w.handed, r);
      assert HandedOk(w.asked, x) by { HandedFromRow(w.asked, r.row, reply); }
      assert RepliedAt(w'.handed, r.row.id, reply, |w.handed|);
      MoreHanded(w.asked, w.handed, x);
    }
  }

  lemma HandedFromRow(asked: map<string, Request>, n: Notification, reply: Reply)
    requires Carries(asked, n)
    ensures HandedOk(asked, Sms(n.id, n.contact, n.body, reply))
  {
  }

  lemma TakeKeepsTexts(w: World, k: int, id: NotificationId)
    requires TextsOk(w)
    ensures TextsOk(DoTake(w, k, id))
  {
    hide EvidenceTold, Carries, HandedOk;
  }

  lemma StepKeepsTexts(w: World, a: Action)
    requires TextsOk(w)
    ensures TextsOk(Do(w, a))
  {
    hide TextsOk, X.Do, DoCommitEvidence, DoTake, DoAdvance, DoSend, DoFinish, PlanProblem, AttemptProblem;
    match a
    case CommitEvidence(k) => CommitKeepsTexts(w, k);
    case Take(k, id) => TakeKeepsTexts(w, k, id);
    case Advance(k, at) => AdvanceKeepsTexts(w, k, at);
    case Send(k, reply) => SendKeepsTexts(w, k, reply);
    case Finish(k, at) => FinishKeepsTexts(w, k, at);
    case RelayCrash(k) => CrashKeepsTexts(w, k);
    case _ => SameTexts(w, Do(w, a));
  }

  lemma CrashKeepsTexts(w: World, k: int)
    requires TextsOk(w)
    ensures TextsOk(PutR(w, k, Off))
  {
    hide EvidenceTold, Carries, StateOk, HandedOk;
  }

  lemma {:induction false} RunKeepsTexts(w: World, actions: seq<Action>)
    requires TextsOk(w)
    ensures TextsOk(Exec(w, actions))
    decreases |actions|
  {
    hide TextsOk, Do;
    if actions != [] {
      StepKeepsTexts(w, actions[0]);
      RunKeepsTexts(Do(w, actions[0]), actions[1..]);
    }
  }

  /** In every run: evidence carries the identity and the instant of the request that was
      confirmed; the row of each side, in whatever state, carries that side's contact and
      text of it; and the gateway was only ever handed a side's own text for that side's
      own contact. */
  lemma {:induction false} EachSideGetsItsText(actions: seq<Action>)
    ensures var w := Exec(START, actions);
            && w.asked.Keys == w.store.evidence.Keys
            && (forall u :: u in w.store.evidence ==> EvidenceTold(w.asked, u, w.store.evidence[u]))
            && (forall id :: id in w.store.notifications ==> Carries(w.asked, w.store.notifications[id]))
            && |w.handed| == |w.sends|
            && (forall i :: 0 <= i < |w.handed| ==> w.handed[i].id == w.sends[i] && HandedOk(w.asked, w.handed[i]))
  {
    hide Exec, Carries, HandedOk, EvidenceTold, StateOk;
    assert TextsOk(START);
    RunKeepsTexts(START, actions);
  }

  /** In every run: a message is SENT or REJECTED only in the gateway's own words about this
      message, with its code and reference; otherwise it says nothing, or why nobody knows. */
  lemma {:induction false} SmsStatesAreReplies(actions: seq<Action>, id: NotificationId)
    requires id in Exec(START, actions).store.notifications
    ensures StateOk(Exec(START, actions).handed, Exec(START, actions).store.notifications[id])
  {
    hide Exec, Carries, HandedOk, EvidenceTold, StateOk;
    assert TextsOk(START);
    RunKeepsTexts(START, actions);
  }

  lemma StepKeepsRequests(w: World, a: Action)
    requires TextsOk(w)
    ensures SameRequests(w.asked, Do(w, a).asked)
  {
    hide CommitRequest, RowsOk, HeldOk, HandedOk, EvidenceTold, Do;
    AskedOf(w, a);
  }

  lemma AskedOf(w: World, a: Action)
    ensures Do(w, a).asked == if a.CommitEvidence? then DoCommitEvidence(w, a.worker).asked else w.asked
  {
    hide X.Do, DoCommitEvidence, PlanProblem, AttemptProblem, TransitionNotification;
  }

  /** The request a transaction was settled by, and with it contact and text of both
      messages, never changes in any continuation. */
  lemma {:induction false} RequestsStay(w: World, actions: seq<Action>)
    requires TextsOk(w)
    ensures SameRequests(w.asked, Exec(w, actions).asked)
    decreases |actions|
  {
    hide TextsOk, Do;
    if actions != [] {
      StepKeepsRequests(w, actions[0]);
      StepKeepsTexts(w, actions[0]);
      RequestsStay(Do(w, actions[0]), actions[1..]);
    }
  }

  /** Contact and text of a stored message never change, and it never leaves the store. */
  lemma {:induction false} TextsStay(before: seq<Action>, after: seq<Action>, id: NotificationId)
    requires id in Exec(START, before).store.notifications
    ensures var w, w' := Exec(START, before), Exec(Exec(START, before), after);
            && id in w'.store.notifications
            && var n, n' := w.store.notifications[id], w'.store.notifications[id];
               n'.contact == n.contact && n'.body == n.body && n'.role == n.role == id.role && n'.uttId == n.uttId
  {
    hide Exec, Inv, EvidenceTold, HeldOk, HandedOk, StateOk, Strip;
    var w := Exec(START, before);
    ReachableInv(before);
    NT.RunKeeps(w, after);
    assert TextsOk(START);
    RunKeepsTexts(START, before);
    RunKeepsTexts(w, after);
    RequestsStay(w, after);
    assert Carries(w.asked, w.store.notifications[id]);
    assert Carries(Exec(w, after).asked, Exec(w, after).store.notifications[id]);
  }

  /** A fresh message to one side of a request. */
  ghost predicate Fresh(q: Request, role: Role, n: Notification) {
    && n.uttId == q.uttId && n.role == role && n.id.role == role && Identifies(n.id.evidence, q)
    && n.evidenceId == n.id.evidence && ForSide(q, role, n.contact, n.body)
    && n.state == Prepared && n.code == None && n.reference == None && n.version == 1
    && n.createdAt == q.at && n.updatedAt == q.at
  }

  /** After any run, a confirmation that is accepted for a transaction without evidence:
      it stores the evidence of this request, naming the attempt on record, and exactly two
      messages, the sender's contact and text for the sender and the receiver's for the
      receiver, both to be sent; and it answers with them. */
  lemma {:induction false} ConfirmStoresBothSides(actions: seq<Action>, q: Request)
    requires var w := Exec(START, actions); q.uttId !in w.store.evidence && Confirm(w.exec.store, w.store, q).Ok?
    ensures var w := Exec(START, actions);
            var (s, answer) := Confirm(w.exec.store, w.store, q).value;
            && PlanFor(w.exec.store, q.uttId).Some?
            && answer.evidence.uttId == q.uttId && Identifies(answer.evidence.id, q)
            && answer.evidence.settledAt == q.at
            && Some(answer.evidence.rttId) == PlanFor(w.exec.store, q.uttId).value.previousRtt
            && Fresh(q, Sender, answer.sender) && Fresh(q, Receiver, answer.receiver) && !answer.replayed
            && answer.sender.id.evidence == answer.receiver.id.evidence == answer.evidence.id
            && answer.sender.id !in w.store.notifications && answer.receiver.id !in w.store.notifications
            && s.evidence == w.store.evidence[q.uttId := answer.evidence]
            && s.notifications == w.store.notifications[answer.sender.id := answer.sender]
                                                       [answer.receiver.id := answer.receiver]
  {
    hide Exec, Strip, X.Inv, SmsOk, SettlementOk;
    var w := Exec(START, actions);
    ReachableInv(actions);
    X.InvKeyed(w.exec);
  }

  // ------------------------------------------------------------ one delivery

  /** deliver, by what it finds and what the gateway does: a message not yet sent is handed
      over once and ends SENT or REJECTED in the gateway's words, or UNKNOWN if no
      destination was found or the gateway raised; one left DISPATCHING ends UNKNOWN without
      being handed over; a final one, or one that is not there, changes nothing. */
  lemma DeliverRecordsTheReply(s: Store, id: NotificationId, reply: Reply, at: int)
    requires id in s.notifications ==> s.notifications[id].id == id
    ensures var d := DeliverOnce(s, id, reply, at);
            if id !in s.notifications then d == Delivered(s, Err(SmsNotFound), false)
            else
              var n := s.notifications[id];
              if n.state == Sent || n.state == Rejected || n.state == Unknown then d == Delivered(s, Ok(n), false)
              else
                && d.result.Ok? && d.store == s.(notifications := s.notifications[id := d.result.value])
                && var n' := d.result.value;
                   && n' == n.(state := n'.state, code := n'.code, reference := n'.reference, version := n'.version,
                               updatedAt := at)
                   && if n.state == Dispatching then
                        && !d.sent && n'.version == n.version + 1 && n'.state == Unknown && n'.reference == None
                        && n'.code == Some("NON_IDEMPOTENT_SMS_RECOVERY_BLOCKED")
                      else
                        && (d.sent <==> reply != NoDestination) && n'.version == n.version + 2
                        && (n'.state == Sent <==> reply.Answered? && reply.accepted)
                        && (n'.state == Rejected <==> reply.Answered? && !reply.accepted)
                        && (reply.Answered? ==> n'.code == Some(Upper(reply.code)) && n'.reference == reply.reference)
                        && (!reply.Answered? ==> && n'.state == Unknown && n'.reference == None
                                                 && n'.code == Some("SMS_GATEWAY_OUTCOME_UNKNOWN"))
  {
    hide Upper;
    SmsCodes();
  }
}
