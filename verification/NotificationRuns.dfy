/** Settlement and SMS delivery beside a running execution machine: any number of
    planners, attempt workers, confirmers and SMS relays, any of them crashing. */
module NotificationRuns {
  import opened Prelude
  import opened Notifications
  import E = Execution
  import X = ExecutionRuns
  import T = ExecutionTheorems

  datatype Confirmer = Away | SawPlan(request: Request, plan: E.Plan) | SawBoth(request: Request, attempt: E.Attempt)

  datatype Relay =
    | Off
    | Holding(row: Notification)
    | MustSend(row: Notification)
    | Called(row: Notification, reply: Reply)

  /** What the gateway was handed, and what it replied. */
  datatype Sms = Sms(id: NotificationId, contact: string, body: string, reply: Reply)

  /** sends lists the notifications handed to the gateway, in order, and handed what it got;
      asked is the request whose confirmation stored a transaction's evidence. */
  datatype World = World(exec: X.World, store: Store, confirmers: map<int, Confirmer>, relays: map<int, Relay>,
                         sends: seq<NotificationId>, handed: seq<Sms>, asked: map<string, Request>)

  const START := World(X.INITIAL, EMPTY_NOTIFICATIONS, map[], map[], [], [], map[])

  datatype Action =
    | Execute(step: X.Action)
    | ReadPlan(worker: int, request: Request)
    | ReadAttempt(worker: int)
    | CommitEvidence(worker: int)
    | ConfirmerCrash(worker: int)
    | Take(worker: int, id: NotificationId)
    | Advance(worker: int, at: int)
    | Send(worker: int, reply: Reply)
    | Finish(worker: int, at: int)
    | RelayCrash(worker: int)

  function ConfirmerOf(w: World, k: int): Confirmer { if k in w.confirmers then w.confirmers[k] else Away }

  function RelayOf(w: World, k: int): Relay { if k in w.relays then w.relays[k] else Off }

  function PutC(w: World, k: int, c: Confirmer): World { w.(confirmers := w.confirmers[k := c]) }

  function PutR(w: World, k: int, r: Relay): World { w.(relays := w.relays[k := r]) }

  function DoReadPlan(w: World, k: int, q: Request): World {
    var plan := PlanFor(w.exec.store, q.uttId);
    PutC(w, k, if PlanProblem(q, plan).Some? then Away else SawPlan(q, plan.value))
  }

  function DoReadAttempt(w: World, k: int): World {
    match ConfirmerOf(w, k)
    case SawPlan(q, p) =>
      var a := if p.previousRtt.Some? then AttemptFor(w.exec.store, p.previousRtt.value) else None;
      PutC(w, k, if AttemptProblem(q, a).Some? then Away else SawBoth(q, a.value))
    case _ => w
  }

  function DoCommitEvidence(w: World, k: int): World {
    match ConfirmerOf(w, k)
    case SawBoth(q, a) =>
      (match CommitRequest(w.store, q, a.rttId)
       case Err(_) => PutC(w, k, Away)
       case Ok((s, _)) =>
         PutC(w, k, Away).(store := s, asked := if q.uttId in w.store.evidence then w.asked else w.asked[q.uttId := q]))
    case _ => w
  }

  function DoTake(w: World, k: int, id: NotificationId): World {
    PutR(w, k, if id in w.store.notifications && !FinalSms(w.store.notifications[id].state)
               then Holding(w.store.notifications[id]) else Off)
  }

  /** Move a row one version on; a lost race raises and frees the relay. */
  function Move(w: World, k: int, before: Notification, after: Notification, next: Relay): World {
    match TransitionNotification(w.store, before.version, after)
    case Err(_) => PutR(w, k, Off)
    case Ok(s) => PutR(w, k, next).(store := s)
  }

  function DoAdvance(w: World, k: int, at: int): World {
    match RelayOf(w, k)
    case Holding(n) =>
      if n.state == Dispatching then Move(w, k, n, FinishSms(n, Unknown, SMS_BLOCKED, None, at), Off)
      else Move(w, k, n, BeginSms(n, at), MustSend(BeginSms(n, at)))
    case _ => w
  }

  function DoSend(w: World, k: int, reply: Reply): World {
    match RelayOf(w, k)
    case MustSend(n) =>
      if reply.NoDestination? then PutR(w, k, Called(n, reply))
      else PutR(w, k, Called(n, reply)).(sends := w.sends + [n.id],
                                         handed := w.handed + [Sms(n.id, n.contact, n.body, reply)])
    case _ => w
  }

  function DoFinish(w: World, k: int, at: int): World {
    match RelayOf(w, k)
    case Called(n, reply) => Move(w, k, n, AfterReply(n, reply, at), Off)
    case _ => w
  }

  function Do(w: World, a: Action): World {
    match a
    case Execute(step) => w.(exec := X.Do(w.exec, step))
    case ReadPlan(k, q) => DoReadPlan(w, k, q)
    case ReadAttempt(k) => DoReadAttempt(w, k)
    case CommitEvidence(k) => DoCommitEvidence(w, k)
    case ConfirmerCrash(k) => PutC(w, k, Away)
    case Take(k, id) => DoTake(w, k, id)
    case Advance(k, at) => DoAdvance(w, k, at)
    case Send(k, reply) => DoSend(w, k, reply)
    case Finish(k, at) => DoFinish(w, k, at)
    case RelayCrash(k) => PutR(w, k, Off)
  }

  function Exec(w: World, actions: seq<Action>): World
    decreases |actions|
  {
    if actions == [] then w else Exec(Do(w, actions[0]), actions[1..])
  }

  // ------------------------------------------------- settlement, invariantly

  /** A plan that is finalized, with the attempt that won it. */
  ghost predicate Won(x: E.Store, uttId: string, rttId: string) {
    exists id :: WonBy(x, id, uttId, rttId)
  }

  ghost predicate WonBy(x: E.Store, id: string, uttId: string, rttId: string) {
    && id in x.plans && x.plans[id].uttId == uttId && x.plans[id].status == E.Finalized
    && x.plans[id].previousRtt == Some(rttId)
    && rttId in x.attempts && x.attempts[rttId].state == E.Succeeded
  }

  /** Evidence of a transaction, with its two messages in the store. */
  ghost predicate EvidenceOk(x: E.Store, s: Store, uttId: string) {
    uttId in s.evidence ==>
      var e := s.evidence[uttId];
      && e.uttId == uttId && e.id.uttId == uttId && Won(x, uttId, e.rttId)
      && NotificationId(e.id, Sender) in s.notifications && NotificationId(e.id, Receiver) in s.notifications
  }

  ghost predicate NotificationOk(s: Store, id: NotificationId) {
    id in s.notifications ==>
      var n := s.notifications[id];
      && n.id == id && n.evidenceId == id.evidence && n.role == id.role && n.uttId == id.evidence.uttId
      && n.uttId in s.evidence && s.evidence[n.uttId].id == id.evidence
      && 1 <= n.version && (n.state == Prepared <==> n.version == 1)
  }

  ghost predicate ConfirmerOk(x: E.Store, c: Confirmer) {
    match c
    case Away => true
    case SawPlan(q, p) => p.previousRtt.Some? && Planned(x, q.uttId, p)
    case SawBoth(q, a) => Won(x, q.uttId, a.rttId)
  }

  /** A finalized plan of this transaction, still stored as it was read. */
  ghost predicate Planned(x: E.Store, uttId: string, p: E.Plan) {
    p.uttId == uttId && p.status == E.Finalized && p.planId in x.plans && x.plans[p.planId] == p
  }

  ghost predicate SettlementOk(w: World) {
    && (forall u :: EvidenceOk(w.exec.store, w.store, u))
    && (forall id :: NotificationOk(w.store, id))
    && (forall k :: k in w.confirmers ==> ConfirmerOk(w.exec.store, w.confirmers[k]))
  }

  // ----------------------------------------------------- sending, invariantly

  ghost predicate SmsSnapshot(s: Store, n: Notification) {
    && n.id in s.notifications && n.version <= s.notifications[n.id].version
    && (n.version == s.notifications[n.id].version ==> n == s.notifications[n.id])
  }

  /** What a relay holds is no newer than the row; to send is to have moved the row itself. */
  ghost predicate RelayOk(s: Store, sends: seq<NotificationId>, r: Relay) {
    match r
    case Off => true
    case Holding(n) => SmsSnapshot(s, n) && !FinalSms(n.state)
    case MustSend(n) => SmsSnapshot(s, n) && n.state == Dispatching && n.version > 1 && n.id !in sends
    case Called(n, reply) => SmsSnapshot(s, n) && n.state == Dispatching && n.version > 1
                             && (reply.Answered? ==> n.id in sends)
  }

  ghost predicate OneSender(relays: map<int, Relay>) {
    forall j, k | j in relays && k in relays && relays[j].MustSend? && relays[k].MustSend? ::
      relays[j].row.id == relays[k].row.id ==> j == k
  }

  /** A row that was handed over has left Prepared; one with an answer was handed over. */
  ghost predicate SendsOk(s: Store, sends: seq<NotificationId>) {
    && Distinct(sends)
    && (forall id :: id in sends ==> id in s.notifications && s.notifications[id].state != Prepared)
    && (forall id :: id in s.notifications && s.notifications[id].state in {Sent, Rejected} ==> id in sends)
  }

  ghost predicate SmsOk(w: World) {
    && (forall k :: k in w.relays ==> RelayOk(w.store, w.sends, w.relays[k]))
    && OneSender(w.relays) && SendsOk(w.store, w.sends)
  }

  ghost predicate Inv(w: World) { X.Inv(w.exec) && SettlementOk(w) && SmsOk(w) }

  // ---------------------------------------------------- execution goes on

  lemma WonStays(w: X.World, a: X.Action, uttId: string, rttId: string)
    requires X.Inv(w) && Won(w.store, uttId, rttId)
    ensures Won(X.Do(w, a).store, uttId, rttId)
  {
    hide X.Inv, X.Do;
    T.StepFreezes(w, a);
    var id :| WonBy(w.store, id, uttId, rttId);
    assert WonBy(X.Do(w, a).store, id, uttId, rttId);
  }

  lemma PlannedStays(w: X.World, a: X.Action, uttId: string, p: E.Plan)
    requires X.Inv(w) && Planned(w.store, uttId, p)
    ensures Planned(X.Do(w, a).store, uttId, p)
  {
    hide X.Inv, X.Do;
    T.StepFreezes(w, a);
  }

  lemma ExecuteKeepsInv(w: World, step: X.Action)
    requires Inv(w)
    ensures Inv(w.(exec := X.Do(w.exec, step)))
  {
    hide X.Inv, X.Do, Won, Planned, NotificationOk, SmsOk;
    var w' := w.(exec := X.Do(w.exec, step));
    X.StepKeepsInv(w.exec, step);
    forall u ensures EvidenceOk(w'.exec.store, w'.store, u) {
      assert EvidenceOk(w.exec.store, w.store, u);
      if u in w.store.evidence { WonStays(w.exec, step, u, w.store.evidence[u].rttId); }
    }
    forall k | k in w'.confirmers ensures ConfirmerOk(w'.exec.store, w'.confirmers[k]) {
      match w.confirmers[k]
      case Away =>
      case SawPlan(q, p) => PlannedStays(w.exec, step, q.uttId, p);
      case SawBoth(q, a) => WonStays(w.exec, step, q.uttId, a.rttId);
    }
    assert SmsOk(w') by { SameSms(w, w'); }
  }

  lemma SameSms(w: World, w': World)
    requires SmsOk(w) && w'.store == w.store && w'.relays == w.relays && w'.sends == w.sends
    ensures SmsOk(w')
  {
  }

  // ---------------------------------------------------------- confirmers

  /** The attempt found under the identifier a finalized plan keeps, if it succeeded, won it. */
  lemma FinalizedIsWon(w: X.World, uttId: string, p: E.Plan)
    requires X.Inv(w) && Planned(w.store, uttId, p) && p.previousRtt.Some? && p.previousRtt.value in w.store.attempts
    requires w.store.attempts[p.previousRtt.value].state == E.Succeeded
    ensures w.store.attempts[p.previousRtt.value].rttId == p.previousRtt.value
    ensures Won(w.store, uttId, p.previousRtt.value)
  {
    hide X.Inv;
    X.InvKeyed(w);
    assert WonBy(w.store, p.planId, uttId, p.previousRtt.value);
  }

  lemma PlanForIsPlanned(w: X.World, uttId: string)
    requires X.Inv(w) && PlanFor(w.store, uttId).Some? && PlanFor(w.store, uttId).value.status == E.Finalized
    ensures Planned(w.store, uttId, PlanFor(w.store, uttId).value)
  {
    X.InvKeyed(w);
    hide X.PlansOk, X.AttemptsOk, X.WorkersOk;
  }

  lemma ConfirmerMoves(w: World, w': World, k: int, c: Confirmer)
    requires Inv(w) && w' == PutC(w, k, c) && ConfirmerOk(w.exec.store, c)
    ensures Inv(w')
  {
    hide X.Inv, EvidenceOk, NotificationOk, ConfirmerOk, SmsOk;
    SameSms(w, w');
  }

  lemma ReadsKeepInv(w: World, a: Action)
    requires Inv(w) && (a.ReadPlan? || a.ReadAttempt? || a.ConfirmerCrash?)
    ensures Inv(Do(w, a))
  {
    hide X.Inv, EvidenceOk, NotificationOk, SmsOk, Strip, Won, Planned, PlanFor;
    var w' := Do(w, a);
    var k := a.worker;
    assert k in w.confirmers ==> ConfirmerOk(w.exec.store, w.confirmers[k]);
    if a.ReadPlan? {
      if PlanProblem(a.request, PlanFor(w.exec.store, a.request.uttId)).None? {
        PlanForIsPlanned(w.exec, a.request.uttId);
      }
      ConfirmerMoves(w, w', k, w'.confirmers[k]);
    } else if a.ReadAttempt? && ConfirmerOf(w, k).SawPlan? {
      var c := ConfirmerOf(w, k);
      if w'.confirmers[k].SawBoth? { FinalizedIsWon(w.exec, c.request.uttId, c.plan); }
      ConfirmerMoves(w, w', k, w'.confirmers[k]);
    } else if a.ConfirmerCrash? {
      ConfirmerMoves(w, w', k, Away);
    }
  }

  /** New evidence and its two messages join the store; nothing else moves. */
  lemma NewSettlement(x: E.Store, s: Store, q: Request, rttId: string)
    requires (forall u :: EvidenceOk(x, s, u)) && (forall id :: NotificationOk(s, id))
    requires Won(x, q.uttId, rttId) && q.uttId !in s.evidence && CommitRequest(s, q, rttId).Ok?
    ensures var s' := CommitRequest(s, q, rttId).value.0;
            && (forall u :: EvidenceOk(x, s', u)) && (forall id :: NotificationOk(s', id))
  {
    hide Won, Strip;
    var s' := CommitRequest(s, q, rttId).value.0;
    forall u ensures EvidenceOk(x, s', u) { assert EvidenceOk(x, s, u); }
    forall id ensures NotificationOk(s', id) { assert NotificationOk(s, id); }
  }

  /** Rows are only added, each in its first version. */
  ghost predicate RowsAdded(s: Store, s': Store) {
    && (forall id :: id in s.notifications ==> id in s'.notifications && s'.notifications[id] == s.notifications[id])
    && (forall id :: id in s'.notifications && id !in s.notifications ==> s'.notifications[id].state == Prepared)
  }

  lemma AddedKeepsSms(w: World, w': World)
    requires SmsOk(w) && RowsAdded(w.store, w'.store) && w'.relays == w.relays && w'.sends == w.sends
    ensures SmsOk(w')
  {
  }

  lemma CommitRequestAdds(s: Store, q: Request, rttId: string)
    requires CommitRequest(s, q, rttId).Ok?
    ensures var s' := CommitRequest(s, q, rttId).value.0;
            RowsAdded(s, s') && (q.uttId in s.evidence ==> s' == s)
  {
    hide Strip;
  }

  lemma CommitKeepsInv(w: World, k: int)
    requires Inv(w)
    ensures Inv(DoCommitEvidence(w, k))
  {
    hide X.Inv, EvidenceOk, NotificationOk, SmsOk, CommitRequest, RowsAdded;
    var c := ConfirmerOf(w, k);
    var w' := DoCommitEvidence(w, k);
    if c.SawBoth? {
      if CommitRequest(w.store, c.request, c.attempt.rttId).Ok? {
        CommitRequestAdds(w.store, c.request, c.attempt.rttId);
        if c.request.uttId !in w.store.evidence {
          NewSettlement(w.exec.store, w.store, c.request, c.attempt.rttId);
        }
        AddedKeepsSms(w, w');
      } else {
        ConfirmerMoves(w, w', k, Away);
      }
    }
  }

  // --------------------------------------------------------------- relays

  /** A row moves one version on, from the version it was read at. */
  ghost predicate RowMoves(s: Store, s': Store, before: Notification, after: Notification) {
    && before.id in s.notifications && s.notifications[before.id] == before
    && after == before.(state := after.state, code := after.code, reference := after.reference,
                        version := before.version + 1, updatedAt := after.updatedAt)
    && after.state != Prepared && !FinalSms(before.state)
    && s' == s.(notifications := s.notifications[before.id := after])
  }

  lemma MoveKeepsSettlement(w: World, w': World, before: Notification, after: Notification)
    requires SettlementOk(w) && RowMoves(w.store, w'.store, before, after)
    requires w'.exec == w.exec && w'.confirmers == w.confirmers
    ensures SettlementOk(w')
  {
    hide Won, ConfirmerOk;
    forall u ensures EvidenceOk(w'.exec.store, w'.store, u) { assert EvidenceOk(w.exec.store, w.store, u); }
    forall id ensures NotificationOk(w'.store, id) {
      assert NotificationOk(w.store, id);
      assert NotificationOk(w.store, before.id);
    }
  }

  lemma MoveKeepsRelay(s: Store, s': Store, sends: seq<NotificationId>, before: Notification, after: Notification,
                       r: Relay)
    requires RowMoves(s, s', before, after) && RelayOk(s, sends, r)
    ensures RelayOk(s', sends, r)
  {
  }

  /** The relays after one row moved under relay k. */
  lemma MoveKeepsSms(w: World, w': World, k: int, before: Notification, after: Notification, next: Relay)
    requires SmsOk(w) && RowMoves(w.store, w'.store, before, after)
    requires w'.relays == w.relays[k := next] && w'.sends == w.sends
    requires RelayOk(w'.store, w.sends, next)
    requires next.MustSend? ==> next.row.id == before.id && before.state == Prepared && before.version == 1
    requires after.state in {Sent, Rejected} ==> before.id in w.sends
    ensures SmsOk(w')
  {
    hide RelayOk;
    forall j | j in w'.relays ensures RelayOk(w'.store, w'.sends, w'.relays[j]) {
      if j != k { MoveKeepsRelay(w.store, w'.store, w.sends, before, after, w.relays[j]); }
    }
    if next.MustSend? {
      forall j | j in w.relays && w.relays[j].MustSend? ensures w.relays[j].row.id != before.id {
        SenderLeftPrepared(w.store, w.sends, w.relays[j]);
      }
    }
  }

  lemma SenderLeftPrepared(s: Store, sends: seq<NotificationId>, r: Relay)
    requires RelayOk(s, sends, r) && r.MustSend?
    ensures r.row.id in s.notifications && s.notifications[r.row.id].version > 1
  {
  }

  lemma RelayMoves(w: World, w': World, k: int, r: Relay)
    requires Inv(w) && w' == PutR(w, k, r) && RelayOk(w.store, w.sends, r) && !r.MustSend?
    ensures Inv(w')
  {
    hide X.Inv, EvidenceOk, NotificationOk, ConfirmerOk, RelayOk, SendsOk;
    assert SettlementOk(w');
  }

  /** A move either loses its race and changes nothing, or moves the very row it was decided on. */
  lemma MoveShape(w: World, k: int, before: Notification, after: Notification, next: Relay)
    requires SmsSnapshot(w.store, before) && !FinalSms(before.state) && after.state != Prepared
    requires after == before.(state := after.state, code := after.code, reference := after.reference,
                              version := before.version + 1, updatedAt := after.updatedAt)
    ensures var w' := Move(w, k, before, after, next);
            || w' == PutR(w, k, Off)
            || (RowMoves(w.store, w'.store, before, after) && w' == PutR(w, k, next).(store := w'.store))
  {
  }

  lemma MoveKeepsInv(w: World, k: int, before: Notification, after: Notification, next: Relay)
    requires Inv(w) && SmsSnapshot(w.store, before) && !FinalSms(before.state) && after.state != Prepared
    requires after == before.(state := after.state, code := after.code, reference := after.reference,
                              version := before.version + 1, updatedAt := after.updatedAt)
    requires next == Off || (next == MustSend(after) && after.state == Dispatching && before.state == Prepared)
    requires after.state in {Sent, Rejected} ==> before.id in w.sends
    ensures Inv(Move(w, k, before, after, next))
  {
    hide X.Inv, ConfirmerOk, EvidenceOk, Move, FinalSms;
    var w' := Move(w, k, before, after, next);
    MoveShape(w, k, before, after, next);
    if w' == PutR(w, k, Off) {
      RelayMoves(w, w', k, Off);
    } else {
      assert NotificationOk(w.store, before.id);
      assert NotificationOk(w.store, before.id) && before.state == Prepared ==> before.id !in w.sends;
      MoveKeepsSettlement(w, w', before, after);
      MoveKeepsSms(w, w', k, before, after, next);
    }
  }

  lemma TakeKeepsInv(w: World, k: int, id: NotificationId)
    requires Inv(w)
    ensures Inv(DoTake(w, k, id))
  {
    hide X.Inv, EvidenceOk, ConfirmerOk, SmsOk, FinalSms;
    assert NotificationOk(w.store, id);
    RelayMoves(w, DoTake(w, k, id), k, DoTake(w, k, id).relays[k]);
  }

  lemma HeldRow(w: World, k: int)
    requires SmsOk(w)
    ensures RelayOk(w.store, w.sends, RelayOf(w, k))
  {
    hide OneSender, SendsOk;
  }

  lemma AdvanceKeepsInv(w: World, k: int, at: int)
    requires Inv(w)
    ensures Inv(DoAdvance(w, k, at))
  {
    hide X.Inv, SettlementOk, Move, Inv;
    assert SmsOk(w) by { InvSms(w); }
    HeldRow(w, k);
    hide SmsOk;
    var r := RelayOf(w, k);
    if r.Holding? {
      if r.row.state == Dispatching {
        MoveKeepsInv(w, k, r.row, FinishSms(r.row, Unknown, SMS_BLOCKED, None, at), Off);
      } else {
        MoveKeepsInv(w, k, r.row, BeginSms(r.row, at), MustSend(BeginSms(r.row, at)));
      }
    }
  }

  lemma InvSms(w: World)
    requires Inv(w)
    ensures SmsOk(w)
  {
  }

  lemma FinishKeepsInv(w: World, k: int, at: int)
    requires Inv(w)
    ensures Inv(DoFinish(w, k, at))
  {
    hide X.Inv, SettlementOk, Move, Inv;
    assert SmsOk(w) by { InvSms(w); }
    HeldRow(w, k);
    hide SmsOk;
    var r := RelayOf(w, k);
    if r.Called? {
      MoveKeepsInv(w, k, r.row, AfterReply(r.row, r.reply, at), Off);
    }
  }

  /** Handing a message over uses up the one right to send it. */
  lemma SendKeepsInv(w: World, k: int, reply: Reply)
    requires Inv(w)
    ensures Inv(DoSend(w, k, reply))
  {
    hide X.Inv, SettlementOk;
    var w', r := DoSend(w, k, reply), RelayOf(w, k);
    assert SettlementOk(w') by { SameSettlement(w, w'); }
    if r.MustSend? {
      SenderLeftPrepared(w.store, w.sends, r);
      assert NotificationOk(w.store, r.row.id) by { RowFacts(w, r.row.id); }
      forall j | j in w'.relays ensures RelayOk(w'.store, w'.sends, w'.relays[j]) {
        assert j != k ==> RelayOk(w.store, w.sends, w.relays[j]);
      }
    }
  }

  lemma SameSettlement(w: World, w': World)
    requires SettlementOk(w) && w'.exec == w.exec && w'.store == w.store && w'.confirmers == w.confirmers
    ensures SettlementOk(w')
  {
  }

  lemma RowFacts(w: World, id: NotificationId)
    requires SettlementOk(w)
    ensures NotificationOk(w.store, id)
  {
  }

  // ------------------------------------------------------------- every step

  lemma StepKeepsInv(w: World, a: Action)
    requires Inv(w)
    ensures Inv(Do(w, a))
  {
    hide Inv, X.Do, DoReadPlan, DoReadAttempt, DoCommitEvidence, DoTake, DoAdvance, DoSend, DoFinish;
    match a
    case Execute(step) => ExecuteKeepsInv(w, step);
    case CommitEvidence(k) => CommitKeepsInv(w, k);
    case Take(k, id) => TakeKeepsInv(w, k, id);
    case Advance(k, at) => AdvanceKeepsInv(w, k, at);
    case Send(k, reply) => SendKeepsInv(w, k, reply);
    case Finish(k, at) => FinishKeepsInv(w, k, at);
    case RelayCrash(k) => RelayMoves(w, Do(w, a), k, Off);
    case ReadPlan(_, _) => ReadsKeepInv(w, a);
    case ReadAttempt(_) => ReadsKeepInv(w, a);
    case ConfirmerCrash(_) => ReadsKeepInv(w, a);
  }

  lemma {:induction false} RunKeepsInv(w: World, actions: seq<Action>)
    requires Inv(w)
    ensures Inv(Exec(w, actions))
    decreases |actions|
  {
    hide Inv, Do;
    if actions != [] {
      StepKeepsInv(w, actions[0]);
      RunKeepsInv(Do(w, actions[0]), actions[1..]);
    }
  }

  lemma StartInv()
    ensures Inv(START)
  {
    T.InitialInv();
  }

  lemma {:induction false} ReachableInv(actions: seq<Action>)
    ensures Inv(Exec(START, actions))
  {
    hide Inv, Do;
    StartInv();
    RunKeepsInv(START, actions);
  }
}
