/** Settlement evidence and SMS notifications: records, the settlement decision
    and the store operations, as functions on values and as the store itself. */
module Notifications {
  import opened Prelude
  import E = Execution
  import ES = ExecutionService

  datatype Role = Sender | Receiver

  datatype SmsState = Prepared | Dispatching | Sent | Rejected | Unknown

  /** The material an evidence identifier is the digest of. */
  datatype EvidenceId = EvidenceId(uttId: string, uttSha: string, providerId: string, transactionId: string,
                                   callbackId: string)

  datatype Evidence = Evidence(id: EvidenceId, uttId: string, rttId: string, settledAt: int)

  /** The material a notification identifier is the digest of; channel and template are fixed. */
  datatype NotificationId = NotificationId(evidence: EvidenceId, role: Role)

  datatype Notification = Notification(
    id: NotificationId, evidenceId: EvidenceId, uttId: string, role: Role, contact: string, body: string,
    state: SmsState, reference: Option<string>, code: Option<string>, version: nat, createdAt: int, updatedAt: int)

  datatype SettleError =
    | UttNotFound | InvalidUtt | NoPlan | NotFinalized | NoAttempt | NotSucceeded | MissingReference | SigningRefused
    | TooLong
    | ConflictingEvidence | RolesMissing | IdentifierCollision | RowMissing | SmsNotFound | SmsChanged | VersionSkipped

  datatype Store = Store(evidence: map<string, Evidence>, notifications: map<NotificationId, Notification>)

  const EMPTY_NOTIFICATIONS := Store(map[], map[])

  /** What a stored settlement answers: the evidence, its two messages, and whether it was there before. */
  datatype Settlement = Settlement(evidence: Evidence, sender: Notification, receiver: Notification, replayed: bool)

  function CommitSettlement(s: Store, e: Evidence, first: Notification, second: Notification)
    : Result<(Store, Settlement), SettleError>
  {
    if e.uttId in s.evidence then
      if s.evidence[e.uttId].id != e.id then Err(ConflictingEvidence)
      else if first.id !in s.notifications || second.id !in s.notifications then Err(RowMissing)
      else Ok((s, Settlement(s.evidence[e.uttId], s.notifications[first.id], s.notifications[second.id], true)))
    else if first.role == second.role then Err(RolesMissing)
    else if first.id in s.notifications || second.id in s.notifications then Err(IdentifierCollision)
    else Ok((Store(s.evidence[e.uttId := e], s.notifications[first.id := first][second.id := second]),
             Settlement(e, first, second, false)))
  }

  function TransitionNotification(s: Store, previous: nat, n: Notification): Result<Store, SettleError> {
    if n.id !in s.notifications then Err(SmsNotFound)
    else if s.notifications[n.id].version != previous then Err(SmsChanged)
    else if n.version != previous + 1 then Err(VersionSkipped)
    else Ok(s.(notifications := s.notifications[n.id := n]))
  }

  // ------------------------------------------------------------- settlement

  /** What a caller asks to settle: the transaction it names, whether it is found and its
      signature holds, what the provider reported, and whether the signer signs the
      evidence. The two message texts are rendered from them. */
  datatype Request = Request(uttId: string, uttFound: bool, uttSha: string, signatureValid: bool, providerId: string,
                             transactionId: string, callbackId: string, senderContact: string, receiverContact: string,
                             senderBody: string, receiverBody: string, signs: bool, at: int)

  function IdentityOf(q: Request): EvidenceId {
    EvidenceId(q.uttId, q.uttSha, q.providerId, Strip(q.transactionId), Strip(q.callbackId))
  }

  function Message(q: Request, role: Role): Notification {
    var id := IdentityOf(q);
    Notification(NotificationId(id, role), id, q.uttId, role,
                 if role.Sender? then q.senderContact else q.receiverContact,
                 if role.Sender? then q.senderBody else q.receiverBody, Prepared, None, None, 1, q.at, q.at)
  }

  /** The plan as read must be finalized. */
  function PlanProblem(q: Request, p: Option<E.Plan>): Option<SettleError> {
    if !q.uttFound then Some(UttNotFound)
    else if !q.signatureValid then Some(InvalidUtt)
    else if p.None? then Some(NoPlan)
    else if p.value.status != E.Finalized || p.value.previousRtt.None? then Some(NotFinalized)
    else None
  }

  /** The attempt as read must have succeeded, and the references must be there. */
  function AttemptProblem(q: Request, a: Option<E.Attempt>): Option<SettleError> {
    if a.None? then Some(NoAttempt)
    else if a.value.state != E.Succeeded then Some(NotSucceeded)
    else if Strip(q.transactionId) == "" || Strip(q.callbackId) == "" then Some(MissingReference)
    else if !q.signs then Some(SigningRefused)
    else if |q.senderBody| > 320 || |q.receiverBody| > 320 then Some(TooLong)
    else None
  }

  /** What confirmation asks of its request and of the services, whatever the plan says. */
  predicate Proper(q: Request) {
    && q.uttFound && q.signatureValid && q.signs && Strip(q.transactionId) != "" && Strip(q.callbackId) != ""
    && |q.senderBody| <= 320 && |q.receiverBody| <= 320
  }

  function PlanFor(x: E.Store, uttId: string): Option<E.Plan> {
    if E.Linked(x, uttId) then Some(x.plans[x.planByUtt[uttId]]) else None
  }

  function AttemptFor(x: E.Store, rttId: string): Option<E.Attempt> {
    if rttId in x.attempts then Some(x.attempts[rttId]) else None
  }

  function CommitRequest(s: Store, q: Request, rttId: string): Result<(Store, Settlement), SettleError> {
    CommitSettlement(s, Evidence(IdentityOf(q), q.uttId, rttId, q.at), Message(q, Sender), Message(q, Receiver))
  }

  /** confirm_provider_settlement, uninterrupted. */
  function Confirm(x: E.Store, s: Store, q: Request): Result<(Store, Settlement), SettleError> {
    var plan := PlanFor(x, q.uttId);
    if PlanProblem(q, plan).Some? then Err(PlanProblem(q, plan).value)
    else
      var a := AttemptFor(x, plan.value.previousRtt.value);
      if AttemptProblem(q, a).Some? then Err(AttemptProblem(q, a).value)
      else CommitRequest(s, q, a.value.rttId)
  }

  // -------------------------------------------------------------- SMS relay

  predicate FinalSms(s: SmsState) { s == Sent || s == Rejected || s == Unknown }

  /** What the gateway leg brought: no destination resolved, a raised send, or an answer. */
  datatype Reply = NoDestination | Raised | Answered(accepted: bool, code: string, reference: Option<string>)

  function BeginSms(n: Notification, at: int): Notification {
    n.(state := Dispatching, version := n.version + 1, updatedAt := at)
  }

  function FinishSms(n: Notification, state: SmsState, code: string, reference: Option<string>, at: int): Notification {
    n.(state := state, code := Some(Upper(code)), reference := reference, version := n.version + 1, updatedAt := at)
  }

  const SMS_BLOCKED := "NON_IDEMPOTENT_SMS_RECOVERY_BLOCKED"

  const SMS_UNKNOWN := "SMS_GATEWAY_OUTCOME_UNKNOWN"

  function AfterReply(n: Notification, reply: Reply, at: int): Notification {
    match reply
    case Answered(accepted, code, reference) => FinishSms(n, if accepted then Sent else Rejected, code, reference, at)
    case _ => FinishSms(n, Unknown, SMS_UNKNOWN, None, at)
  }

  /** What one uninterrupted delivery leaves, and whether it reached the gateway. */
  datatype Delivered = Delivered(store: Store, result: Result<Notification, SettleError>, sent: bool)

  function FinishOnce(s: Store, before: Notification, after: Notification, sent: bool): Delivered {
    match TransitionNotification(s, before.version, after)
    case Err(e) => Delivered(s, Err(e), sent)
    case Ok(s') => Delivered(s', Ok(after), sent)
  }

  function DeliverOnce(s: Store, id: NotificationId, reply: Reply, at: int): Delivered {
    if id !in s.notifications then Delivered(s, Err(SmsNotFound), false)
    else
      var n := s.notifications[id];
      if FinalSms(n.state) then Delivered(s, Ok(n), false)
      else if n.state == Dispatching then FinishOnce(s, n, FinishSms(n, Unknown, SMS_BLOCKED, None, at), false)
      else
        var d := BeginSms(n, at);
        match TransitionNotification(s, n.version, d)
        case Err(e) => Delivered(s, Err(e), false)
        case Ok(s') => FinishOnce(s', d, AfterReply(d, reply, at), !reply.NoDestination?)
  }

  // -------------------------------------------------------------- as it runs

  class InMemorySettlementNotificationStore {
    var evidenceByUtt: map<string, Evidence>
    var notifications: map<NotificationId, Notification>

    ghost function View(): Store
      reads this
    {
      Store(evidenceByUtt, notifications)
    }

    constructor ()
      ensures View() == EMPTY_NOTIFICATIONS
    {
      evidenceByUtt, notifications := map[], map[];
    }

    method Commit(e: Evidence, first: Notification, second: Notification) returns (r: Result<Settlement, SettleError>)
      modifies this
      ensures match CommitSettlement(old(View()), e, first, second)
              case Ok((s, settlement)) => r == Ok(settlement) && View() == s
              case Err(error) => r == Err(error) && View() == old(View())
    {
      if e.uttId in evidenceByUtt {
        var existing := evidenceByUtt[e.uttId];
        if existing.id != e.id {
          return Err(ConflictingEvidence);
        }
        if first.id !in notifications || second.id !in notifications {
          return Err(RowMissing);
        }
        return Ok(Settlement(existing, notifications[first.id], notifications[second.id], true));
      }
      if first.role == second.role {
        return Err(RolesMissing);
      }
      if first.id in notifications || second.id in notifications {
        return Err(IdentifierCollision);
      }
      evidenceByUtt := evidenceByUtt[e.uttId := e];
      notifications := notifications[first.id := first];
      notifications := notifications[second.id := second];
      r := Ok(Settlement(e, first, second, false));
    }

    method Transition(previous: nat, n: Notification) returns (r: Result<(), SettleError>)
      modifies this
      ensures match TransitionNotification(old(View()), previous, n)
              case Ok(s) => r == Ok(()) && View() == s
              case Err(e) => r == Err(e) && View() == old(View())
    {
      if n.id !in notifications {
        return Err(SmsNotFound);
      }
      if notifications[n.id].version != previous {
        return Err(SmsChanged);
      }
      if n.version != previous + 1 {
        return Err(VersionSkipped);
      }
      notifications := notifications[n.id := n];
      r := Ok(());
    }
  }

  class SettlementNotificationService {
    const executions: ES.InMemoryExecutionStore
    const store: InMemorySettlementNotificationStore

    constructor (executions: ES.InMemoryExecutionStore, store: InMemorySettlementNotificationStore)
      ensures this.executions == executions && this.store == store
    {
      this.executions, this.store := executions, store;
    }

    /** Evidence is stored only for a finalized plan whose last attempt succeeded. */
    method ConfirmProviderSettlement(q: Request) returns (r: Result<Settlement, SettleError>)
      requires executions.Valid()
      modifies store
      ensures match Confirm(executions.View(), old(store.View()), q)
              case Ok((s, settlement)) => r == Ok(settlement) && store.View() == s
              case Err(e) => r == Err(e) && store.View() == old(store.View())
    {
      hide Strip, CommitSettlement;
      if !q.uttFound {
        return Err(UttNotFound);
      }
      if !q.signatureValid {
        return Err(InvalidUtt);
      }
      if q.uttId !in executions.planByUtt {
        return Err(NoPlan);
      }
      var plan := executions.plans[executions.planByUtt[q.uttId]];
      if plan.status != E.Finalized || plan.previousRtt.None? {
        return Err(NotFinalized);
      }
      if plan.previousRtt.value !in executions.attempts {
        return Err(NoAttempt);
      }
      var attempt := executions.attempts[plan.previousRtt.value];
      var problem := AttemptProblem(q, Some(attempt));
      if problem.Some? {
        return Err(problem.value);
      }
      r := store.Commit(Evidence(IdentityOf(q), q.uttId, attempt.rttId, q.at), Message(q, Sender),
                        Message(q, Receiver));
    }
  }

  class SmsOutboxRelay {
    const store: InMemorySettlementNotificationStore

    constructor (store: InMemorySettlementNotificationStore)
      ensures this.store == store
    {
      this.store := store;
    }

    /** Take the row, commit that it is being sent, send, commit what became of it. */
    method Deliver(id: NotificationId, reply: Reply, at: int) returns (r: Result<Notification, SettleError>, sent: bool)
      modifies store
      ensures Delivered(store.View(), r, sent) == DeliverOnce(old(store.View()), id, reply, at)
    {
      hide AfterReply, FinishSms;
      sent := false;
      if id !in store.notifications {
        return Err(SmsNotFound), sent;
      }
      var record := store.notifications[id];
      if FinalSms(record.state) {
        return Ok(record), sent;
      }
      if record.state == Dispatching {
        r := Finish(record, FinishSms(record, Unknown, SMS_BLOCKED, None, at), sent);
        return;
      }
      var dispatching := BeginSms(record, at);
      var moved := store.Transition(record.version, dispatching);
      if moved.Err? {
        return Err(moved.error), sent;
      }
      sent := !reply.NoDestination?;
      r := Finish(dispatching, AfterReply(dispatching, reply, at), sent);
    }

    method Finish(before: Notification, after: Notification, ghost sent: bool)
      returns (r: Result<Notification, SettleError>)
      modifies store
      ensures Delivered(store.View(), r, sent) == FinishOnce(old(store.View()), before, after, sent)
    {
      var moved := store.Transition(before.version, after);
      r := if moved.Ok? then Ok(after) else Err(moved.error);
    }
  }
}
