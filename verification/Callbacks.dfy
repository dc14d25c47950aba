/** Provider callbacks: the inbox, the evidence a success must carry, and the one
    pass a callback makes from its receipt to the outcome it records. */
module Callbacks {
  import opened Prelude
  import opened Encoding
  import opened Execution
  import O = Operations

  datatype Kind = ResultCallback | TimeoutCallback

  datatype Param = Text(text: string) | Number(number: int)

  /** A callback body once its fields have been checked and picked out. */
  datatype Payload = Payload(conversationId: string, originatorId: string, transactionId: Option<string>,
                             resultCode: int, description: string, amount: Option<Param>, receipt: Option<Param>)

  datatype CallbackError =
    | NotAuthenticated | NoMatchingSubmission | CorrelationMismatch | MissingTransactionId | MissingExpectedAmount
    | MissingAmount | AmountMismatch | ReceiptMismatch | PayloadConflict | AttemptMissing | ConflictsWithOutcome
    | RecordRejected(cause: ExecError) | SettlementRejected | EventUnknown

  datatype Disposed = AlreadyApplied | NeedsReconciliation | ConfirmedSuccess | ConfirmedRetryable | ConfirmedTerminal

  // ------------------------------------------------------------------- inbox

  datatype InboxState = Received | Applied

  /** A digest stands for what it was taken over: raw bytes, or a normalized payload. */
  datatype Digest = OfBytes(raw: seq<byte>) | OfPayload(payload: Payload)

  datatype InboxRecord = InboxRecord(eventId: string, digest: Digest, signatureValid: bool, state: InboxState,
                                     receivedAt: int, appliedAt: Option<int>)

  type Inbox = map<string, InboxRecord>

  /** The first delivery under an identifier is kept; another body under it is refused. */
  function Ingest(inbox: Inbox, eventId: string, digest: Digest, valid: bool, at: int)
    : Result<(Inbox, InboxRecord, bool), CallbackError>
  {
    if eventId in inbox then
      if inbox[eventId].digest != digest then Err(PayloadConflict) else Ok((inbox, inbox[eventId], true))
    else
      var r := InboxRecord(eventId, digest, valid, Received, at, None);
      Ok((inbox[eventId := r], r, false))
  }

  function MarkApplied(inbox: Inbox, eventId: string, at: int): Result<Inbox, CallbackError> {
    if eventId !in inbox then Err(EventUnknown)
    else if inbox[eventId].state == Applied then Ok(inbox)
    else Ok(inbox[eventId := inbox[eventId].(state := Applied, appliedAt := Some(at))])
  }

  function EventId(kind: Kind, conversationId: string): string {
    (if kind.ResultCallback? then "MPESA-RESULT-" else "MPESA-TIMEOUT-") + conversationId
  }

  function RejectedId(shortHash: string): string { "MPESA-REJECTED-" + shortHash }

  lemma EventIdsDiffer(a: string, b: string, c: string)
    ensures EventId(ResultCallback, a) != EventId(TimeoutCallback, b)
    ensures EventId(ResultCallback, a) != RejectedId(c) && EventId(TimeoutCallback, b) != RejectedId(c)
  {
    assert EventId(ResultCallback, a)[6] == 'R' && EventId(ResultCallback, a)[8] == 'S';
    assert EventId(TimeoutCallback, b)[6] == 'T';
    assert RejectedId(c)[6] == 'R' && RejectedId(c)[8] == 'J';
  }

  class InMemoryCallbackInboxStore {
    var records: Inbox

    constructor ()
      ensures records == map[]
    {
      records := map[];
    }

    method IngestRecord(eventId: string, digest: Digest, valid: bool, at: int)
      returns (r: Result<(InboxRecord, bool), CallbackError>)
      modifies this
      ensures match Ingest(old(records), eventId, digest, valid, at)
              case Ok((inbox, record, duplicate)) => r == Ok((record, duplicate)) && records == inbox
              case Err(e) => r == Err(e) && records == old(records)
    {
      if eventId in records {
        if records[eventId].digest != digest {
          return Err(PayloadConflict);
        }
        return Ok((records[eventId], true));
      }
      var record := InboxRecord(eventId, digest, valid, Received, at, None);
      records := records[eventId := record];
      r := Ok((record, false));
    }

    method Mark(eventId: string, at: int) returns (r: Result<(), CallbackError>)
      modifies this
      ensures match MarkApplied(old(records), eventId, at)
              case Ok(inbox) => r == Ok(()) && records == inbox
              case Err(e) => r == Err(e) && records == old(records)
    {
      if eventId !in records {
        return Err(EventUnknown);
      }
      if records[eventId].state == Applied {
        return Ok(());
      }
      records := records[eventId := records[eventId].(state := Applied, appliedAt := Some(at))];
      r := Ok(());
    }
  }

  // ---------------------------------------------------------------- evidence

  function Lookup(context: seq<(string, string)>, key: string): Option<string> {
    if context == [] then None
    else if context[0].0 == key then Some(context[0].1)
    else Lookup(context[1..], key)
  }

  /** A non-negative whole number written in digits. */
  function NaturalText(s: string): Option<nat> {
    if s != "" && AllDigits(s) then Some(DigitsValue(s)) else None
  }

  function AmountOf(p: Option<Param>): Option<int> {
    match p
    case None => None
    case Some(Number(n)) => Some(n)
    case Some(Text(s)) => NaturalText(s)
  }

  /** None when a success callback proves the dispatched amount under its own receipt. */
  function EvidenceProblem(p: Payload, expected: Option<string>): Option<CallbackError> {
    if p.transactionId.None? || p.transactionId.value == "" then Some(MissingTransactionId)
    else if expected.None? || NaturalText(expected.value).None? then Some(MissingExpectedAmount)
    else if AmountOf(p.amount).None? then Some(MissingAmount)
    else if AmountOf(p.amount).value * 100 != NaturalText(expected.value).value then Some(AmountMismatch)
    else if p.receipt.Some? && p.receipt.value != Text(p.transactionId.value) then Some(ReceiptMismatch)
    else None
  }

  /** A success is believed for exactly the dispatched amount, however it is
      spelled: minor units on our side, whole units on the provider's. */
  lemma EvidenceIsTheDispatchedAmount(p: Payload, minor: nat, whole: int)
    requires p.transactionId.Some? && p.transactionId.value != ""
    requires p.receipt == None || p.receipt == Some(Text(p.transactionId.value))
    requires p.amount == Some(Number(whole)) || (whole >= 0 && p.amount == Some(Text(Decimal(whole))))
    ensures EvidenceProblem(p, Some(Decimal(minor))) == None <==> minor == 100 * whole
  {
    DecimalRoundTrip(minor);
    assert NaturalText(Decimal(minor)) == Some(minor) by { DigitsValueOfDigits(minor); }
    if p.amount.value.Text? {
      assert NaturalText(Decimal(whole)) == Some(whole) by { DigitsValueOfDigits(whole); }
    }
  }

  // ------------------------------------------------------ one callback's pass

  /** The submission a callback answers, and the codes that allow another route. */
  datatype Config = Config(submission: O.Submission, retryable: set<int>)

  const ORIGINATOR_KEY := "originator_conversation_id"

  const AMOUNT_KEY := "amount_minor"

  const TIMEOUT_CODE := "MPESA_CALLBACK_TIMEOUT"

  predicate IsSuccess(kind: Kind, p: Payload) { kind.ResultCallback? && p.resultCode == 0 }

  /** Everything that is checked before the callback enters the inbox. */
  function Refusal(c: Config, kind: Kind, p: Payload): Option<CallbackError> {
    if c.submission.externalRef != Some(p.conversationId) then Some(NoMatchingSubmission)
    else if Lookup(c.submission.context, ORIGINATOR_KEY) != Some(p.originatorId) then Some(CorrelationMismatch)
    else if IsSuccess(kind, p) then EvidenceProblem(p, Lookup(c.submission.context, AMOUNT_KEY))
    else None
  }

  function FailureCode(p: Payload): string { "MPESA_RESULT_" + Decimal(p.resultCode) }

  function FailureKind(c: Config, p: Payload): Disposition {
    if p.resultCode in c.retryable then Retryable else Terminal
  }

  /** What a callback does to an attempt it finds in a given state. */
  datatype Choice = Perform(op: Operation) | Nothing | Conflict

  function Choose(c: Config, kind: Kind, p: Payload, state: AttemptState): Choice {
    match (kind, state)
    case (TimeoutCallback, Created) => Perform(Fail(TIMEOUT_CODE, ReconciliationRequired, 0))
    case (TimeoutCallback, Unresolved) => Nothing
    case (TimeoutCallback, _) => Conflict
    case (ResultCallback, Created) =>
      Perform(if p.resultCode == 0 then Succeed(0) else Fail(FailureCode(p), FailureKind(c, p), 0))
    case (ResultCallback, Unresolved) => Perform(Resolve(p.resultCode == 0, FailureCode(p), FailureKind(c, p), 0))
    case (ResultCallback, Succeeded) => if p.resultCode == 0 then Nothing else Conflict
    case (ResultCallback, AttemptFailed) => if p.resultCode == 0 then Conflict else Nothing
  }

  function DisposedAs(c: Config, kind: Kind, p: Payload): Disposed {
    if kind.TimeoutCallback? then NeedsReconciliation
    else if p.resultCode == 0 then ConfirmedSuccess
    else if FailureKind(c, p).Retryable? then ConfirmedRetryable
    else ConfirmedTerminal
  }

  /** The outcome of one uninterrupted pass. */
  datatype Processed = Processed(inbox: Inbox, store: Store, result: Result<Disposed, CallbackError>)

  function ApplyChoice(s: Store, rttId: string, choice: Choice, at: int): Result<Store, CallbackError> {
    match choice
    case Conflict => Err(ConflictsWithOutcome)
    case Nothing => Ok(s)
    case Perform(op) =>
      match Record(s, rttId, op, at)
      case Err(e) => Err(RecordRejected(e))
      case Ok((s', _)) => Ok(s')
  }

  /** settles says whether the settlement service, asked after a success, accepts. */
  function Process(c: Config, inbox: Inbox, s: Store, kind: Kind, p: Payload, settles: bool, at: int): Processed {
    match Refusal(c, kind, p)
    case Some(e) => Processed(inbox, s, Err(e))
    case None =>
      match Ingest(inbox, EventId(kind, p.conversationId), OfPayload(p), true, at)
      case Err(e) => Processed(inbox, s, Err(e))
      case Ok((inbox1, record, _)) =>
        if record.state == Applied then Processed(inbox1, s, Ok(AlreadyApplied))
        else if c.submission.rttId !in s.attempts then Processed(inbox1, s, Err(AttemptMissing))
        else
          match ApplyChoice(s, c.submission.rttId, Choose(c, kind, p, s.attempts[c.submission.rttId].state), at)
          case Err(e) => Processed(inbox1, s, Err(e))
          case Ok(s') => Conclude(c, inbox1, s', kind, p, settles, at)
  }

  function Conclude(c: Config, inbox: Inbox, s: Store, kind: Kind, p: Payload, settles: bool, at: int): Processed {
    if IsSuccess(kind, p) && !settles then Processed(inbox, s, Err(SettlementRejected))
    else
      match MarkApplied(inbox, EventId(kind, p.conversationId), at)
      case Err(e) => Processed(inbox, s, Err(e))
      case Ok(inbox') => Processed(inbox', s, Ok(DisposedAs(c, kind, p)))
  }
}
