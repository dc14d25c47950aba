/** Provider submissions and the signed outbox: records, decisions and the
    compare-and-swap and lease operations of the store, as functions on values. */
module Operations {
  import opened Prelude

  datatype SubmissionState = Prepared | Dispatching | Accepted | Rejected | Unknown

  datatype ProviderOutcome = OutcomeAccepted | OutcomeRejected | OutcomeUnknown

  datatype RejectionDisposition = RetryableRejection | TerminalRejection

  datatype ProviderRequest = ProviderRequest(rttId: string, uttId: string, providerId: string,
                                             idempotencyKey: string, requestSha: string)

  datatype ProviderResult = ProviderResult(outcome: ProviderOutcome, code: string, externalRef: Option<string>,
                                           disposition: Option<RejectionDisposition>, context: seq<(string, string)>)

  datatype Submission = Submission(
    submissionId: string, idempotencyKey: string, requestSha: string, uttId: string, rttId: string,
    providerId: string, state: SubmissionState, dispatchAttempts: nat, code: Option<string>,
    externalRef: Option<string>, disposition: Option<RejectionDisposition>, context: seq<(string, string)>,
    version: nat, createdAt: int, updatedAt: int)

  datatype EventType =
    | SubmissionPrepared | DispatchStarted | SubmissionAccepted | SubmissionRejected | SubmissionOutcomeUnknown

  datatype EventData =
    | PreparedData(requestSha: string)
    | DispatchData(dispatchAttempt: nat, idempotencySupported: bool)
    | OutcomeData(outcome: ProviderOutcome, code: string, externalRef: Option<string>,
                  disposition: Option<RejectionDisposition>, context: seq<(string, string)>)

  /** The signed content of an event, without its identifier. */
  datatype EventCore = EventCore(eventType: EventType, submissionId: string, uttId: string, rttId: string,
                                 providerId: string, version: nat, data: EventData, occurredAt: int)

  datatype Delivery = Pending | InFlight | Published | DeadLetter

  datatype Row = Row(
    eventId: string, core: EventCore, state: Delivery, attempts: nat, availableAt: int,
    leaseOwner: Option<string>, leaseUntil: Option<int>, lastError: Option<string>, publishedAt: Option<int>,
    version: nat, createdAt: int, updatedAt: int)

  datatype OpError =
    | PreparationConflict | KeyBelongsElsewhere | EventCollision | SubmissionNotFound | ConcurrentSubmission
    | VersionSkipped | AdapterMismatch | InvalidResult | LeaseNotOwned | EventNotFound | InvalidLeaseRequest
    | RttUnknown | PlanUnknown | NotDispatchable | RttRejected | UttUnknown | UttRejected | UttNotBound
    | EndpointUnresolved | SigningRefused

  /** order is the insertion order of the outbox dictionary. */
  datatype Store = Store(submissions: map<string, Submission>, rttByKey: map<string, string>,
                         outbox: map<string, Row>, order: seq<string>)

  /** Whether the signer signs the event of each type; it refuses when its key is not active. */
  type Signer = EventType -> bool

  const EMPTY_OPERATIONS := Store(map[], map[], map[], [])

  predicate FinalState(s: SubmissionState) { s == Accepted || s == Rejected || s == Unknown }

  // ------------------------------------------------------------- submissions

  function NewSubmission(q: ProviderRequest, submissionId: string, at: int): Submission {
    Submission(submissionId, q.idempotencyKey, q.requestSha, q.uttId, q.rttId, q.providerId, Prepared, 0,
               None, None, None, [], 1, at, at)
  }

  function CoreOf(r: Submission, t: EventType, data: EventData, at: int): EventCore {
    EventCore(t, r.submissionId, r.uttId, r.rttId, r.providerId, r.version, data, Seconds(at))
  }

  function NewRow(eventId: string, core: EventCore, at: int): Row {
    Row(eventId, core, Pending, 0, at, None, None, None, None, 1, at, at)
  }

  function AddRow(s: Store, row: Row): Store {
    s.(outbox := s.outbox[row.eventId := row], order := s.order + [row.eventId])
  }

  function PrepareSubmission(s: Store, sub: Submission, row: Row): Result<(Store, Submission), OpError> {
    if sub.rttId in s.submissions then
      var existing := s.submissions[sub.rttId];
      if existing.requestSha != sub.requestSha || existing.idempotencyKey != sub.idempotencyKey
      then Err(PreparationConflict) else Ok((s, existing))
    else if sub.idempotencyKey in s.rttByKey then Err(KeyBelongsElsewhere)
    else if row.eventId in s.outbox then Err(EventCollision)
    else Ok((AddRow(s, row).(submissions := s.submissions[sub.rttId := sub],
                             rttByKey := s.rttByKey[sub.idempotencyKey := sub.rttId]), sub))
  }

  function TransitionSubmission(s: Store, previous: nat, sub: Submission, row: Row): Result<Store, OpError> {
    if sub.rttId !in s.submissions then Err(SubmissionNotFound)
    else if s.submissions[sub.rttId].version != previous then Err(ConcurrentSubmission)
    else if sub.version != previous + 1 then Err(VersionSkipped)
    else if row.eventId in s.outbox then Err(EventCollision)
    else Ok(AddRow(s, row).(submissions := s.submissions[sub.rttId := sub]))
  }

  function BeginDispatch(r: Submission, at: int): Submission {
    r.(state := Dispatching, dispatchAttempts := r.dispatchAttempts + 1, version := r.version + 1, updatedAt := at)
  }

  predicate KeyChar(c: char) { 'a' <= c <= 'z' || '0' <= c <= '9' || c == '_' }

  /** A letter, then up to 63 letters, digits and underscores, all lower case. */
  predicate ContextKey(k: string) {
    1 <= |k| <= 64 && 'a' <= k[0] <= 'z' && forall i :: 0 <= i < |k| ==> KeyChar(k[i])
  }

  predicate ContextOk(c: seq<(string, string)>) {
    && |c| <= 20 && (forall i :: 0 <= i < |c| ==> ContextKey(c[i].0) && c[i].1 != "" && |c[i].1| <= 256)
    && (forall i, j :: 0 <= i < j < |c| ==> c[i].0 != c[j].0)
  }

  predicate ContextBefore(a: (string, string), b: (string, string)) { StrLt(a.0, b.0) }

  predicate ResultOk(r: ProviderResult) {
    && NotBlank(r.code) && ContextOk(r.context)
    && (r.outcome == OutcomeRejected <==> r.disposition.Some?)
  }

  function StateFor(o: ProviderOutcome): SubmissionState {
    match o case OutcomeAccepted => Accepted case OutcomeRejected => Rejected case OutcomeUnknown => Unknown
  }

  function EventFor(o: ProviderOutcome): EventType {
    match o
    case OutcomeAccepted => SubmissionAccepted
    case OutcomeRejected => SubmissionRejected
    case OutcomeUnknown => SubmissionOutcomeUnknown
  }

  function Completed(r: Submission, result: ProviderResult, at: int): Submission {
    r.(state := StateFor(result.outcome), code := Some(Upper(Strip(result.code))), externalRef := result.externalRef,
       disposition := result.disposition, context := Sort(ContextBefore, result.context),
       version := r.version + 1, updatedAt := at)
  }

  function CompletedEvent(r: Submission, result: ProviderResult, at: int): EventCore {
    CoreOf(Completed(r, result, at), EventFor(result.outcome),
           OutcomeData(result.outcome, Upper(Strip(result.code)), result.externalRef, result.disposition,
                       Sort(ContextBefore, result.context)), at)
  }

  const RECOVERY_BLOCKED := ProviderResult(OutcomeUnknown, "NON_IDEMPOTENT_RECOVERY_BLOCKED", None, None, [])

  const ADAPTER_RAISED := ProviderResult(OutcomeUnknown, "ADAPTER_EXCEPTION_OUTCOME_UNKNOWN", None, None, [])

  // ------------------------------------------------------------------ leases

  predicate Claimable(row: Row, at: int) {
    || (row.state == Pending && row.availableAt <= at)
    || (row.state == InFlight && row.leaseUntil.Some? && row.leaseUntil.value <= at)
  }

  predicate RowBefore(a: Row, b: Row) {
    a.availableAt < b.availableAt || (a.availableAt == b.availableAt && StrLt(a.eventId, b.eventId))
  }

  function ClaimableRows(outbox: map<string, Row>, order: seq<string>, at: int): seq<Row> {
    if order == [] then []
    else ClaimableRows(outbox, order[..|order| - 1], at)
         + (if order[|order| - 1] in outbox && Claimable(outbox[order[|order| - 1]], at)
            then [outbox[order[|order| - 1]]] else [])
  }

  function Take<T>(s: seq<T>, n: nat): seq<T> { if |s| <= n then s else s[..n] }

  function ClaimRow(row: Row, worker: string, at: int, lease: nat): Row {
    row.(state := InFlight, attempts := row.attempts + 1, leaseOwner := Some(worker),
         leaseUntil := Some(at + lease * SECOND), version := row.version + 1, updatedAt := at)
  }

  function ClaimAll(outbox: map<string, Row>, rows: seq<Row>, worker: string, at: int, lease: nat): map<string, Row> {
    if rows == [] then outbox
    else ClaimAll(outbox, rows[..|rows| - 1], worker, at, lease)
         [rows[|rows| - 1].eventId := ClaimRow(rows[|rows| - 1], worker, at, lease)]
  }

  function Chosen(s: Store, at: int, limit: nat): seq<Row> {
    Take(Sort(RowBefore, ClaimableRows(s.outbox, s.order, at)), limit)
  }

  function ClaimedRows(rows: seq<Row>, worker: string, at: int, lease: nat): (r: seq<Row>)
    ensures |r| == |rows| && forall i :: 0 <= i < |rows| ==> r[i] == ClaimRow(rows[i], worker, at, lease)
  {
    seq(|rows|, i requires 0 <= i < |rows| => ClaimRow(rows[i], worker, at, lease))
  }

  function ClaimOutbox(s: Store, worker: string, at: int, lease: nat, limit: nat): Result<(Store, seq<Row>), OpError> {
    if !NotBlank(worker) || !(1 <= lease <= 300) || !(1 <= limit <= 1000) then Err(InvalidLeaseRequest)
    else
      var rows := Chosen(s, at, limit);
      Ok((s.(outbox := ClaimAll(s.outbox, rows, worker, at, lease)), ClaimedRows(rows, worker, at, lease)))
  }

  predicate Owns(s: Store, eventId: string, worker: string) {
    eventId in s.outbox && s.outbox[eventId].state == InFlight && s.outbox[eventId].leaseOwner == Some(worker)
  }

  function PublishedRow(row: Row, at: int): Row {
    row.(state := Published, leaseOwner := None, leaseUntil := None, lastError := None, publishedAt := Some(at),
         version := row.version + 1, updatedAt := at)
  }

  function RescheduledRow(row: Row, at: int, availableAt: int, error: string, maxAttempts: nat): Row {
    row.(state := if row.attempts >= maxAttempts then DeadLetter else Pending, availableAt := availableAt,
         leaseOwner := None, leaseUntil := None, lastError := Some(Take(error, 1000)),
         version := row.version + 1, updatedAt := at)
  }

  function MarkPublished(s: Store, eventId: string, worker: string, at: int): Result<Store, OpError> {
    if eventId !in s.outbox then Err(EventNotFound)
    else if !Owns(s, eventId, worker) then Err(LeaseNotOwned)
    else Ok(s.(outbox := s.outbox[eventId := PublishedRow(s.outbox[eventId], at)]))
  }

  function Reschedule(s: Store, eventId: string, worker: string, at: int, availableAt: int, error: string,
                      maxAttempts: nat): Result<Store, OpError> {
    if !NotBlank(error) || !(1 <= maxAttempts <= 100) then Err(InvalidLeaseRequest)
    else if eventId !in s.outbox then Err(EventNotFound)
    else if !Owns(s, eventId, worker) then Err(LeaseNotOwned)
    else Ok(s.(outbox := s.outbox[eventId := RescheduledRow(s.outbox[eventId], at, availableAt, error, maxAttempts)]))
  }

  function Pow2(n: nat): nat { if n == 0 then 1 else 2 * Pow2(n - 1) }

  /** Exponential back-off, capped at five minutes. */
  function Delay(attempts: nat): int { Min(300, Pow2(Min(attempts, 8))) }

  const PUBLISH_ERROR := "PublishError"

  // ---------------------------------------------------------- facts of claims

  lemma {:induction false} ClaimableMembers(outbox: map<string, Row>, order: seq<string>, at: int)
    ensures forall row :: row in ClaimableRows(outbox, order, at) <==>
              exists id :: id in order && id in outbox && outbox[id] == row && Claimable(row, at)
  {
    if order != [] {
      var init, last := order[..|order| - 1], order[|order| - 1];
      assert order == init + [last];
      ClaimableMembers(outbox, init, at);
    }
  }

  lemma RowOrder()
    ensures Transitive(RowBefore) && Asymmetric(RowBefore)
  {
    forall x: Row, y: Row, z: Row | RowBefore(x, y) && RowBefore(y, z) ensures RowBefore(x, z) {
      if x.availableAt == y.availableAt == z.availableAt { StrLtTransitive(x.eventId, y.eventId, z.eventId); }
    }
    forall x: Row, y: Row | RowBefore(x, y) ensures !RowBefore(y, x) {
      if x.availableAt == y.availableAt { StrLtAsymmetric(x.eventId, y.eventId); }
    }
  }

  /** The outbox dictionary and its insertion order: each event once, under its own identifier. */
  ghost predicate OutboxOk(outbox: map<string, Row>, order: seq<string>) {
    && Distinct(order) && (forall id :: id in order <==> id in outbox)
    && (forall id :: id in outbox ==> outbox[id].eventId == id)
  }

  lemma {:induction false} ClaimableComparable(outbox: map<string, Row>, order: seq<string>, at: int)
    requires Distinct(order) && forall id :: id in order ==> id in outbox && outbox[id].eventId == id
    ensures Comparable(RowBefore, ClaimableRows(outbox, order, at))
  {
    if order != [] {
      var init, last := order[..|order| - 1], order[|order| - 1];
      assert order == init + [last];
      assert Distinct(init) && last !in init;
      ClaimableComparable(outbox, init, at);
      ClaimableMembers(outbox, init, at);
      var rows := ClaimableRows(outbox, init, at);
      forall i | 0 <= i < |rows| ensures RowBefore(rows[i], outbox[last]) || RowBefore(outbox[last], rows[i]) {
        assert rows[i] in rows;
        StrLtTotal(rows[i].eventId, last);
      }
    }
  }

  /** A claim takes the earliest claimable rows: each chosen row is claimable and
      stored, none is chosen twice, and a claimable row left behind means that the
      batch is full and every chosen row comes before it. */
  lemma ChosenAreEarliest(s: Store, at: int, limit: nat)
    requires OutboxOk(s.outbox, s.order)
    ensures var rows := Chosen(s, at, limit);
            && |rows| <= limit
            && (forall i :: 0 <= i < |rows| ==>
                  rows[i].eventId in s.outbox && s.outbox[rows[i].eventId] == rows[i] && Claimable(rows[i], at))
            && (forall i, j :: 0 <= i < j < |rows| ==> rows[i].eventId != rows[j].eventId)
            && (forall id :: id in s.outbox && Claimable(s.outbox[id], at) && s.outbox[id] !in rows ==>
                  |rows| == limit && forall i :: 0 <= i < |rows| ==> RowBefore(rows[i], s.outbox[id]))
  {
    var all := ClaimableRows(s.outbox, s.order, at);
    var sorted := Sort(RowBefore, all);
    var rows := Chosen(s, at, limit);
    ClaimableMembers(s.outbox, s.order, at);
    ClaimableComparable(s.outbox, s.order, at);
    RowOrder();
    SortAscends(RowBefore, all);
    forall i | 0 <= i < |rows| ensures
      rows[i].eventId in s.outbox && s.outbox[rows[i].eventId] == rows[i] && Claimable(rows[i], at) {
      assert rows[i] == sorted[i] && sorted[i] in all;
    }
    forall i, j | 0 <= i < j < |rows| ensures rows[i].eventId != rows[j].eventId {
      assert RowBefore(sorted[i], sorted[j]) && !RowBefore(sorted[j], sorted[i]);
      assert s.outbox[rows[i].eventId] != s.outbox[rows[j].eventId];
    }
    forall id | id in s.outbox && Claimable(s.outbox[id], at) && s.outbox[id] !in rows
      ensures |rows| == limit && forall i :: 0 <= i < |rows| ==> RowBefore(rows[i], s.outbox[id]) {
      assert s.outbox[id] in all && s.outbox[id] in sorted;
      var k :| 0 <= k < |sorted| && sorted[k] == s.outbox[id];
      assert forall i :: 0 <= i < |rows| ==> rows[i] == sorted[i] && i != k;
      assert limit <= k;
    }
  }

  ghost predicate Picked(rows: seq<Row>, id: string) { exists i :: 0 <= i < |rows| && rows[i].eventId == id }

  /** A claim rewrites the chosen rows and nothing else. */
  lemma {:induction false} ClaimAllAt(outbox: map<string, Row>, rows: seq<Row>, worker: string, at: int, lease: nat,
                                      id: string)
    ensures var r := ClaimAll(outbox, rows, worker, at, lease);
            && (id in r <==> id in outbox || Picked(rows, id))
            && (!Picked(rows, id) && id in outbox ==> r[id] == outbox[id])
            && (Picked(rows, id) ==> exists i :: 0 <= i < |rows| && rows[i].eventId == id
                                                 && r[id] == ClaimRow(rows[i], worker, at, lease))
  {
    if rows != [] {
      var init, last := rows[..|rows| - 1], rows[|rows| - 1];
      ClaimAllAt(outbox, init, worker, at, lease, id);
      if last.eventId != id {
        assert Picked(rows, id) <==> Picked(init, id) by {
          if i :| 0 <= i < |rows| && rows[i].eventId == id { assert init[i].eventId == id; }
          if i :| 0 <= i < |init| && init[i].eventId == id { assert rows[i].eventId == id; }
        }
        if Picked(init, id) {
          var i :| 0 <= i < |init| && init[i].eventId == id
                   && ClaimAll(outbox, init, worker, at, lease)[id] == ClaimRow(init[i], worker, at, lease);
          assert rows[i] == init[i];
        }
      }
    }
  }
}
