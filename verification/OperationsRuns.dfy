/** Any number of dispatch workers and outbox relays over one store, with a crash
    possible between any two steps. */
module OperationsRuns {
  import opened Prelude
  import opened Operations

  datatype Adapter = Adapter(providerId: string, idempotent: bool)

  /** Between the steps of dispatch: the record as read, the committed dispatch
      whose provider call is still to be made, the reply still to be recorded. */
  datatype Dispatcher =
    | Off
    | Holding(record: Submission, request: ProviderRequest, adapter: Adapter)
    | MustCall(record: Submission, request: ProviderRequest, adapter: Adapter)
    | Called(record: Submission, reply: ProviderResult)

  /** Between the steps of a batch: the rows still to be published, and whether
      the publisher has returned for the first of them. */
  datatype Relay =
    | Resting
    | Batch(worker: string, at: int, rows: seq<Row>, returned: Option<bool>)

  /** One call of a provider adapter and what it returned, if it did not raise. */
  datatype Call = Call(rttId: string, version: nat, key: string, sha: string, idempotent: bool, provider: string,
                       reply: Option<ProviderResult>)

  /** trail lists the event of each version of a submission; published collects
      the events whose publish call returned. */
  datatype World = World(store: Store, dispatchers: map<int, Dispatcher>, relays: map<int, Relay>,
                         calls: seq<Call>, published: set<string>, trail: map<string, seq<string>>)

  const INITIAL := World(EMPTY_OPERATIONS, map[], map[], [], {}, map[])

  /** The relay's delivery cap and the content hash that names events. */
  datatype Config = Config(maxAttempts: nat, eventId: EventCore -> string)

  datatype Action =
    | Prepare(k: int, request: ProviderRequest, submissionId: string, adapter: Adapter, signs: Signer, at: int)
    | Advance(k: int, signs: Signer, at: int)
    | CallProvider(k: int, reply: Option<ProviderResult>)
    | Finish(k: int, signs: Signer, at: int)
    | StopDispatcher(k: int)
    | Claim(k: int, worker: string, at: int, lease: nat, limit: nat)
    | Publish(k: int, ok: bool)
    | Settle(k: int)
    | StopRelay(k: int)

  function DispatcherOf(w: World, k: int): Dispatcher { if k in w.dispatchers then w.dispatchers[k] else Off }

  function RelayOf(w: World, k: int): Relay { if k in w.relays then w.relays[k] else Resting }

  function SetD(w: World, k: int, d: Dispatcher): World { w.(dispatchers := w.dispatchers[k := d]) }

  function SetR(w: World, k: int, r: Relay): World { w.(relays := w.relays[k := r]) }

  /** Record and signed event committed together, or neither. */
  function Commit(c: Config, w: World, k: int, before: Submission, after: Submission, core: EventCore, signs: Signer,
                  next: Dispatcher): World
  {
    if !signs(core.eventType) then SetD(w, k, Off)
    else match TransitionSubmission(w.store, before.version, after, NewRow(c.eventId(core), core, after.updatedAt))
    case Err(_) => SetD(w, k, Off)
    case Ok(s) =>
      var t := if after.rttId in w.trail then w.trail[after.rttId] else [];
      SetD(w, k, next).(store := s, trail := w.trail[after.rttId := t + [c.eventId(core)]])
  }

  function DoPrepare(c: Config, w: World, k: int, q: ProviderRequest, sid: string, a: Adapter, signs: Signer,
                     at: int): World
  {
    var sub := NewSubmission(q, sid, at);
    var core := CoreOf(sub, SubmissionPrepared, PreparedData(q.requestSha), at);
    if !signs(SubmissionPrepared) then SetD(w, k, Off)
    else match PrepareSubmission(w.store, sub, NewRow(c.eventId(core), core, at))
    case Err(_) => SetD(w, k, Off)
    case Ok((s, stored)) =>
      var next := if Upper(a.providerId) != stored.providerId || FinalState(stored.state) then Off
                  else Holding(stored, q, a);
      if q.rttId in w.store.submissions then SetD(w, k, next)
      else SetD(w, k, next).(store := s, trail := w.trail[q.rttId := [c.eventId(core)]])
  }

  function DoAdvance(c: Config, w: World, k: int, signs: Signer, at: int): World {
    match DispatcherOf(w, k)
    case Holding(r, q, a) =>
      if r.state == Dispatching && !a.idempotent then
        Commit(c, w, k, r, Completed(r, RECOVERY_BLOCKED, at), CompletedEvent(r, RECOVERY_BLOCKED, at), signs, Off)
      else
        var d := BeginDispatch(r, at);
        Commit(c, w, k, r, d, CoreOf(d, DispatchStarted, DispatchData(d.dispatchAttempts, a.idempotent), at), signs,
               MustCall(d, q, a))
    case _ => w
  }

  function DoCall(w: World, k: int, reply: Option<ProviderResult>): World {
    match DispatcherOf(w, k)
    case MustCall(r, q, a) =>
      SetD(w, k, Called(r, if reply.Some? then reply.value else ADAPTER_RAISED))
        .(calls := w.calls + [Call(q.rttId, r.version, q.idempotencyKey, q.requestSha, a.idempotent, a.providerId,
                                   reply)])
    case _ => w
  }

  function DoFinish(c: Config, w: World, k: int, signs: Signer, at: int): World {
    match DispatcherOf(w, k)
    case Called(r, reply) =>
      if !ResultOk(reply) then SetD(w, k, Off)
      else Commit(c, w, k, r, Completed(r, reply, at), CompletedEvent(r, reply, at), signs, Off)
    case _ => w
  }

  function DoClaim(w: World, k: int, worker: string, at: int, lease: nat, limit: nat): World {
    match ClaimOutbox(w.store, worker, at, lease, limit)
    case Err(_) => SetR(w, k, Resting)
    case Ok((s, rows)) => SetR(w, k, Batch(worker, at, rows, None)).(store := s)
  }

  function DoPublish(w: World, k: int, ok: bool): World {
    match RelayOf(w, k)
    case Batch(worker, at, rows, None) =>
      if rows == [] then SetR(w, k, Resting)
      else SetR(w, k, Batch(worker, at, rows, Some(ok)))
             .(published := if ok then w.published + {rows[0].eventId} else w.published)
    case _ => w
  }

  function DoSettle(c: Config, w: World, k: int): World {
    match RelayOf(w, k)
    case Batch(worker, at, rows, Some(ok)) =>
      if rows == [] then SetR(w, k, Resting)
      else
        var r := if ok then MarkPublished(w.store, rows[0].eventId, worker, at)
                 else Reschedule(w.store, rows[0].eventId, worker, at, at + Delay(rows[0].attempts) * SECOND,
                                 PUBLISH_ERROR, c.maxAttempts);
        (match r
         case Err(_) => SetR(w, k, Resting)
         case Ok(s) => SetR(w, k, Batch(worker, at, rows[1..], None)).(store := s))
    case _ => w
  }

  function Do(c: Config, w: World, a: Action): World {
    match a
    case Prepare(k, q, sid, ad, signs, at) => DoPrepare(c, w, k, q, sid, ad, signs, at)
    case Advance(k, signs, at) => DoAdvance(c, w, k, signs, at)
    case CallProvider(k, reply) => DoCall(w, k, reply)
    case Finish(k, signs, at) => DoFinish(c, w, k, signs, at)
    case StopDispatcher(k) => SetD(w, k, Off)
    case Claim(k, worker, at, lease, limit) => DoClaim(w, k, worker, at, lease, limit)
    case Publish(k, ok) => DoPublish(w, k, ok)
    case Settle(k) => DoSettle(c, w, k)
    case StopRelay(k) => SetR(w, k, Resting)
  }

  function Exec(c: Config, w: World, actions: seq<Action>): World
    decreases |actions|
  {
    if actions == [] then w else Exec(c, Do(c, w, actions[0]), actions[1..])
  }

  // ---------------------------------------------------------- the invariant

  ghost predicate RecordOk(r: Submission) {
    && 1 <= r.version && (r.state == Prepared <==> r.version == 1)
    && r.dispatchAttempts == r.version - (if FinalState(r.state) then 2 else 1)
    && (!FinalState(r.state) ==> r.code == None && r.externalRef == None && r.disposition == None)
  }

  function StateEvent(s: SubmissionState): EventType {
    match s
    case Prepared => SubmissionPrepared
    case Dispatching => DispatchStarted
    case Accepted => SubmissionAccepted
    case Rejected => SubmissionRejected
    case Unknown => SubmissionOutcomeUnknown
  }

  function DataCode(d: EventData): Option<string> { if d.OutcomeData? then Some(d.code) else None }

  function DataRef(d: EventData): Option<string> { if d.OutcomeData? then d.externalRef else None }

  function DataDisposition(d: EventData): Option<RejectionDisposition> {
    if d.OutcomeData? then d.disposition else None
  }

  /** An event that says what the record says. */
  ghost predicate Describes(e: EventCore, r: Submission) {
    && e.submissionId == r.submissionId && e.uttId == r.uttId && e.rttId == r.rttId && e.providerId == r.providerId
    && e.version == r.version && e.eventType == StateEvent(r.state)
    && DataCode(e.data) == r.code && DataRef(e.data) == r.externalRef && DataDisposition(e.data) == r.disposition
    && e.occurredAt == Seconds(r.updatedAt)
    && match r.state
       case Prepared => e.data == PreparedData(r.requestSha)
       case Dispatching => e.data.DispatchData? && e.data.dispatchAttempt == r.dispatchAttempts
       case Accepted => e.data.OutcomeData? && e.data.outcome == OutcomeAccepted && e.data.context == r.context
       case Rejected => e.data.OutcomeData? && e.data.outcome == OutcomeRejected && e.data.context == r.context
       case Unknown => e.data.OutcomeData? && e.data.outcome == OutcomeUnknown && e.data.context == r.context
  }

  ghost predicate EventAt(outbox: map<string, Row>, sid: string, r: string, t: seq<string>, i: int) {
    0 <= i < |t| ==>
      && t[i] in outbox && outbox[t[i]].core.rttId == r && outbox[t[i]].core.version == i + 1
      && outbox[t[i]].core.submissionId == sid
  }

  /** One event for each version of a submission, the newest describing the record. */
  ghost predicate SubmissionOk(s: Store, t: seq<string>, r: string) {
    && r in s.submissions && s.submissions[r].rttId == r && RecordOk(s.submissions[r])
    && |t| == s.submissions[r].version && (forall i :: EventAt(s.outbox, s.submissions[r].submissionId, r, t, i))
    && t[|t| - 1] in s.outbox && Describes(s.outbox[t[|t| - 1]].core, s.submissions[r])
  }

  ghost predicate SubmissionsOk(w: World) {
    && w.trail.Keys == w.store.submissions.Keys
    && (forall r :: r in w.store.submissions ==> SubmissionOk(w.store, w.trail[r], r))
  }

  /** An outbox event is the event of some version of some submission. */
  ghost predicate EventOk(c: Config, w: World, e: string) {
    e in w.store.outbox ==>
      var row := w.store.outbox[e];
      && row.eventId == e == c.eventId(row.core)
      && row.core.rttId in w.trail && 1 <= row.core.version <= |w.trail[row.core.rttId]|
      && w.trail[row.core.rttId][row.core.version - 1] == e
  }

  ghost predicate EventsOk(c: Config, w: World) {
    OutboxOk(w.store.outbox, w.store.order) && forall e :: EventOk(c, w, e)
  }

  /** A record as it was read or written: no newer than the stored one, equal at
      the same version, and of the same request. */
  ghost predicate Snapshot(s: Store, r: Submission) {
    && r.rttId in s.submissions && 1 <= r.version <= s.submissions[r.rttId].version
    && (r.version == s.submissions[r.rttId].version ==> r == s.submissions[r.rttId])
    && r.idempotencyKey == s.submissions[r.rttId].idempotencyKey && r.requestSha == s.submissions[r.rttId].requestSha
  }

  ghost predicate SameRequest(r: Submission, q: ProviderRequest) {
    r.rttId == q.rttId && r.idempotencyKey == q.idempotencyKey && r.requestSha == q.requestSha
  }

  ghost predicate DispatcherOk(s: Store, d: Dispatcher) {
    match d
    case Off => true
    case Holding(r, q, a) => Snapshot(s, r) && SameRequest(r, q) && RecordOk(r) && !FinalState(r.state)
    case MustCall(r, q, a) =>
      Snapshot(s, r) && SameRequest(r, q) && RecordOk(r) && r.state == Dispatching && (!a.idempotent ==> r.version == 2)
    case Called(r, reply) => Snapshot(s, r) && RecordOk(r) && r.state == Dispatching
  }

  ghost predicate DispatchersOk(w: World) {
    forall k :: k in w.dispatchers ==> DispatcherOk(w.store, w.dispatchers[k])
  }

  /** The calls made so far, and the ones still owed, each belong to a different
      committed dispatch. */
  ghost predicate CallOk(s: Store, c: Call) {
    && c.rttId in s.submissions && c.version <= s.submissions[c.rttId].version
    && c.key == s.submissions[c.rttId].idempotencyKey && c.sha == s.submissions[c.rttId].requestSha
    && (!c.idempotent ==> c.version == 2)
  }

  ghost predicate CallsOk(w: World) {
    && (forall i :: 0 <= i < |w.calls| ==> CallOk(w.store, w.calls[i]))
    && (forall i, j :: 0 <= i < j < |w.calls| ==>
          w.calls[i].rttId != w.calls[j].rttId || w.calls[i].version != w.calls[j].version)
    && (forall k, i :: k in w.dispatchers && w.dispatchers[k].MustCall? && 0 <= i < |w.calls| ==>
          w.calls[i].rttId != w.dispatchers[k].record.rttId || w.calls[i].version != w.dispatchers[k].record.version)
    && (forall k, l :: k in w.dispatchers && l in w.dispatchers && k != l
                       && w.dispatchers[k].MustCall? && w.dispatchers[l].MustCall? ==>
          (w.dispatchers[k].record.rttId != w.dispatchers[l].record.rttId
           || w.dispatchers[k].record.version != w.dispatchers[l].record.version))
  }

  ghost predicate Inv(c: Config, w: World) {
    SubmissionsOk(w) && EventsOk(c, w) && DispatchersOk(w) && CallsOk(w)
  }

  // ----------------------------------------------------- kinds of change

  /** Deliveries change, events and submissions do not. */
  ghost predicate SameEvents(s: Store, s': Store) {
    && s'.submissions == s.submissions && s'.order == s.order
    && s'.outbox.Keys == s.outbox.Keys
    && (forall e :: e in s.outbox ==>
          s'.outbox[e].core == s.outbox[e].core && s'.outbox[e].eventId == s.outbox[e].eventId)
  }

  /** A submission written together with its event. */
  ghost predicate Records(c: Config, w: World, w': World, after: Submission, core: EventCore) {
    && c.eventId(core) !in w.store.outbox && core.rttId == after.rttId && core.version == after.version
    && (exists at :: w'.store.outbox == w.store.outbox[c.eventId(core) := NewRow(c.eventId(core), core, at)])
    && w'.store.order == w.store.order + [c.eventId(core)]
    && w'.store.submissions == w.store.submissions[after.rttId := after]
    && var t := if after.rttId in w.trail then w.trail[after.rttId] else [];
       w'.trail == w.trail[after.rttId := t + [c.eventId(core)]]
  }

  lemma SameEventsKeepSubmissions(w: World, w': World)
    requires SubmissionsOk(w) && SameEvents(w.store, w'.store) && w'.trail == w.trail
    ensures SubmissionsOk(w')
  {
    forall r | r in w'.store.submissions ensures SubmissionOk(w'.store, w'.trail[r], r) {
      assert SubmissionOk(w.store, w.trail[r], r);
      var sid := w.store.submissions[r].submissionId;
      forall i ensures EventAt(w'.store.outbox, sid, r, w.trail[r], i) {
        assert EventAt(w.store.outbox, sid, r, w.trail[r], i);
      }
    }
  }

  lemma SameEventsKeepEvents(c: Config, w: World, w': World)
    requires EventsOk(c, w) && SameEvents(w.store, w'.store) && w'.trail == w.trail
    ensures EventsOk(c, w')
  {
    forall e ensures EventOk(c, w', e) {
      assert EventOk(c, w, e);
    }
  }

  lemma RecordKeepsOther(c: Config, w: World, w': World, after: Submission, core: EventCore, r: string)
    requires SubmissionsOk(w) && Records(c, w, w', after, core) && r in w.store.submissions && r != after.rttId
    ensures r in w'.trail && SubmissionOk(w'.store, w'.trail[r], r)
  {
    var t := w.trail[r];
    var sid := w.store.submissions[r].submissionId;
    assert SubmissionOk(w.store, t, r);
    forall i ensures EventAt(w'.store.outbox, sid, r, t, i) {
      assert EventAt(w.store.outbox, sid, r, t, i);
    }
  }

  lemma RecordKeepsOwn(c: Config, w: World, w': World, after: Submission, core: EventCore)
    requires SubmissionsOk(w) && Records(c, w, w', after, core) && RecordOk(after) && Describes(core, after)
    requires after.version
             == 1 + (if after.rttId in w.store.submissions then w.store.submissions[after.rttId].version else 0)
    requires after.rttId in w.store.submissions ==> w.store.submissions[after.rttId].submissionId == after.submissionId
    ensures after.rttId in w'.trail && SubmissionOk(w'.store, w'.trail[after.rttId], after.rttId)
  {
    var r, e := after.rttId, c.eventId(core);
    var t := if r in w.trail then w.trail[r] else [];
    var t' := w'.trail[r];
    assert r in w.trail ==> SubmissionOk(w.store, t, r);
    assert w'.store.outbox[e].core == core;
    forall i ensures EventAt(w'.store.outbox, after.submissionId, r, t', i) {
      if 0 <= i < |t| { assert EventAt(w.store.outbox, after.submissionId, r, t, i); assert t'[i] == t[i]; }
    }
  }

  lemma RecordKeepsSubmissions(c: Config, w: World, w': World, after: Submission, core: EventCore)
    requires SubmissionsOk(w) && Records(c, w, w', after, core) && RecordOk(after) && Describes(core, after)
    requires after.version
             == 1 + (if after.rttId in w.store.submissions then w.store.submissions[after.rttId].version else 0)
    requires after.rttId in w.store.submissions ==> w.store.submissions[after.rttId].submissionId == after.submissionId
    ensures SubmissionsOk(w')
  {
    hide SubmissionOk;
    RecordKeepsOwn(c, w, w', after, core);
    forall r | r in w'.store.submissions ensures SubmissionOk(w'.store, w'.trail[r], r) {
      if r != after.rttId { RecordKeepsOther(c, w, w', after, core, r); }
    }
    assert w'.trail.Keys == w.trail.Keys + {after.rttId};
  }

  lemma RecordKeepsEvents(c: Config, w: World, w': World, after: Submission, core: EventCore)
    requires SubmissionsOk(w) && EventsOk(c, w) && Records(c, w, w', after, core)
    requires after.version
             == 1 + (if after.rttId in w.store.submissions then w.store.submissions[after.rttId].version else 0)
    ensures EventsOk(c, w')
  {
    hide Describes, RecordOk;
    var e := c.eventId(core);
    assert after.rttId in w.trail ==> SubmissionOk(w.store, w.trail[after.rttId], after.rttId);
    assert e !in w.store.order;
    forall x ensures EventOk(c, w', x) {
      assert EventOk(c, w, x);
    }
  }

  /** How one write moves the submissions. */
  ghost predicate Advances(s: Store, s': Store) {
    forall r :: r in s.submissions ==>
      && r in s'.submissions && s.submissions[r].version <= s'.submissions[r].version
      && (s.submissions[r].version == s'.submissions[r].version ==> s'.submissions[r] == s.submissions[r])
      && s'.submissions[r].idempotencyKey == s.submissions[r].idempotencyKey
      && s'.submissions[r].requestSha == s.submissions[r].requestSha
  }

  lemma AdvancesKeepDispatcher(s: Store, s': Store, d: Dispatcher)
    requires Advances(s, s') && DispatcherOk(s, d)
    ensures DispatcherOk(s', d)
  {
    hide RecordOk;
  }

  lemma AdvancesKeepDispatchers(w: World, w': World, k: int)
    requires DispatchersOk(w) && Advances(w.store, w'.store)
    requires forall l :: l in w'.dispatchers && l != k ==> l in w.dispatchers && w'.dispatchers[l] == w.dispatchers[l]
    requires k in w'.dispatchers ==> DispatcherOk(w'.store, w'.dispatchers[k])
    ensures DispatchersOk(w')
  {
    hide DispatcherOk;
    forall l | l in w'.dispatchers ensures DispatcherOk(w'.store, w'.dispatchers[l]) {
      if l != k { AdvancesKeepDispatcher(w.store, w'.store, w.dispatchers[l]); }
    }
  }

  lemma AdvancesKeepCalls(w: World, w': World, k: int)
    requires CallsOk(w) && Advances(w.store, w'.store) && w'.calls == w.calls
    requires forall l :: l in w'.dispatchers && l != k ==> l in w.dispatchers && w'.dispatchers[l] == w.dispatchers[l]
    requires k in w'.dispatchers && w'.dispatchers[k].MustCall? ==>
               var r := w'.dispatchers[k].record;
               r.rttId in w.store.submissions && r.version > w.store.submissions[r.rttId].version
    requires forall l :: l in w.dispatchers && w.dispatchers[l].MustCall? ==>
               var r := w.dispatchers[l].record;
               r.rttId in w.store.submissions && r.version <= w.store.submissions[r.rttId].version
    ensures CallsOk(w')
  {
    forall i | 0 <= i < |w'.calls| ensures CallOk(w'.store, w'.calls[i]) {
      assert CallOk(w.store, w.calls[i]);
    }
  }

  // ----------------------------------------------------- each step keeps it

  /** What a committed step of one dispatcher must be. */
  ghost predicate GoodMove(before: Submission, after: Submission, core: EventCore, next: Dispatcher) {
    && after.rttId == before.rttId && after.version == before.version + 1
    && after.idempotencyKey == before.idempotencyKey && after.requestSha == before.requestSha
    && after.submissionId == before.submissionId
    && RecordOk(after) && Describes(core, after) && !FinalState(before.state)
    && (next.Off? || (next.MustCall? && next.record == after && SameRequest(after, next.request)
                      && after.state == Dispatching && (!next.adapter.idempotent ==> after.version == 2)))
  }

  lemma CommitShape(c: Config, w: World, k: int, before: Submission, after: Submission, core: EventCore, signs: Signer,
                    next: Dispatcher)
    requires core.rttId == after.rttId && core.version == after.version && after.version == before.version + 1
    ensures var w' := Commit(c, w, k, before, after, core, signs, next);
            || w' == SetD(w, k, Off)
            || (&& Records(c, w, w', after, core) && w'.dispatchers == w.dispatchers[k := next] && w'.calls == w.calls
                && w'.relays == w.relays && w'.published == w.published
                && after.rttId in w.store.submissions && w.store.submissions[after.rttId].version == before.version)
  {
    var w' := Commit(c, w, k, before, after, core, signs, next);
    if w' != SetD(w, k, Off) {
      assert w'.store.outbox == w.store.outbox[c.eventId(core) := NewRow(c.eventId(core), core, after.updatedAt)];
    }
  }

  lemma StopKeepsInv(c: Config, w: World, k: int)
    requires Inv(c, w)
    ensures Inv(c, SetD(w, k, Off))
  {
    hide SubmissionsOk, EventOk, OutboxOk, CallOk;
    var w' := SetD(w, k, Off);
    assert SubmissionsOk(w') by { SameEventsKeepSubmissions(w, w'); }
    assert forall e :: EventOk(c, w', e) by { SameEventsKeepEvents(c, w, w'); }
    assert DispatcherOk(w.store, Off);
  }

  lemma MustCallsAreOld(w: World)
    requires DispatchersOk(w)
    ensures forall l :: l in w.dispatchers && w.dispatchers[l].MustCall? ==>
               var r := w.dispatchers[l].record;
               r.rttId in w.store.submissions && r.version <= w.store.submissions[r.rttId].version
  {
    forall l | l in w.dispatchers && w.dispatchers[l].MustCall?
      ensures var r := w.dispatchers[l].record;
              r.rttId in w.store.submissions && r.version <= w.store.submissions[r.rttId].version
    {
      assert DispatcherOk(w.store, w.dispatchers[l]);
    }
  }

  lemma CommitKeepsInv(c: Config, w: World, k: int, before: Submission, after: Submission, core: EventCore,
                       signs: Signer, next: Dispatcher)
    requires Inv(c, w) && Snapshot(w.store, before) && GoodMove(before, after, core, next)
    ensures Inv(c, Commit(c, w, k, before, after, core, signs, next))
  {
    hide SubmissionsOk, EventsOk, DispatchersOk, CallsOk, Commit, Describes, Records;
    var w' := Commit(c, w, k, before, after, core, signs, next);
    DescribesShape(core, after);
    CommitShape(c, w, k, before, after, core, signs, next);
    if w' == SetD(w, k, Off) {
      StopKeepsInv(c, w, k);
    } else {
      MoveAdvances(c, w, w', before, after, core);
      RecordKeepsSubmissions(c, w, w', after, core);
      RecordKeepsEvents(c, w, w', after, core);
      NextIsOk(c, w, w', after, core, next);
      AdvancesKeepDispatchers(w, w', k);
      MustCallsAreOld(w);
      AdvancesKeepCalls(w, w', k);
    }
  }

  lemma DescribesShape(core: EventCore, r: Submission)
    requires Describes(core, r)
    ensures core.rttId == r.rttId && core.version == r.version
  {
  }

  lemma MoveAdvances(c: Config, w: World, w': World, before: Submission, after: Submission, core: EventCore)
    requires Snapshot(w.store, before) && Records(c, w, w', after, core)
    requires after.rttId == before.rttId && after.version == before.version + 1
    requires after.idempotencyKey == before.idempotencyKey && after.requestSha == before.requestSha
    requires w.store.submissions[after.rttId].version == before.version
    ensures Advances(w.store, w'.store) && w.store.submissions[before.rttId] == before
  {
  }

  lemma NextIsOk(c: Config, w: World, w': World, after: Submission, core: EventCore, next: Dispatcher)
    requires Records(c, w, w', after, core) && RecordOk(after)
    requires next.Off? || (next.MustCall? && next.record == after && SameRequest(after, next.request)
                           && after.state == Dispatching && (!next.adapter.idempotent ==> after.version == 2))
    ensures DispatcherOk(w'.store, next)
  {
  }

  lemma PrepareShape(c: Config, w: World, a: Action)
    requires a.Prepare? && w.trail.Keys == w.store.submissions.Keys
    requires a.request.rttId !in w.store.submissions && Do(c, w, a).store != w.store
    ensures var w' := Do(c, w, a);
            var sub := NewSubmission(a.request, a.submissionId, a.at);
            && Records(c, w, w', sub, CoreOf(sub, SubmissionPrepared, PreparedData(sub.requestSha), a.at))
            && w'.calls == w.calls && a.k in w'.dispatchers
            && w'.dispatchers == w.dispatchers[a.k := w'.dispatchers[a.k]]
            && (w'.dispatchers[a.k] == Off || w'.dispatchers[a.k] == Holding(sub, a.request, a.adapter))
  {
    var sub := NewSubmission(a.request, a.submissionId, a.at);
    var core := CoreOf(sub, SubmissionPrepared, PreparedData(sub.requestSha), a.at);
    assert Do(c, w, a).store.outbox == w.store.outbox[c.eventId(core) := NewRow(c.eventId(core), core, a.at)];
    assert [] + [c.eventId(core)] == [c.eventId(core)];
  }

  lemma PrepareKeepsInv(c: Config, w: World, a: Action)
    requires Inv(c, w) && a.Prepare?
    ensures Inv(c, Do(c, w, a))
  {
    hide SubmissionsOk, EventsOk, DispatchersOk, CallsOk, Do;
    var w', q := Do(c, w, a), a.request;
    if q.rttId in w.store.submissions || w'.store == w.store {
      PrepareReadsInv(c, w, w', a);
    } else {
      TrailKeys(w);
      PrepareShape(c, w, a);
      var sub := NewSubmission(q, a.submissionId, a.at);
      var core := CoreOf(sub, SubmissionPrepared, PreparedData(sub.requestSha), a.at);
      RecordKeepsSubmissions(c, w, w', sub, core);
      RecordKeepsEvents(c, w, w', sub, core);
      assert Advances(w.store, w'.store);
      AdvancesKeepDispatchers(w, w', a.k);
      MustCallsAreOld(w);
      AdvancesKeepCalls(w, w', a.k);
    }
  }

  lemma TrailKeys(w: World)
    requires SubmissionsOk(w)
    ensures w.trail.Keys == w.store.submissions.Keys
  {
  }

  lemma PrepareReadsInv(c: Config, w: World, w': World, a: Action)
    requires Inv(c, w) && a.Prepare? && w' == Do(c, w, a)
    requires a.request.rttId in w.store.submissions || w'.store == w.store
    ensures Inv(c, w')
  {
    hide EventsOk, CallsOk, SubmissionsOk, DispatchersOk;
    if a.request.rttId in w.store.submissions {
      StoredRecordOk(w, a.request.rttId);
    }
    StopOrHoldKeepsInv(c, w, w', a.k);
  }

  lemma StoredRecordOk(w: World, r: string)
    requires SubmissionsOk(w) && r in w.store.submissions
    ensures w.store.submissions[r].rttId == r && RecordOk(w.store.submissions[r])
  {
    assert SubmissionOk(w.store, w.trail[r], r);
  }

  /** A step that only changes what one dispatcher holds, without a call owed. */
  lemma StopOrHoldKeepsInv(c: Config, w: World, w': World, k: int)
    requires Inv(c, w) && w'.store == w.store && w'.trail == w.trail && w'.calls == w.calls
    requires k in w'.dispatchers && w'.dispatchers == w.dispatchers[k := w'.dispatchers[k]]
    requires DispatcherOk(w.store, w'.dispatchers[k]) && !w'.dispatchers[k].MustCall?
    ensures Inv(c, w')
  {
    hide SubmissionOk, EventOk, OutboxOk, CallOk;
    assert forall e :: EventOk(c, w', e) by { SameEventsKeepEvents(c, w, w'); }
  }

  lemma AdvanceKeepsInv(c: Config, w: World, a: Action)
    requires Inv(c, w) && a.Advance?
    ensures Inv(c, Do(c, w, a))
  {
    hide SubmissionsOk, EventsOk, CallsOk, Commit;
    var d := DispatcherOf(w, a.k);
    if d.Holding? {
      assert DispatcherOk(w.store, d);
      var r := d.record;
      if r.state == Dispatching && !d.adapter.idempotent {
        CompletedIsGood(r, RECOVERY_BLOCKED, a.at);
        CommitKeepsInv(c, w, a.k, r, Completed(r, RECOVERY_BLOCKED, a.at), CompletedEvent(r, RECOVERY_BLOCKED, a.at),
                       a.signs, Off);
      } else {
        var n := BeginDispatch(r, a.at);
        CommitKeepsInv(c, w, a.k, r, n,
                       CoreOf(n, DispatchStarted, DispatchData(n.dispatchAttempts, d.adapter.idempotent), a.at),
                       a.signs, MustCall(n, d.request, d.adapter));
      }
    }
  }

  lemma CompletedIsGood(r: Submission, reply: ProviderResult, at: int)
    requires RecordOk(r) && r.state == Dispatching
    ensures GoodMove(r, Completed(r, reply, at), CompletedEvent(r, reply, at), Off)
  {
    hide Sort, Upper;
  }

  lemma FinishKeepsInv(c: Config, w: World, a: Action)
    requires Inv(c, w) && a.Finish?
    ensures Inv(c, Do(c, w, a))
  {
    hide SubmissionsOk, EventsOk, CallsOk, Commit, Completed, CompletedEvent;
    var d := DispatcherOf(w, a.k);
    if d.Called? {
      assert DispatcherOk(w.store, d);
      if ResultOk(d.reply) {
        CompletedIsGood(d.record, d.reply, a.at);
        CommitKeepsInv(c, w, a.k, d.record, Completed(d.record, d.reply, a.at), CompletedEvent(d.record, d.reply, a.at),
                       a.signs, Off);
      } else {
        StopKeepsInv(c, w, a.k);
      }
    }
  }

  lemma CallKeepsCalls(w: World, a: Action)
    requires CallsOk(w) && DispatchersOk(w) && a.CallProvider?
    ensures CallsOk(DoCall(w, a.k, a.reply))
  {
    var d, w' := DispatcherOf(w, a.k), DoCall(w, a.k, a.reply);
    if d.MustCall? {
      assert DispatcherOk(w.store, d);
      forall i | 0 <= i < |w'.calls| ensures CallOk(w'.store, w'.calls[i]) {
        if i < |w.calls| { assert CallOk(w.store, w.calls[i]); }
      }
    }
  }

  lemma CallKeepsInv(c: Config, w: World, a: Action)
    requires Inv(c, w) && a.CallProvider?
    ensures Inv(c, Do(c, w, a))
  {
    hide SubmissionsOk, EventsOk, CallsOk;
    var d, w' := DispatcherOf(w, a.k), Do(c, w, a);
    CallKeepsCalls(w, a);
    if d.MustCall? {
      assert DispatcherOk(w.store, d);
      SameEventsKeepSubmissions(w, w');
      SameEventsKeepEvents(c, w, w');
      AdvancesKeepDispatchers(w, w', a.k);
    }
  }

  // --------------------------------------------------------- relay steps

  lemma RelayKeepsInv(c: Config, w: World, w': World)
    requires Inv(c, w) && SameEvents(w.store, w'.store) && w'.trail == w.trail
    requires w'.dispatchers == w.dispatchers && w'.calls == w.calls
    ensures Inv(c, w')
  {
    hide SubmissionsOk, EventsOk;
    SameEventsKeepSubmissions(w, w');
    SameEventsKeepEvents(c, w, w');
    AdvancesKeepDispatchers(w, w', 0) by {
      if 0 in w.dispatchers { AdvancesKeepDispatcher(w.store, w'.store, w.dispatchers[0]); }
    }
    MustCallsAreOld(w);
    forall i | 0 <= i < |w'.calls| ensures CallOk(w'.store, w'.calls[i]) {
      assert CallOk(w.store, w.calls[i]);
    }
  }

  lemma ClaimKeepsEvents(s: Store, worker: string, at: int, lease: nat, limit: nat)
    requires OutboxOk(s.outbox, s.order) && ClaimOutbox(s, worker, at, lease, limit).Ok?
    ensures SameEvents(s, ClaimOutbox(s, worker, at, lease, limit).value.0)
  {
    hide Chosen, ClaimAll, Claimable;
    var rows := Chosen(s, at, limit);
    var s' := ClaimOutbox(s, worker, at, lease, limit).value.0;
    ChosenAreEarliest(s, at, limit);
    forall id ensures id in s'.outbox <==> id in s.outbox {
      ClaimAllAt(s.outbox, rows, worker, at, lease, id);
    }
    forall id | id in s.outbox
      ensures s'.outbox[id].core == s.outbox[id].core && s'.outbox[id].eventId == s.outbox[id].eventId {
      ClaimAllAt(s.outbox, rows, worker, at, lease, id);
    }
  }

  /** A relay's step leaves events, trail, dispatchers and calls alone. */
  ghost predicate OnlyRelays(w: World, w': World) {
    && SameEvents(w.store, w'.store) && w'.trail == w.trail
    && w'.dispatchers == w.dispatchers && w'.calls == w.calls
  }

  lemma ClaimStepShape(w: World, k: int, worker: string, at: int, lease: nat, limit: nat)
    requires OutboxOk(w.store.outbox, w.store.order)
    ensures OnlyRelays(w, DoClaim(w, k, worker, at, lease, limit))
  {
    hide ClaimOutbox, OutboxOk;
    if ClaimOutbox(w.store, worker, at, lease, limit).Ok? {
      ClaimKeepsEvents(w.store, worker, at, lease, limit);
    }
  }

  lemma SettleStepShape(c: Config, w: World, k: int)
    ensures OnlyRelays(w, DoSettle(c, w, k))
  {
    hide Delay, NotBlank;
  }

  lemma RelayStepShape(c: Config, w: World, a: Action)
    requires OutboxOk(w.store.outbox, w.store.order) && (a.Claim? || a.Publish? || a.Settle? || a.StopRelay?)
    ensures OnlyRelays(w, Do(c, w, a))
  {
    hide OutboxOk, DoClaim, DoSettle;
    if a.Claim? {
      ClaimStepShape(w, a.k, a.worker, a.at, a.lease, a.limit);
    } else if a.Settle? {
      SettleStepShape(c, w, a.k);
    }
  }

  lemma RelayStepKeepsInv(c: Config, w: World, a: Action)
    requires Inv(c, w) && (a.Claim? || a.Publish? || a.Settle? || a.StopRelay?)
    ensures Inv(c, Do(c, w, a))
  {
    hide SubmissionsOk, DispatchersOk, CallsOk, EventOk, Do, SameEvents, OutboxOk;
    RelayStepShape(c, w, a);
    RelayKeepsInv(c, w, Do(c, w, a));
  }

  lemma StepKeepsInv(c: Config, w: World, a: Action)
    requires Inv(c, w)
    ensures Inv(c, Do(c, w, a))
  {
    hide Inv, DoPrepare, DoAdvance, DoCall, DoFinish, DoClaim, DoPublish, DoSettle;
    match a
    case Prepare(_, _, _, _, _, _) => PrepareKeepsInv(c, w, a);
    case Advance(_, _, _) => AdvanceKeepsInv(c, w, a);
    case CallProvider(_, _) => CallKeepsInv(c, w, a);
    case Finish(_, _, _) => FinishKeepsInv(c, w, a);
    case StopDispatcher(k) => StopKeepsInv(c, w, k);
    case _ => RelayStepKeepsInv(c, w, a);
  }

  lemma {:induction false} RunKeepsInv(c: Config, w: World, actions: seq<Action>)
    requires Inv(c, w)
    ensures Inv(c, Exec(c, w, actions))
    decreases |actions|
  {
    hide Inv, Do;
    if actions != [] {
      StepKeepsInv(c, w, actions[0]);
      RunKeepsInv(c, Do(c, w, actions[0]), actions[1..]);
    }
  }

  lemma InitialInv(c: Config)
    ensures Inv(c, INITIAL)
  {
  }
}
