/** The operations store, the submission coordinator and the outbox relay as they
    run: dictionaries changed in place, a claim loop and a publishing loop. */
module OperationsService {
  import opened Prelude
  import opened Operations
  import R = OperationsRuns
  import E = Execution
  import X = ExecutionRuns
  import T = ExecutionTheorems
  import ES = ExecutionService

  class InMemoryOperationsStore {
    var submissionsByRtt: map<string, Submission>
    var rttByIdempotency: map<string, string>
    var outbox: map<string, Row>
    var order: seq<string>

    ghost function View(): Store
      reads this
    {
      Store(submissionsByRtt, rttByIdempotency, outbox, order)
    }

    constructor ()
      ensures View() == EMPTY_OPERATIONS
    {
      submissionsByRtt, rttByIdempotency, outbox, order := map[], map[], map[], [];
    }

    method Prepare(sub: Submission, row: Row) returns (r: Result<Submission, OpError>)
      modifies this
      ensures match PrepareSubmission(old(View()), sub, row)
              case Ok((s, stored)) => r == Ok(stored) && View() == s
              case Err(e) => r == Err(e) && View() == old(View())
    {
      if sub.rttId in submissionsByRtt {
        var existing := submissionsByRtt[sub.rttId];
        if existing.requestSha != sub.requestSha || existing.idempotencyKey != sub.idempotencyKey {
          return Err(PreparationConflict);
        }
        return Ok(existing);
      }
      if sub.idempotencyKey in rttByIdempotency {
        return Err(KeyBelongsElsewhere);
      }
      if row.eventId in outbox {
        return Err(EventCollision);
      }
      submissionsByRtt := submissionsByRtt[sub.rttId := sub];
      rttByIdempotency := rttByIdempotency[sub.idempotencyKey := sub.rttId];
      outbox := outbox[row.eventId := row];
      order := order + [row.eventId];
      r := Ok(sub);
    }

    method Transition(previous: nat, sub: Submission, row: Row) returns (r: Result<(), OpError>)
      modifies this
      ensures match TransitionSubmission(old(View()), previous, sub, row)
              case Ok(s) => r == Ok(()) && View() == s
              case Err(e) => r == Err(e) && View() == old(View())
    {
      if sub.rttId !in submissionsByRtt {
        return Err(SubmissionNotFound);
      }
      if submissionsByRtt[sub.rttId].version != previous {
        return Err(ConcurrentSubmission);
      }
      if sub.version != previous + 1 {
        return Err(VersionSkipped);
      }
      if row.eventId in outbox {
        return Err(EventCollision);
      }
      submissionsByRtt := submissionsByRtt[sub.rttId := sub];
      outbox := outbox[row.eventId := row];
      order := order + [row.eventId];
      r := Ok(());
    }

    /** The rows a claim may take, in claim order. */
    method Eligible(at: int, limit: nat) returns (eligible: seq<Row>)
      ensures eligible == Chosen(View(), at, limit)
    {
      hide Claimable, Sort, Take, RowBefore;
      eligible := [];
      for i := 0 to |order|
        invariant eligible == ClaimableRows(outbox, order[..i], at)
      {
        assert order[..i + 1][..i] == order[..i];
        if order[i] in outbox && Claimable(outbox[order[i]], at) {
          eligible := eligible + [outbox[order[i]]];
        }
      }
      assert order[..|order|] == order;
      eligible := Take(Sort(RowBefore, eligible), limit);
    }

    method Claim(worker: string, at: int, lease: nat, limit: nat) returns (r: Result<seq<Row>, OpError>)
      modifies this
      ensures match ClaimOutbox(old(View()), worker, at, lease, limit)
              case Ok((s, rows)) => r == Ok(rows) && View() == s
              case Err(e) => r == Err(e) && View() == old(View())
    {
      hide NotBlank, Chosen, ClaimRow;
      if !NotBlank(worker) || !(1 <= lease <= 300) || !(1 <= limit <= 1000) {
        return Err(InvalidLeaseRequest);
      }
      ghost var before := View();
      var eligible := Eligible(at, limit);
      var claimed: seq<Row> := [];
      for i := 0 to |eligible|
        invariant claimed == ClaimedRows(eligible[..i], worker, at, lease)
        invariant View() == before.(outbox := ClaimAll(before.outbox, eligible[..i], worker, at, lease))
      {
        var updated := ClaimRow(eligible[i], worker, at, lease);
        assert eligible[..i + 1][..i] == eligible[..i];
        outbox := outbox[eligible[i].eventId := updated];
        claimed := claimed + [updated];
      }
      assert eligible[..|eligible|] == eligible;
      r := Ok(claimed);
    }

    method Mark(eventId: string, worker: string, at: int) returns (r: Result<Row, OpError>)
      modifies this
      ensures match MarkPublished(old(View()), eventId, worker, at)
              case Ok(s) => View() == s && r == Ok(PublishedRow(old(outbox)[eventId], at))
              case Err(e) => r == Err(e) && View() == old(View())
    {
      if eventId !in outbox {
        return Err(EventNotFound);
      }
      if outbox[eventId].state != InFlight || outbox[eventId].leaseOwner != Some(worker) {
        return Err(LeaseNotOwned);
      }
      var updated := PublishedRow(outbox[eventId], at);
      outbox := outbox[eventId := updated];
      r := Ok(updated);
    }

    method RescheduleEvent(eventId: string, worker: string, at: int, availableAt: int, error: string, maxAttempts: nat)
      returns (r: Result<Row, OpError>)
      modifies this
      ensures match Reschedule(old(View()), eventId, worker, at, availableAt, error, maxAttempts)
              case Ok(s) =>
                View() == s && r == Ok(RescheduledRow(old(outbox)[eventId], at, availableAt, error, maxAttempts))
              case Err(e) => r == Err(e) && View() == old(View())
    {
      if !NotBlank(error) || !(1 <= maxAttempts <= 100) {
        return Err(InvalidLeaseRequest);
      }
      if eventId !in outbox {
        return Err(EventNotFound);
      }
      if outbox[eventId].state != InFlight || outbox[eventId].leaseOwner != Some(worker) {
        return Err(LeaseNotOwned);
      }
      var updated := RescheduledRow(outbox[eventId], at, availableAt, error, maxAttempts);
      outbox := outbox[eventId := updated];
      r := Ok(updated);
    }
  }

  // ------------------------------------------------------------ coordinator

  /** What one uninterrupted dispatch leaves behind, and whether it called the provider. */
  datatype Dispatched = Dispatched(store: Store, result: Result<Submission, OpError>, called: bool)

  function CompleteOnce(c: R.Config, s: Store, r: Submission, reply: ProviderResult, signs: Signer, at: int,
                        called: bool): Dispatched
  {
    if !ResultOk(reply) then Dispatched(s, Err(InvalidResult), called)
    else if !signs(EventFor(reply.outcome)) then Dispatched(s, Err(SigningRefused), called)
    else
      var core := CompletedEvent(r, reply, at);
      match TransitionSubmission(s, r.version, Completed(r, reply, at), NewRow(c.eventId(core), core, at))
      case Err(e) => Dispatched(s, Err(e), called)
      case Ok(s') => Dispatched(s', Ok(Completed(r, reply, at)), called)
  }

  function DispatchOnce(c: R.Config, s: Store, q: ProviderRequest, sid: string, a: R.Adapter,
                        reply: Option<ProviderResult>, signs: Signer, at: int): Dispatched
  {
    var sub := NewSubmission(q, sid, at);
    var core := CoreOf(sub, SubmissionPrepared, PreparedData(q.requestSha), at);
    if !signs(SubmissionPrepared) then Dispatched(s, Err(SigningRefused), false)
    else match PrepareSubmission(s, sub, NewRow(c.eventId(core), core, at))
    case Err(e) => Dispatched(s, Err(e), false)
    case Ok((s1, r)) =>
      if Upper(a.providerId) != r.providerId then Dispatched(s1, Err(AdapterMismatch), false)
      else if FinalState(r.state) then Dispatched(s1, Ok(r), false)
      else FromRecord(c, s1, r, a, reply, signs, at)
  }

  /** A dispatch that may have reached the provider, and an adapter that must not repeat it. */
  predicate Blocked(r: Submission, a: R.Adapter) { r.state == Dispatching && !a.idempotent }

  /** What the provider is taken to have said: its answer, or that nobody knows. */
  function Answer(reply: Option<ProviderResult>): ProviderResult { if reply.Some? then reply.value else ADAPTER_RAISED }

  function FromRecord(c: R.Config, s: Store, r: Submission, a: R.Adapter, reply: Option<ProviderResult>, signs: Signer,
                      at: int): Dispatched
  {
    if Blocked(r, a) then CompleteOnce(c, s, r, RECOVERY_BLOCKED, signs, at, false)
    else if !signs(DispatchStarted) then Dispatched(s, Err(SigningRefused), false)
    else
      var d := BeginDispatch(r, at);
      var started := CoreOf(d, DispatchStarted, DispatchData(d.dispatchAttempts, a.idempotent), at);
      match TransitionSubmission(s, r.version, d, NewRow(c.eventId(started), started, at))
      case Err(e) => Dispatched(s, Err(e), false)
      case Ok(s') => CompleteOnce(c, s', d, Answer(reply), signs, at, true)
  }

  /** What the signature service, the contract store and the endpoint resolver answer. */
  datatype Checks = Checks(rttSigned: bool, uttFound: bool, uttSigned: bool, bound: bool, endpointsResolve: bool)

  /** What prepare checks before it builds the request, in order. The attempt is
      looked up stripped; the in-flight marker is compared with the identifier as given. */
  function Gate(x: E.Store, rttId: string, c: Checks): Option<OpError> {
    match E.FindAttempt(x, rttId)
    case None => Some(RttUnknown)
    case Some(a) => if a.state != E.Created then Some(NotDispatchable) else PlanGate(x, rttId, a, c)
  }

  /** The checks from the plan's lookup on, for the attempt as it was read. */
  function PlanGate(x: E.Store, rttId: string, a: E.Attempt, c: Checks): Option<OpError> {
    if a.planId !in x.plans then Some(PlanUnknown)
    else if x.plans[a.planId].current != Some(rttId) then Some(NotDispatchable)
    else if !c.rttSigned then Some(RttRejected)
    else if !c.uttFound then Some(UttUnknown)
    else if !c.uttSigned then Some(UttRejected)
    else if !c.bound then Some(UttNotBound)
    else if !c.endpointsResolve then Some(EndpointUnresolved)
    else None
  }

  /** In every reachable state: what passes is exactly an attempt without outcome, given by
      its own identifier, whose artifacts verify, whose UTT is found and bound and whose
      endpoints resolve. It is then the attempt in flight of an active plan. What does not
      pass is refused for the first of these that fails. */
  lemma {:induction false} GatePassesInFlight(actions: seq<X.Action>, rttId: string, c: Checks)
    ensures var x := X.Exec(X.INITIAL, actions).store;
            var open := rttId in x.attempts && x.attempts[rttId].state == E.Created;
            && (Gate(x, rttId, c) == None <==>
                  open && c.rttSigned && c.uttFound && c.uttSigned && c.bound && c.endpointsResolve)
            && (Gate(x, rttId, c) == Some(RttUnknown) <==> Strip(rttId) !in x.attempts)
            && (Gate(x, rttId, c) == Some(NotDispatchable) <==> Strip(rttId) in x.attempts && !open)
            && (Gate(x, rttId, c) == Some(RttRejected) <==> open && !c.rttSigned)
            && (Gate(x, rttId, c) == Some(UttUnknown) <==> open && c.rttSigned && !c.uttFound)
            && (Gate(x, rttId, c) == Some(UttRejected) <==> open && c.rttSigned && c.uttFound && !c.uttSigned)
            && (Gate(x, rttId, c) == Some(UttNotBound) <==>
                  open && c.rttSigned && c.uttFound && c.uttSigned && !c.bound)
            && (open ==> && x.attempts[rttId].planId in x.plans
                         && x.plans[x.attempts[rttId].planId].status == E.Active
                         && x.plans[x.attempts[rttId].planId].current == Some(rttId))
  {
    hide X.Exec, X.Inv, Strip;
    var w := X.Exec(X.INITIAL, actions);
    T.InitialInv();
    X.RunKeepsInv(X.INITIAL, actions);
    X.InvKeyed(w);
    var r := Strip(rttId);
    StripTwice(rttId);
    if r in w.store.attempts {
      T.AttemptOfItsPlan(w, r);
      T.StateByPlace(w, w.store.attempts[r].planId, r);
    }
  }

  class ProviderSubmissionCoordinator {
    const executions: ES.InMemoryExecutionStore
    const operations: InMemoryOperationsStore
    const config: R.Config

    constructor (executions: ES.InMemoryExecutionStore, operations: InMemoryOperationsStore, config: R.Config)
      ensures this.executions == executions && this.operations == operations && this.config == config
    {
      this.executions, this.operations, this.config := executions, operations, config;
    }

    /** dispatch: what prepare checks, the request for the attempt found, and then the
        dispatch itself. Provider, key, digest and identifier of the request are derived
        from the attempt's route and its UTT. */
    method DispatchRtt(rttId: string, checks: Checks, provider: string, key: string, sha: string, sid: string,
                       a: R.Adapter, reply: Option<ProviderResult>, signs: Signer, at: int)
      returns (r: Result<Submission, OpError>, called: bool)
      modifies operations
      ensures match Gate(executions.View(), rttId, checks)
              case Some(e) => r == Err(e) && !called && operations.View() == old(operations.View())
              case None =>
                var q := ProviderRequest(rttId, E.FindAttempt(executions.View(), rttId).value.uttId,
                                         Upper(Strip(provider)), key, sha);
                Dispatched(operations.View(), r, called)
                == DispatchOnce(config, old(operations.View()), q, sid, a, reply, signs, at)
    {
      hide Strip, DispatchOnce;
      var gate := Gate(E.Store(executions.plans, executions.planByUtt, executions.attempts), rttId, checks);
      if gate.Some? {
        return Err(gate.value), false;
      }
      var attempt := executions.attempts[Strip(rttId)];
      var request := ProviderRequest(rttId, attempt.uttId, Upper(Strip(provider)), key, sha);
      r, called := Dispatch(request, sid, a, reply, signs, at);
    }

    /** Prepare, commit the dispatch, call the provider, commit what it said. The
        reply is what the adapter would return, or None if it raises. Every commit
        needs its event signed first; prepare signs one even for a record it has. */
    method Dispatch(q: ProviderRequest, sid: string, a: R.Adapter, reply: Option<ProviderResult>, signs: Signer,
                    at: int)
      returns (r: Result<Submission, OpError>, called: bool)
      modifies operations
      ensures Dispatched(operations.View(), r, called)
              == DispatchOnce(config, old(operations.View()), q, sid, a, reply, signs, at)
    {
      called := false;
      if !signs(SubmissionPrepared) {
        return Err(SigningRefused), called;
      }
      var sub := NewSubmission(q, sid, at);
      var core := CoreOf(sub, SubmissionPrepared, PreparedData(q.requestSha), at);
      var prepared := operations.Prepare(sub, NewRow(config.eventId(core), core, at));
      if prepared.Err? {
        return Err(prepared.error), called;
      }
      var record := prepared.value;
      if Upper(a.providerId) != record.providerId {
        return Err(AdapterMismatch), called;
      }
      if FinalState(record.state) {
        return Ok(record), called;
      }
      if record.state == Dispatching && !a.idempotent {
        r := Complete(record, RECOVERY_BLOCKED, signs, at, called);
        return;
      }
      if !signs(DispatchStarted) {
        return Err(SigningRefused), called;
      }
      var dispatching := BeginDispatch(record, at);
      var started := CoreOf(dispatching, DispatchStarted, DispatchData(dispatching.dispatchAttempts, a.idempotent), at);
      var moved := operations.Transition(record.version, dispatching, NewRow(config.eventId(started), started, at));
      if moved.Err? {
        return Err(moved.error), called;
      }
      called := true;
      r := Complete(dispatching, Answer(reply), signs, at, called);
    }

    method Complete(record: Submission, reply: ProviderResult, signs: Signer, at: int, ghost called: bool)
      returns (r: Result<Submission, OpError>)
      modifies operations
      ensures Dispatched(operations.View(), r, called)
              == CompleteOnce(config, old(operations.View()), record, reply, signs, at, called)
    {
      if !ResultOk(reply) {
        return Err(InvalidResult);
      }
      if !signs(EventFor(reply.outcome)) {
        return Err(SigningRefused);
      }
      var core := CompletedEvent(record, reply, at);
      var updated := Completed(record, reply, at);
      var moved := operations.Transition(record.version, updated, NewRow(config.eventId(core), core, at));
      r := if moved.Ok? then Ok(updated) else Err(moved.error);
    }
  }

  /** Committing through a worker is committing through the store. */
  lemma CommitIsTransition(c: R.Config, w: R.World, k: int, before: Submission, after: Submission, core: EventCore,
                           signs: Signer, next: R.Dispatcher)
    ensures var w' := R.Commit(c, w, k, before, after, core, signs, next);
            var t := TransitionSubmission(w.store, before.version, after,
                                          NewRow(c.eventId(core), core, after.updatedAt));
            var ok := signs(core.eventType) && t.Ok?;
            && w'.store == (if ok then t.value else w.store) && w'.calls == w.calls
            && R.DispatcherOf(w', k) == (if ok then next else R.Off)
  {
  }

  /** The tail of a dispatch: the provider has been called, its reply is recorded. */
  lemma FinishIsComplete(c: R.Config, w: R.World, k: int, r: Submission, reply: ProviderResult, signs: Signer, at: int,
                         called: bool)
    requires R.DispatcherOf(w, k) == R.Called(r, reply)
    ensures R.DoFinish(c, w, k, signs, at).store == CompleteOnce(c, w.store, r, reply, signs, at, called).store
    ensures R.DoFinish(c, w, k, signs, at).calls == w.calls
  {
    hide ResultOk;
    CommitIsTransition(c, w, k, r, Completed(r, reply, at), CompletedEvent(r, reply, at), signs, R.Off);
  }

  /** The middle of a dispatch, from the record that prepare returned. */
  lemma AdvanceCallFinish(c: R.Config, w: R.World, k: int, r: Submission, q: ProviderRequest, a: R.Adapter,
                          reply: Option<ProviderResult>, signs: Signer, at: int)
    requires R.DispatcherOf(w, k) == R.Holding(r, q, a)
    ensures var w4 := R.DoFinish(c, R.DoCall(R.DoAdvance(c, w, k, signs, at), k, reply), k, signs, at);
            var d := FromRecord(c, w.store, r, a, reply, signs, at);
            w4.store == d.store && w4.calls == w.calls + if d.called then [CallOf(q, r.version + 1, a, reply)] else []
  {
    hide R.Commit, TransitionSubmission, ResultOk, R.DoFinish;
    if Blocked(r, a) {
      BlockedIsOk();
      CommitIsTransition(c, w, k, r, Completed(r, RECOVERY_BLOCKED, at), CompletedEvent(r, RECOVERY_BLOCKED, at),
                         signs, R.Off);
      OffStays(c, R.DoAdvance(c, w, k, signs, at), k, reply, signs, at);
    } else {
      var d := BeginDispatch(r, at);
      var started := CoreOf(d, DispatchStarted, DispatchData(d.dispatchAttempts, a.idempotent), at);
      CommitIsTransition(c, w, k, r, d, started, signs, R.MustCall(d, q, a));
      var w2 := R.DoAdvance(c, w, k, signs, at);
      if R.DispatcherOf(w2, k).MustCall? {
        FinishIsComplete(c, R.DoCall(w2, k, reply), k, d, Answer(reply), signs, at, true);
      } else {
        OffStays(c, w2, k, reply, signs, at);
      }
    }
  }

  lemma OffStays(c: R.Config, w: R.World, k: int, reply: Option<ProviderResult>, signs: Signer, at: int)
    requires R.DispatcherOf(w, k) == R.Off
    ensures R.DoAdvance(c, w, k, signs, at) == w && R.DoCall(w, k, reply) == w && R.DoFinish(c, w, k, signs, at) == w
  {
  }

  /** The call that the dispatch committed as this version makes. */
  function CallOf(q: ProviderRequest, version: nat, a: R.Adapter, reply: Option<ProviderResult>): R.Call {
    R.Call(q.rttId, version, q.idempotencyKey, q.requestSha, a.idempotent, a.providerId, reply)
  }

  /** A worker that is never interrupted does exactly what dispatch does. */
  lemma UninterruptedWorkerDispatches(c: R.Config, w: R.World, k: int, q: ProviderRequest, sid: string, a: R.Adapter,
                                      reply: Option<ProviderResult>, signs: Signer, at: int)
    ensures var w1 := R.DoPrepare(c, w, k, q, sid, a, signs, at);
            var w4 := R.DoFinish(c, R.DoCall(R.DoAdvance(c, w1, k, signs, at), k, reply), k, signs, at);
            var d := DispatchOnce(c, w.store, q, sid, a, reply, signs, at);
            w4.store == d.store
            && w4.calls == w.calls
                 + if d.called then [CallOf(q, Start(w.store, q, sid, at).version + 1, a, reply)] else []
  {
    hide FromRecord, R.DoAdvance, R.DoCall, R.DoFinish, Upper;
    var w1 := R.DoPrepare(c, w, k, q, sid, a, signs, at);
    var l := R.DispatcherOf(w1, k);
    if l.Holding? {
      AdvanceCallFinish(c, w1, k, l.record, q, a, reply, signs, at);
    } else {
      OffStays(c, w1, k, reply, signs, at);
    }
  }

  lemma BlockedIsOk()
    ensures ResultOk(RECOVERY_BLOCKED)
  {
    assert RECOVERY_BLOCKED.code[0] == 'N';
  }

  // --------------------------------------------------------------- progress

  ghost predicate Injective(c: R.Config) { forall x, y :: c.eventId(x) == c.eventId(y) ==> x == y }

  /** The outbox names its events by content, and those of this RTT are below a version. */
  ghost predicate Below(c: R.Config, s: Store, rttId: string, version: int) {
    forall e :: e in s.outbox ==>
      c.eventId(s.outbox[e].core) == e && (s.outbox[e].core.rttId == rttId ==> s.outbox[e].core.version < version)
  }

  /** The version is part of the content, so the event of a new version collides with none. */
  lemma NoCollision(c: R.Config, s: Store, rttId: string, version: int, core: EventCore)
    requires Injective(c) && Below(c, s, rttId, version) && core.rttId == rttId && core.version >= version
    ensures c.eventId(core) !in s.outbox
  {
  }

  lemma BelowNext(c: R.Config, s: Store, s': Store, rttId: string, version: int, core: EventCore, at: int)
    requires Below(c, s, rttId, version) && core.version == version
    requires s'.outbox == s.outbox[c.eventId(core) := NewRow(c.eventId(core), core, at)]
    ensures Below(c, s', rttId, version + 1)
  {
  }

  /** A dispatch that ended: a final record, stored. */
  ghost predicate Ends(d: Dispatched, rttId: string) {
    && d.result.Ok? && FinalState(d.result.value.state)
    && rttId in d.store.submissions && d.store.submissions[rttId] == d.result.value
  }

  lemma CompleteFinishes(c: R.Config, s: Store, r: Submission, reply: ProviderResult, signs: Signer, at: int,
                         called: bool)
    requires Injective(c) && Below(c, s, r.rttId, r.version + 1) && ResultOk(reply)
    requires r.rttId in s.submissions && s.submissions[r.rttId] == r
    ensures var d := CompleteOnce(c, s, r, reply, signs, at, called);
            && d.called == called && (signs(EventFor(reply.outcome)) ==> Ends(d, r.rttId))
            && (!signs(EventFor(reply.outcome)) ==> d == Dispatched(s, Err(SigningRefused), called))
  {
    hide ResultOk, Upper, Strip, Sort;
    NoCollision(c, s, r.rttId, r.version + 1, CompletedEvent(r, reply, at));
  }

  /** The events a dispatch still has to commit once it holds the record, all signed. */
  predicate SignedFrom(r: Submission, a: R.Adapter, reply: Option<ProviderResult>, signs: Signer) {
    if Blocked(r, a) then signs(SubmissionOutcomeUnknown)
    else signs(DispatchStarted) && signs(EventFor(Answer(reply).outcome))
  }

  lemma FromRecordFinishes(c: R.Config, s: Store, r: Submission, a: R.Adapter, reply: Option<ProviderResult>,
                           signs: Signer, at: int)
    requires Injective(c) && Below(c, s, r.rttId, r.version + 1) && (reply.Some? ==> ResultOk(reply.value))
    requires r.rttId in s.submissions && s.submissions[r.rttId] == r && !FinalState(r.state)
    ensures var d := FromRecord(c, s, r, a, reply, signs, at);
            && d.called == (!Blocked(r, a) && signs(DispatchStarted))
            && (SignedFrom(r, a, reply, signs) ==> Ends(d, r.rttId))
            && (!SignedFrom(r, a, reply, signs) ==>
                  && d.result == Err(SigningRefused) && r.rttId in d.store.submissions
                  && d.store.submissions[r.rttId] == if d.called then BeginDispatch(r, at) else r)
  {
    hide ResultOk, CompleteOnce, Ends;
    BlockedIsOk();
    RaisedIsOk();
    if Blocked(r, a) {
      CompleteFinishes(c, s, r, RECOVERY_BLOCKED, signs, at, false);
    } else if signs(DispatchStarted) {
      var d := BeginDispatch(r, at);
      var core := CoreOf(d, DispatchStarted, DispatchData(d.dispatchAttempts, a.idempotent), at);
      NoCollision(c, s, r.rttId, r.version + 1, core);
      var s' := TransitionSubmission(s, r.version, d, NewRow(c.eventId(core), core, at)).value;
      BelowNext(c, s, s', r.rttId, r.version + 1, core, at);
      CompleteFinishes(c, s', d, Answer(reply), signs, at, true);
    }
  }

  lemma RaisedIsOk()
    ensures ResultOk(ADAPTER_RAISED)
  {
    assert ADAPTER_RAISED.code[0] == 'A';
  }

  /** The record a dispatch of this request starts from: the stored one, or a new one. */
  function Start(s: Store, q: ProviderRequest, sid: string, at: int): Submission {
    if q.rttId in s.submissions then s.submissions[q.rttId] else NewSubmission(q, sid, at)
  }

  /** The request of the record, and an adapter of its provider. */
  predicate Fits(s: Store, q: ProviderRequest, a: R.Adapter) {
    if q.rttId in s.submissions then
      var r := s.submissions[q.rttId];
      r.idempotencyKey == q.idempotencyKey && r.requestSha == q.requestSha && r.providerId == Upper(a.providerId)
    else q.idempotencyKey !in s.rttByKey && q.providerId == Upper(a.providerId)
  }

  /** What becomes of a dispatch, by what is signed. */
  ghost predicate EndsExactly(c: R.Config, s: Store, q: ProviderRequest, sid: string, a: R.Adapter,
                              reply: Option<ProviderResult>, signs: Signer, at: int)
  {
    var d := DispatchOnce(c, s, q, sid, a, reply, signs, at);
    var r := Start(s, q, sid, at);
    var signed := FinalState(r.state) || SignedFrom(r, a, reply, signs);
    && (Ends(d, q.rttId) <==> signs(SubmissionPrepared) && signed)
    && (d.called <==> && !FinalState(r.state) && !Blocked(r, a)
                      && signs(SubmissionPrepared) && signs(DispatchStarted))
    && (!signs(SubmissionPrepared) ==> d.result == Err(SigningRefused) && d.store == s)
    && (signs(SubmissionPrepared) && !signed ==>
          && d.result == Err(SigningRefused) && q.rttId in d.store.submissions
          && d.store.submissions[q.rttId] == if d.called then BeginDispatch(r, at) else r)
  }

  /** In every reachable state, with content identifiers that do not collide, a dispatch
      of the record's request by an adapter that raises or answers well-formed: it ends in
      a final record that is stored if and only if every event it needs is signed; it
      calls the provider exactly when a dispatch is allowed and its start is signed; and
      if a signature is refused the record stays as it was, or DISPATCHING if the
      provider has been called. */
  lemma {:induction false} DispatchFinishes(c: R.Config, actions: seq<R.Action>, q: ProviderRequest, sid: string,
                                            a: R.Adapter, reply: Option<ProviderResult>, signs: Signer, at: int)
    requires Injective(c) && (reply.Some? ==> ResultOk(reply.value))
    requires Fits(R.Exec(c, R.INITIAL, actions).store, q, a)
    ensures EndsExactly(c, R.Exec(c, R.INITIAL, actions).store, q, sid, a, reply, signs, at)
  {
    hide R.Exec, R.Inv, ResultOk, EndsExactly, Fits;
    R.InitialInv(c);
    R.RunKeepsInv(c, R.INITIAL, actions);
    DispatchEnds(c, R.Exec(c, R.INITIAL, actions), q, sid, a, reply, signs, at);
  }

  lemma DispatchEnds(c: R.Config, w: R.World, q: ProviderRequest, sid: string, a: R.Adapter,
                     reply: Option<ProviderResult>, signs: Signer, at: int)
    requires Injective(c) && (reply.Some? ==> ResultOk(reply.value)) && R.Inv(c, w) && Fits(w.store, q, a)
    ensures EndsExactly(c, w.store, q, sid, a, reply, signs, at)
  {
    hide R.Inv, ResultOk, FromRecord, Upper, Below, SignedFrom, Blocked;
    EventsBelow(c, w, q.rttId);
    if signs(SubmissionPrepared) && q.rttId in w.store.submissions {
      var r := w.store.submissions[q.rttId];
      if !FinalState(r.state) { FromRecordFinishes(c, w.store, r, a, reply, signs, at); }
    } else if signs(SubmissionPrepared) {
      var sub := NewSubmission(q, sid, at);
      var core := CoreOf(sub, SubmissionPrepared, PreparedData(q.requestSha), at);
      NoCollision(c, w.store, q.rttId, 1, core);
      var s1 := PrepareSubmission(w.store, sub, NewRow(c.eventId(core), core, at)).value.0;
      BelowNext(c, w.store, s1, q.rttId, 1, core, at);
      FromRecordFinishes(c, s1, sub, a, reply, signs, at);
    }
  }

  lemma EventsBelow(c: R.Config, w: R.World, rttId: string)
    requires R.Inv(c, w)
    ensures Below(c, w.store, rttId, if rttId in w.store.submissions then w.store.submissions[rttId].version + 1 else 1)
    ensures rttId in w.store.submissions ==> w.store.submissions[rttId].rttId == rttId
  {
    hide R.DispatchersOk, R.CallsOk, OutboxOk, R.Describes, R.EventAt;
    forall e | e in w.store.outbox ensures
      && c.eventId(w.store.outbox[e].core) == e
      && (w.store.outbox[e].core.rttId == rttId ==>
            rttId in w.store.submissions && w.store.outbox[e].core.version <= w.store.submissions[rttId].version) {
      assert R.EventOk(c, w, e);
      assert rttId in w.store.submissions ==> R.SubmissionOk(w.store, w.trail[rttId], rttId);
    }
  }

  // ------------------------------------------------------------------ relay

  /** What becomes of one claimed row when its publish call returns or raises. */
  function SettledRow(row: Row, published: bool, at: int, maxAttempts: nat): Row {
    if published then PublishedRow(row, at)
    else RescheduledRow(row, at, at + Delay(row.attempts) * SECOND, PUBLISH_ERROR, maxAttempts)
  }

  /** The first |outcomes| claimed rows are finished, the others still in flight, all else as it was. */
  ghost predicate Progress(before: map<string, Row>, outbox: map<string, Row>, rows: seq<Row>, claimed: seq<Row>,
                           outcomes: seq<Row>, publishes: string -> bool, at: int, maxAttempts: nat) {
    && |outcomes| <= |rows| == |claimed| && outbox.Keys == before.Keys
    && (forall j :: 0 <= j < |rows| ==>
          && claimed[j].eventId == rows[j].eventId && rows[j].eventId in outbox
          && outbox[rows[j].eventId] == (if j < |outcomes| then outcomes[j] else claimed[j]))
    && (forall j :: 0 <= j < |outcomes| ==>
          outcomes[j] == SettledRow(claimed[j], publishes(rows[j].eventId), at, maxAttempts))
    && (forall id :: id in outbox && !Picked(rows, id) ==> outbox[id] == before[id])
  }

  lemma ProgressStep(before: map<string, Row>, outbox: map<string, Row>, rows: seq<Row>, claimed: seq<Row>,
                     outcomes: seq<Row>, publishes: string -> bool, at: int, maxAttempts: nat, outcome: Row)
    requires Progress(before, outbox, rows, claimed, outcomes, publishes, at, maxAttempts) && |outcomes| < |rows|
    requires forall i, j :: 0 <= i < j < |rows| ==> rows[i].eventId != rows[j].eventId
    requires outcome == SettledRow(claimed[|outcomes|], publishes(rows[|outcomes|].eventId), at, maxAttempts)
    ensures Progress(before, outbox[rows[|outcomes|].eventId := outcome], rows, claimed, outcomes + [outcome],
                     publishes, at, maxAttempts)
  {
    hide SettledRow, Picked;
    var i := |outcomes|;
    assert Picked(rows, rows[i].eventId) by { PickedAt(rows, i); }
  }

  lemma PickedAt(rows: seq<Row>, i: nat)
    requires i < |rows|
    ensures Picked(rows, rows[i].eventId)
  {
  }

  class OutboxRelay {
    const operations: InMemoryOperationsStore
    const worker: string
    const lease: nat
    const maxAttempts: nat

    constructor (operations: InMemoryOperationsStore, worker: string, lease: nat, maxAttempts: nat)
      ensures this.operations == operations && this.worker == worker
      ensures this.lease == lease && this.maxAttempts == maxAttempts
    {
      this.operations, this.worker, this.lease, this.maxAttempts := operations, worker, lease, maxAttempts;
    }

    /** Claim a batch, publish each row, finish each row. An uninterrupted relay
        never loses a lease: every claimed row is finished, published or put back. */
    method PublishBatch(publishes: string -> bool, limit: nat, at: int) returns (r: Result<seq<Row>, OpError>)
      requires OutboxOk(operations.outbox, operations.order) && 1 <= maxAttempts <= 100
      modifies operations
      ensures ClaimOutbox(old(operations.View()), worker, at, lease, limit).Err? ==>
                r.Err? && operations.View() == old(operations.View())
      ensures ClaimOutbox(old(operations.View()), worker, at, lease, limit).Ok? ==>
                var rows := Chosen(old(operations.View()), at, limit);
                && r.Ok? && |r.value| == |rows|
                && operations.outbox.Keys == old(operations.outbox.Keys)
                && (forall i :: 0 <= i < |rows| ==>
                      && r.value[i] == SettledRow(ClaimRow(rows[i], worker, at, lease),
                                                  publishes(rows[i].eventId), at, maxAttempts)
                      && rows[i].eventId in operations.outbox && operations.outbox[rows[i].eventId] == r.value[i])
                && (forall id :: id in operations.outbox && !Picked(rows, id) ==>
                      operations.outbox[id] == old(operations.outbox)[id])
    {
      hide Chosen, ClaimAll, ClaimOutbox, SettledRow, ClaimRow, Picked;
      ghost var s0 := operations.View();
      ghost var rows := Chosen(s0, at, limit);
      var claimed := operations.Claim(worker, at, lease, limit);
      if claimed.Err? {
        return Err(claimed.error);
      }
      ClaimedState(s0, worker, at, lease, limit);
      var outcomes: seq<Row> := [];
      for i := 0 to |claimed.value|
        invariant |outcomes| == i
        invariant Progress(s0.outbox, operations.outbox, rows, claimed.value, outcomes, publishes, at, maxAttempts)
      {
        label Step:
        var outcome := PublishOne(claimed.value[i], publishes(claimed.value[i].eventId), at);
        ProgressStep(s0.outbox, old@Step(operations.outbox), rows, claimed.value, outcomes, publishes, at, maxAttempts,
                     outcome);
        outcomes := outcomes + [outcome];
      }
      r := Ok(outcomes);
    }

    /** Publish one claimed row and finish it; the row is still held by this relay. */
    method PublishOne(event: Row, published: bool, at: int) returns (outcome: Row)
      requires event.eventId in operations.outbox && operations.outbox[event.eventId] == event
      requires event.state == InFlight && event.leaseOwner == Some(worker) && 1 <= maxAttempts <= 100
      modifies operations
      ensures outcome == SettledRow(event, published, at, maxAttempts)
      ensures operations.outbox == old(operations.outbox)[event.eventId := outcome]
    {
      hide NotBlank, Delay;
      ErrorTextOk();
      var r;
      if published {
        r := operations.Mark(event.eventId, worker, at);
      } else {
        r := operations.RescheduleEvent(event.eventId, worker, at, at + Delay(event.attempts) * SECOND, PUBLISH_ERROR,
                                        maxAttempts);
      }
      outcome := r.value;
    }
  }

  lemma ErrorTextOk()
    ensures NotBlank(PUBLISH_ERROR)
  {
    assert PUBLISH_ERROR[0] == 'P';
  }

  /** Right after a claim every chosen row is in flight under the claimer's name. */
  lemma ClaimedState(s: Store, worker: string, at: int, lease: nat, limit: nat)
    requires OutboxOk(s.outbox, s.order) && ClaimOutbox(s, worker, at, lease, limit).Ok?
    ensures var (s', claimed) := ClaimOutbox(s, worker, at, lease, limit).value;
            var rows := Chosen(s, at, limit);
            && |claimed| == |rows| && s'.outbox.Keys == s.outbox.Keys
            && (forall i, j :: 0 <= i < j < |rows| ==> rows[i].eventId != rows[j].eventId)
            && (forall i :: 0 <= i < |rows| ==>
                  && claimed[i] == ClaimRow(rows[i], worker, at, lease)
                  && claimed[i].eventId == rows[i].eventId
                  && claimed[i].state == InFlight && claimed[i].leaseOwner == Some(worker)
                  && rows[i].eventId in s'.outbox && s'.outbox[rows[i].eventId] == claimed[i])
            && (forall id :: id in s'.outbox && !Picked(rows, id) ==> s'.outbox[id] == s.outbox[id])
  {
    hide Chosen, ClaimAll, Claimable, NotBlank;
    var rows := Chosen(s, at, limit);
    var s' := ClaimOutbox(s, worker, at, lease, limit).value.0;
    ChosenAreEarliest(s, at, limit);
    forall id ensures
      && (id in s'.outbox <==> id in s.outbox)
      && (id in s.outbox && !Picked(rows, id) ==> s'.outbox[id] == s.outbox[id]) {
      ClaimAllAt(s.outbox, rows, worker, at, lease, id);
    }
    forall i | 0 <= i < |rows|
      ensures rows[i].eventId in s'.outbox && s'.outbox[rows[i].eventId] == ClaimRow(rows[i], worker, at, lease) {
      assert Picked(rows, rows[i].eventId);
      ClaimAllAt(s.outbox, rows, worker, at, lease, rows[i].eventId);
    }
  }
}
