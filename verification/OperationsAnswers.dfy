/** What is recorded of a provider's answer, written out: over every run, and for one
    dispatch with its event. */
module OperationsAnswers {
  import opened Prelude
  import opened Operations
  import opened OperationsRuns
  import S = OperationsService

  /** The provider context as it was given, sorted by name. */
  ghost predicate SortedContext(given: seq<(string, string)>, stored: seq<(string, string)>) {
    && |stored| == |given| && (forall x :: x in stored <==> x in given)
    && (forall i, j :: 0 <= i < j < |stored| ==> StrLt(stored[i].0, stored[j].0))
  }

  /** A record that says what the provider answered, or that nobody knows if it raised. */
  ghost predicate Says(r: Submission, reply: Option<ProviderResult>) {
    match reply
    case None =>
      && r.state == Unknown && r.code == Some("ADAPTER_EXCEPTION_OUTCOME_UNKNOWN")
      && r.externalRef == None && r.disposition == None && r.context == []
    case Some(x) =>
      && (r.state == Accepted <==> x.outcome == OutcomeAccepted)
      && (r.state == Rejected <==> x.outcome == OutcomeRejected)
      && (r.state == Unknown <==> x.outcome == OutcomeUnknown)
      && r.code == Some(Upper(Strip(x.code))) && r.externalRef == x.externalRef && r.disposition == x.disposition
      && SortedContext(x.context, r.context)
  }

  /** The record of a dispatch that an adapter without idempotency must not repeat. */
  ghost predicate SaysBlocked(r: Submission) {
    && r.state == Unknown && r.code == Some("NON_IDEMPOTENT_RECOVERY_BLOCKED")
    && r.externalRef == None && r.disposition == None && r.context == []
  }

  lemma {:induction false} ContextSorts(c: seq<(string, string)>)
    requires forall i, j :: 0 <= i < j < |c| ==> c[i].0 != c[j].0
    ensures SortedContext(c, Sort(ContextBefore, c))
  {
    forall x: (string, string), y: (string, string), z: (string, string) | ContextBefore(x, y) && ContextBefore(y, z)
      ensures ContextBefore(x, z) {
      StrLtTransitive(x.0, y.0, z.0);
    }
    forall i, j | 0 <= i < j < |c| ensures ContextBefore(c[i], c[j]) || ContextBefore(c[j], c[i]) {
      StrLtTotal(c[i].0, c[j].0);
    }
    SortAscends(ContextBefore, c);
  }

  lemma CompletedSays(r: Submission, x: ProviderResult, at: int)
    requires ResultOk(x)
    ensures Says(Completed(r, x, at), Some(x))
  {
    hide Sort, Strip, Upper, NotBlank;
    ContextSorts(x.context);
  }

  lemma ConstantCodes()
    ensures Upper(Strip("ADAPTER_EXCEPTION_OUTCOME_UNKNOWN")) == "ADAPTER_EXCEPTION_OUTCOME_UNKNOWN"
    ensures Upper(Strip("NON_IDEMPOTENT_RECOVERY_BLOCKED")) == "NON_IDEMPOTENT_RECOVERY_BLOCKED"
  {
    var s, t := "ADAPTER_EXCEPTION_OUTCOME_UNKNOWN", "NON_IDEMPOTENT_RECOVERY_BLOCKED";
    assert !Blank(s[0]) && !Blank(s[|s| - 1]) && !Blank(t[0]) && !Blank(t[|t| - 1]);
    assert Strip(s) == s && Strip(t) == t;
    UpperOfCapitals(s);
    UpperOfCapitals(t);
  }

  lemma RaisedSays(r: Submission, at: int)
    ensures Says(Completed(r, ADAPTER_RAISED, at), None) && SaysBlocked(Completed(r, RECOVERY_BLOCKED, at))
  {
    hide Strip, Upper;
    ConstantCodes();
  }

  // ------------------------------------------------------------- over every run

  ghost predicate AnswerAt(calls: seq<Call>, r: Submission, i: int) {
    0 <= i < |calls| && calls[i].rttId == r.rttId && calls[i].version + 1 == r.version && Says(r, calls[i].reply)
  }

  /** A final record says what the call before it was answered, or that it was blocked. */
  ghost predicate FromAnswer(calls: seq<Call>, r: Submission) { SaysBlocked(r) || exists i :: AnswerAt(calls, r, i) }

  ghost predicate HoldsAt(calls: seq<Call>, r: Submission, reply: ProviderResult, i: int) {
    && 0 <= i < |calls| && calls[i].rttId == r.rttId && calls[i].version == r.version
    && reply == if calls[i].reply.Some? then calls[i].reply.value else ADAPTER_RAISED
  }

  /** What a dispatcher is about to record is what its own call was answered. */
  ghost predicate HoldsAnswer(calls: seq<Call>, d: Dispatcher) {
    d.Called? ==> exists i :: HoldsAt(calls, d.record, d.reply, i)
  }

  ghost predicate AnswersOk(w: World) {
    && (forall r :: r in w.store.submissions && FinalState(w.store.submissions[r].state) ==>
          FromAnswer(w.calls, w.store.submissions[r]))
    && (forall k :: k in w.dispatchers ==> HoldsAnswer(w.calls, w.dispatchers[k]))
  }

  lemma OffHolds(calls: seq<Call>, d: Dispatcher)
    requires !d.Called?
    ensures HoldsAnswer(calls, d)
  {
  }

  /** A committed step of one dispatcher. */
  lemma CommitKeepsAnswers(c: Config, w: World, k: int, before: Submission, after: Submission, core: EventCore,
                           signs: Signer, next: Dispatcher)
    requires AnswersOk(w) && !next.Called? && (FinalState(after.state) ==> FromAnswer(w.calls, after))
    ensures AnswersOk(Commit(c, w, k, before, after, core, signs, next))
  {
    hide FromAnswer, HoldsAnswer;
    OffHolds(w.calls, next);
    OffHolds(w.calls, Off);
  }

  lemma AdvanceKeepsAnswers(c: Config, w: World, k: int, signs: Signer, at: int)
    requires AnswersOk(w)
    ensures AnswersOk(DoAdvance(c, w, k, signs, at))
  {
    hide Commit, AnswersOk, Completed, CompletedEvent;
    var d := DispatcherOf(w, k);
    if d.Holding? {
      var r, n := d.record, BeginDispatch(d.record, at);
      RaisedSays(r, at);
      CommitKeepsAnswers(c, w, k, r, Completed(r, RECOVERY_BLOCKED, at), CompletedEvent(r, RECOVERY_BLOCKED, at),
                         signs, Off);
      CommitKeepsAnswers(c, w, k, r, n,
                         CoreOf(n, DispatchStarted, DispatchData(n.dispatchAttempts, d.adapter.idempotent), at),
                         signs, MustCall(n, d.request, d.adapter));
    }
  }

  lemma FinishKeepsAnswers(c: Config, w: World, k: int, signs: Signer, at: int)
    requires AnswersOk(w)
    ensures AnswersOk(DoFinish(c, w, k, signs, at))
  {
    hide Commit, FromAnswer, Completed, CompletedEvent, ResultOk;
    var d := DispatcherOf(w, k);
    OffHolds(w.calls, Off);
    if d.Called? {
      assert HoldsAnswer(w.calls, d);
      if ResultOk(d.reply) {
        HeldIsFromAnswer(w.calls, d.record, d.reply, at);
        CommitKeepsAnswers(c, w, k, d.record, Completed(d.record, d.reply, at), CompletedEvent(d.record, d.reply, at),
                           signs, Off);
      }
    }
  }

  lemma HeldIsFromAnswer(calls: seq<Call>, r: Submission, reply: ProviderResult, at: int)
    requires HoldsAnswer(calls, Called(r, reply)) && ResultOk(reply)
    ensures FromAnswer(calls, Completed(r, reply, at))
  {
    hide Completed, ResultOk, Says;
    var i :| HoldsAt(calls, r, reply, i);
    CompletedIds(r, reply, at);
    RaisedSays(r, at);
    CompletedSays(r, reply, at);
    assert AnswerAt(calls, Completed(r, reply, at), i);
  }

  lemma CompletedIds(r: Submission, reply: ProviderResult, at: int)
    ensures Completed(r, reply, at).rttId == r.rttId && Completed(r, reply, at).version == r.version + 1
  {
  }

  lemma CallKeepsAnswers(w: World, k: int, reply: Option<ProviderResult>)
    requires AnswersOk(w) && DispatchersOk(w)
    ensures AnswersOk(DoCall(w, k, reply))
  {
    hide Says, Snapshot, RecordOk;
    var d, w' := DispatcherOf(w, k), DoCall(w, k, reply);
    if d.MustCall? {
      assert DispatcherOk(w.store, d);
      forall r | r in w'.store.submissions && FinalState(w'.store.submissions[r].state)
        ensures FromAnswer(w'.calls, w'.store.submissions[r]) {
        MoreCalls(w.calls, w'.calls, w.store.submissions[r], Off);
      }
      forall j | j in w'.dispatchers ensures HoldsAnswer(w'.calls, w'.dispatchers[j]) {
        if j == k {
          assert HoldsAt(w'.calls, w'.dispatchers[k].record, w'.dispatchers[k].reply, |w.calls|);
        } else {
          MoreCalls(w.calls, w'.calls, d.record, w.dispatchers[j]);
        }
      }
    }
  }

  lemma MoreCalls(calls: seq<Call>, calls': seq<Call>, r: Submission, d: Dispatcher)
    requires |calls| <= |calls'| && calls'[..|calls|] == calls
    ensures FromAnswer(calls, r) ==> FromAnswer(calls', r)
    ensures HoldsAnswer(calls, d) ==> HoldsAnswer(calls', d)
  {
    hide Says, SaysBlocked;
    if i :| AnswerAt(calls, r, i) { assert calls'[i] == calls[i] && AnswerAt(calls', r, i); }
    if d.Called? {
      if i :| HoldsAt(calls, d.record, d.reply, i) {
        assert calls'[i] == calls[i] && HoldsAt(calls', d.record, d.reply, i);
      }
    }
  }

  lemma PrepareKeepsAnswers(c: Config, w: World, a: Action)
    requires AnswersOk(w) && a.Prepare?
    ensures AnswersOk(Do(c, w, a))
  {
    hide FromAnswer, Upper;
    var w' := Do(c, w, a);
    if a.k in w'.dispatchers && !w'.dispatchers[a.k].Called? { OffHolds(w.calls, w'.dispatchers[a.k]); }
  }

  lemma StepKeepsAnswers(c: Config, w: World, a: Action)
    requires Inv(c, w) && AnswersOk(w)
    ensures AnswersOk(Do(c, w, a))
  {
    hide AnswersOk, SubmissionsOk, EventOk, CallsOk, DispatchersOk, OutboxOk, DoAdvance, DoCall, DoFinish, DoPrepare;
    match a
    case Prepare(_, _, _, _, _, _) => PrepareKeepsAnswers(c, w, a);
    case Advance(k, signs, at) => AdvanceKeepsAnswers(c, w, k, signs, at);
    case CallProvider(k, reply) => CallKeepsAnswers(w, k, reply);
    case Finish(k, signs, at) => FinishKeepsAnswers(c, w, k, signs, at);
    case StopDispatcher(k) => StopKeepsAnswers(w, k);
    case _ =>
      RelayStepShape(c, w, a);
      SameRecordsSameAnswers(w, Do(c, w, a));
  }

  lemma StopKeepsAnswers(w: World, k: int)
    requires AnswersOk(w)
    ensures AnswersOk(SetD(w, k, Off))
  {
    hide FromAnswer;
    OffHolds(w.calls, Off);
  }

  lemma SameRecordsSameAnswers(w: World, w': World)
    requires AnswersOk(w) && w'.store.submissions == w.store.submissions && w'.calls == w.calls
    requires w'.dispatchers == w.dispatchers
    ensures AnswersOk(w')
  {
    hide FromAnswer, HoldsAnswer;
  }

  lemma {:induction false} RunKeepsAnswers(c: Config, w: World, actions: seq<Action>)
    requires Inv(c, w) && AnswersOk(w)
    ensures AnswersOk(Exec(c, w, actions))
    decreases |actions|
  {
    hide Inv, Do, AnswersOk;
    if actions != [] {
      StepKeepsAnswers(c, w, actions[0]);
      StepKeepsInv(c, w, actions[0]);
      RunKeepsAnswers(c, Do(c, w, actions[0]), actions[1..]);
    }
  }

  /** In every interleaving, with crashes anywhere: a submission is ACCEPTED only if a
      provider that was called for it answered so, REJECTED only if one answered so, and in
      both cases with that answer's code, reference, disposition and context; it is UNKNOWN
      only if a provider answered so or raised, or if the dispatch must not be repeated. */
  lemma {:induction false} FinalStatesAreAnswers(c: Config, actions: seq<Action>, r: string)
    requires var s := Exec(c, INITIAL, actions).store; r in s.submissions && FinalState(s.submissions[r].state)
    ensures var w := Exec(c, INITIAL, actions);
            var record := w.store.submissions[r];
            && record.rttId == r && (SaysBlocked(record) || exists i :: AnswerAt(w.calls, record, i))
            && (record.state == Accepted ==>
                  exists i :: AnswerAt(w.calls, record, i) && w.calls[i].reply.Some?
                              && w.calls[i].reply.value.outcome == OutcomeAccepted)
            && (record.state == Rejected ==>
                  exists i :: AnswerAt(w.calls, record, i) && w.calls[i].reply.Some?
                              && w.calls[i].reply.value.outcome == OutcomeRejected)
  {
    hide Exec, EventsOk, DispatchersOk, CallsOk, SubmissionsOk, SortedContext, Upper, Strip;
    InitialInv(c);
    RunKeepsInv(c, INITIAL, actions);
    RunKeepsAnswers(c, INITIAL, actions);
    var w := Exec(c, INITIAL, actions);
    StoredRecordOk(w, r);
    var record := w.store.submissions[r];
    assert FromAnswer(w.calls, record);
    if !SaysBlocked(record) {
      var i :| AnswerAt(w.calls, record, i);
    }
  }

  // ------------------------------------------------------------ one dispatch

  /** The events of the record's last two versions, as a called dispatch leaves them. */
  ghost predicate Told(c: Config, s: Store, r: Submission) {
    exists e :: e in s.outbox && s.outbox[e].core.rttId == r.rttId && s.outbox[e].core.version == r.version
                && Describes(s.outbox[e].core, r) && s.outbox[e].state == Pending && s.outbox[e].attempts == 0
                && s.outbox[e].availableAt == r.updatedAt
  }

  lemma CompleteTells(c: Config, s: Store, r: Submission, reply: ProviderResult, signs: Signer, at: int, called: bool)
    requires S.CompleteOnce(c, s, r, reply, signs, at, called).result.Ok? && RecordOk(r) && r.state == Dispatching
    ensures var d := S.CompleteOnce(c, s, r, reply, signs, at, called);
            && ResultOk(reply) && d.result.value == Completed(r, reply, at) && Told(c, d.store, d.result.value)
            && d.called == called
  {
    hide ResultOk, Completed, CompletedEvent, Describes;
    var d := S.CompleteOnce(c, s, r, reply, signs, at, called);
    var core := CompletedEvent(r, reply, at);
    CompletedIsGood(r, reply, at);
    CompletedIds(r, reply, at);
    DescribesShape(core, d.result.value);
    UpdatedThen(r, reply, at);
    assert d.store.outbox[c.eventId(core)] == NewRow(c.eventId(core), core, at);
  }

  lemma UpdatedThen(r: Submission, reply: ProviderResult, at: int)
    ensures Completed(r, reply, at).updatedAt == at
  {
  }

  lemma FromRecordTells(c: Config, s: Store, r: Submission, a: Adapter, reply: Option<ProviderResult>, signs: Signer,
                        at: int)
    requires RecordOk(r) && !FinalState(r.state) && S.FromRecord(c, s, r, a, reply, signs, at).result.Ok?
    ensures var d := S.FromRecord(c, s, r, a, reply, signs, at);
            && Told(c, d.store, d.result.value)
            && (if r.state == Dispatching && !a.idempotent
                then !d.called && SaysBlocked(d.result.value) && d.result.value.version == r.version + 1
                else d.called && Says(d.result.value, reply) && d.result.value.version == r.version + 2)
  {
    hide S.CompleteOnce, Completed, ResultOk, Told, Says, SaysBlocked, TransitionSubmission;
    if S.Blocked(r, a) {
      CompleteTells(c, s, r, RECOVERY_BLOCKED, signs, at, false);
      RaisedSays(r, at);
      CompletedIds(r, RECOVERY_BLOCKED, at);
    } else {
      var n := BeginDispatch(r, at);
      var started := CoreOf(n, DispatchStarted, DispatchData(n.dispatchAttempts, a.idempotent), at);
      var s' := TransitionSubmission(s, r.version, n, NewRow(c.eventId(started), started, at)).value;
      CompleteTells(c, s', n, S.Answer(reply), signs, at, true);
      RaisedSays(n, at);
      CompletedSays(n, S.Answer(reply), at);
      CompletedIds(n, S.Answer(reply), at);
    }
  }

  /** After any run, a dispatch of a record that was not final and that ends well. If the
      provider was called, the answer is recorded: Accepted if and only if it answered so,
      Rejected if and only if it answered so, Unknown if and only if it answered so or
      raised, with its own code, reference, disposition and context. If it was not called,
      the recovery was blocked and the record is Unknown. The event of the new version
      says the same and waits for delivery. */
  lemma {:induction false} DispatchRecordsTheAnswer(c: Config, actions: seq<Action>, q: ProviderRequest, sid: string,
                                                    a: Adapter, reply: Option<ProviderResult>, signs: Signer, at: int)
    requires var s := Exec(c, INITIAL, actions).store;
             && S.DispatchOnce(c, s, q, sid, a, reply, signs, at).result.Ok?
             && (q.rttId in s.submissions ==> !FinalState(s.submissions[q.rttId].state))
    ensures var s := Exec(c, INITIAL, actions).store;
            var d := S.DispatchOnce(c, s, q, sid, a, reply, signs, at);
            var r := d.result.value;
            && Told(c, d.store, r)
            && (d.called <==>
                  !(q.rttId in s.submissions && s.submissions[q.rttId].state == Dispatching && !a.idempotent))
            && (d.called ==>
                  && (r.state == Accepted <==> reply.Some? && reply.value.outcome == OutcomeAccepted)
                  && (r.state == Rejected <==> reply.Some? && reply.value.outcome == OutcomeRejected)
                  && (r.state == Unknown <==> reply.None? || reply.value.outcome == OutcomeUnknown)
                  && Says(r, reply))
            && (!d.called ==> SaysBlocked(r))
  {
    hide Exec, EventsOk, DispatchersOk, CallsOk, SubmissionsOk, S.FromRecord, Told, Upper, SortedContext, SaysBlocked;
    InitialInv(c);
    RunKeepsInv(c, INITIAL, actions);
    var w := Exec(c, INITIAL, actions);
    if q.rttId in w.store.submissions {
      var r := w.store.submissions[q.rttId];
      StoredRecordOk(w, q.rttId);
      FromRecordTells(c, w.store, r, a, reply, signs, at);
    } else {
      var sub := NewSubmission(q, sid, at);
      var core := CoreOf(sub, SubmissionPrepared, PreparedData(q.requestSha), at);
      var s1 := PrepareSubmission(w.store, sub, NewRow(c.eventId(core), core, at)).value.0;
      FromRecordTells(c, s1, sub, a, reply, signs, at);
    }
  }

  // -------------------------------------------------- keys and adapters fit

  /** A submission holds its idempotency key alone. */
  ghost predicate KeyOk(s: Store, r: string) {
    r in s.submissions ==>
      s.submissions[r].idempotencyKey in s.rttByKey && s.rttByKey[s.submissions[r].idempotencyKey] == r
  }

  /** What a dispatcher works on is of the stored record's provider, and so is its adapter. */
  ghost predicate AdapterOk(s: Store, d: Dispatcher) {
    d.Holding? || d.MustCall? ==>
      && d.record.rttId in s.submissions && d.record.providerId == s.submissions[d.record.rttId].providerId
      && d.record.rttId == d.request.rttId && Upper(d.adapter.providerId) == d.record.providerId
  }

  ghost predicate CallFits(s: Store, x: Call) {
    x.rttId in s.submissions && Upper(x.provider) == s.submissions[x.rttId].providerId
  }

  ghost predicate FitsOk(w: World) {
    && (forall r :: KeyOk(w.store, r))
    && (forall k :: k in w.dispatchers ==> AdapterOk(w.store, w.dispatchers[k]))
    && (forall i :: 0 <= i < |w.calls| ==> CallFits(w.store, w.calls[i]))
  }

  /** Submissions keep their key and their provider. */
  ghost predicate KeepsIds(s: Store, s': Store) {
    && s'.rttByKey == s.rttByKey && s'.submissions.Keys == s.submissions.Keys
    && (forall r :: r in s.submissions ==>
          && s'.submissions[r].idempotencyKey == s.submissions[r].idempotencyKey
          && s'.submissions[r].providerId == s.submissions[r].providerId)
  }

  lemma KeptIdsFit(w: World, w': World, k: int)
    requires FitsOk(w) && KeepsIds(w.store, w'.store) && w'.calls == w.calls
    requires forall j :: j in w'.dispatchers && j != k ==> j in w.dispatchers && w'.dispatchers[j] == w.dispatchers[j]
    requires k in w'.dispatchers ==> AdapterOk(w'.store, w'.dispatchers[k])
    ensures FitsOk(w')
  {
    hide Upper;
    forall r ensures KeyOk(w'.store, r) { assert KeyOk(w.store, r); }
    forall j | j in w'.dispatchers ensures AdapterOk(w'.store, w'.dispatchers[j]) {
      if j != k { assert AdapterOk(w.store, w.dispatchers[j]); }
    }
    forall i | 0 <= i < |w'.calls| ensures CallFits(w'.store, w'.calls[i]) { assert CallFits(w.store, w.calls[i]); }
  }

  lemma CommitFits(c: Config, w: World, k: int, before: Submission, after: Submission, core: EventCore, signs: Signer,
                   next: Dispatcher)
    requires FitsOk(w) && Snapshot(w.store, before) && after.rttId == before.rttId
    requires after.idempotencyKey == before.idempotencyKey && after.providerId == before.providerId
    requires next.Off? || (next.MustCall? && next.record == after && next.request.rttId == after.rttId
                           && Upper(next.adapter.providerId) == after.providerId)
    ensures FitsOk(Commit(c, w, k, before, after, core, signs, next))
  {
    hide Upper, FitsOk;
    KeptIdsFit(w, Commit(c, w, k, before, after, core, signs, next), k);
  }

  lemma CompletedFields(r: Submission, reply: ProviderResult, at: int)
    ensures var d := Completed(r, reply, at);
            d.rttId == r.rttId && d.idempotencyKey == r.idempotencyKey && d.providerId == r.providerId
  {
  }

  lemma AdvanceFits(c: Config, w: World, k: int, signs: Signer, at: int)
    requires FitsOk(w) && DispatcherOk(w.store, DispatcherOf(w, k))
    ensures FitsOk(DoAdvance(c, w, k, signs, at))
  {
    hide Commit, Completed, CompletedEvent, RecordOk, Upper;
    var d := DispatcherOf(w, k);
    if d.Holding? {
      assert AdapterOk(w.store, d);
      var r, n := d.record, BeginDispatch(d.record, at);
      CompletedFields(r, RECOVERY_BLOCKED, at);
      hide FitsOk;
      CommitFits(c, w, k, r, Completed(r, RECOVERY_BLOCKED, at), CompletedEvent(r, RECOVERY_BLOCKED, at), signs, Off);
      CommitFits(c, w, k, r, n, CoreOf(n, DispatchStarted, DispatchData(n.dispatchAttempts, d.adapter.idempotent), at),
                 signs, MustCall(n, d.request, d.adapter));
    }
  }

  lemma FinishFits(c: Config, w: World, k: int, signs: Signer, at: int)
    requires FitsOk(w) && DispatcherOk(w.store, DispatcherOf(w, k))
    ensures FitsOk(DoFinish(c, w, k, signs, at))
  {
    hide Commit, Completed, CompletedEvent, RecordOk, ResultOk, FitsOk;
    var d := DispatcherOf(w, k);
    if d.Called? {
      CompletedFields(d.record, d.reply, at);
      CommitFits(c, w, k, d.record, Completed(d.record, d.reply, at), CompletedEvent(d.record, d.reply, at), signs,
                 Off);
      KeptIdsFit(w, SetD(w, k, Off), k);
    }
  }

  lemma CallStepFits(w: World, k: int, reply: Option<ProviderResult>)
    requires FitsOk(w)
    ensures FitsOk(DoCall(w, k, reply))
  {
    hide Upper, KeyOk;
    var d := DispatcherOf(w, k);
    if d.MustCall? { assert AdapterOk(w.store, d); }
  }

  lemma PrepareFits(c: Config, w: World, a: Action)
    requires FitsOk(w) && a.Prepare? && SubmissionsOk(w)
    ensures FitsOk(Do(c, w, a))
  {
    hide Upper, SubmissionsOk;
    var w', q := Do(c, w, a), a.request;
    if q.rttId in w.store.submissions { StoredRecordOk(w, q.rttId); }
    forall r ensures KeyOk(w'.store, r) { assert KeyOk(w.store, r); }
    forall j | j in w'.dispatchers ensures AdapterOk(w'.store, w'.dispatchers[j]) {
      if j != a.k { assert AdapterOk(w.store, w.dispatchers[j]); }
    }
    forall i | 0 <= i < |w'.calls| ensures CallFits(w'.store, w'.calls[i]) { assert CallFits(w.store, w.calls[i]); }
  }

  lemma RelayFits(w: World, w': World)
    requires FitsOk(w) && w'.store.submissions == w.store.submissions && w'.store.rttByKey == w.store.rttByKey
    requires w'.calls == w.calls && w'.dispatchers == w.dispatchers
    ensures FitsOk(w')
  {
    hide FitsOk, Upper;
    assert 0 in w'.dispatchers ==> AdapterOk(w'.store, w'.dispatchers[0]) by { FirstFits(w, w'); }
    KeptIdsFit(w, w', 0);
  }

  lemma FirstFits(w: World, w': World)
    requires FitsOk(w) && w'.store.submissions == w.store.submissions && w'.dispatchers == w.dispatchers
    ensures 0 in w'.dispatchers ==> AdapterOk(w'.store, w'.dispatchers[0])
  {
    hide Upper;
  }

  lemma RelayKeepsKeys(c: Config, w: World, a: Action)
    requires a.Claim? || a.Publish? || a.Settle? || a.StopRelay?
    ensures Do(c, w, a).store.rttByKey == w.store.rttByKey
  {
    hide Chosen, ClaimAll, NotBlank, Delay;
  }

  lemma StepFits(c: Config, w: World, a: Action)
    requires Inv(c, w) && FitsOk(w)
    ensures FitsOk(Do(c, w, a))
  {
    hide FitsOk, SubmissionsOk, EventOk, CallsOk, OutboxOk, DoAdvance, DoCall, DoFinish, DoPrepare, DispatcherOk;
    match a
    case Prepare(_, _, _, _, _, _) => PrepareFits(c, w, a);
    case Advance(k, signs, at) => NoDispatcherOk(w.store); AdvanceFits(c, w, k, signs, at);
    case CallProvider(k, reply) => CallStepFits(w, k, reply);
    case Finish(k, signs, at) => NoDispatcherOk(w.store); FinishFits(c, w, k, signs, at);
    case StopDispatcher(k) => KeptIdsFit(w, SetD(w, k, Off), k);
    case _ =>
      RelayStepShape(c, w, a);
      RelayKeepsKeys(c, w, a);
      RelayFits(w, Do(c, w, a));
  }

  lemma NoDispatcherOk(s: Store)
    ensures DispatcherOk(s, Off)
  {
  }

  lemma {:induction false} RunFits(c: Config, w: World, actions: seq<Action>)
    requires Inv(c, w) && FitsOk(w)
    ensures FitsOk(Exec(c, w, actions))
    decreases |actions|
  {
    hide Inv, Do, FitsOk;
    if actions != [] {
      StepFits(c, w, actions[0]);
      StepKeepsInv(c, w, actions[0]);
      RunFits(c, Do(c, w, actions[0]), actions[1..]);
    }
  }

  /** In every interleaving: no two submissions share an idempotency key, and a provider is
      only ever called for a submission of its own, through its own adapter. */
  lemma {:induction false} KeysAndAdaptersFit(c: Config, actions: seq<Action>)
    ensures var w := Exec(c, INITIAL, actions);
            && (forall r, q | r in w.store.submissions && q in w.store.submissions ::
                  w.store.submissions[r].idempotencyKey == w.store.submissions[q].idempotencyKey ==> r == q)
            && (forall i :: 0 <= i < |w.calls| ==>
                  && w.calls[i].rttId in w.store.submissions
                  && Upper(w.calls[i].provider) == w.store.submissions[w.calls[i].rttId].providerId
                  && w.calls[i].key == w.store.submissions[w.calls[i].rttId].idempotencyKey
                  && w.calls[i].sha == w.store.submissions[w.calls[i].rttId].requestSha)
  {
    hide Exec, EventsOk, DispatchersOk, SubmissionsOk, Upper;
    InitialInv(c);
    RunKeepsInv(c, INITIAL, actions);
    RunFits(c, INITIAL, actions);
    var w := Exec(c, INITIAL, actions);
    forall r, q | r in w.store.submissions && q in w.store.submissions
                  && w.store.submissions[r].idempotencyKey == w.store.submissions[q].idempotencyKey
      ensures r == q {
      assert KeyOk(w.store, r) && KeyOk(w.store, q);
    }
    forall i | 0 <= i < |w.calls| ensures CallFits(w.store, w.calls[i]) && CallOk(w.store, w.calls[i]) {}
  }

  /** What a dispatch refuses before it commits to one, in order: a preparation that is not
      signed; another request under the same RTT; a key of another RTT; an adapter of another
      provider. A record that is final is answered as it is. In none of these cases is a
      provider called or a stored record changed. */
  lemma DispatchRefuses(c: Config, s: Store, q: ProviderRequest, sid: string, a: Adapter, reply: Option<ProviderResult>,
                        signs: Signer, at: int)
    ensures var d := S.DispatchOnce(c, s, q, sid, a, reply, signs, at);
            if !signs(SubmissionPrepared) then d == S.Dispatched(s, Err(SigningRefused), false)
            else if q.rttId in s.submissions then
              var r := s.submissions[q.rttId];
              if r.requestSha != q.requestSha || r.idempotencyKey != q.idempotencyKey
              then d == S.Dispatched(s, Err(PreparationConflict), false)
              else if Upper(a.providerId) != r.providerId then d == S.Dispatched(s, Err(AdapterMismatch), false)
              else if r.state == Accepted || r.state == Rejected || r.state == Unknown
              then d == S.Dispatched(s, Ok(r), false)
              else true
            else if q.idempotencyKey in s.rttByKey then d == S.Dispatched(s, Err(KeyBelongsElsewhere), false)
            else
              Upper(a.providerId) != q.providerId ==>
                && !d.called && d.result.Err? && (d.result.error == AdapterMismatch || d.result.error == EventCollision)
                && (d.store == s || (&& d.result.error == AdapterMismatch && q.rttId in d.store.submissions
                                     && d.store.submissions == s.submissions[q.rttId := d.store.submissions[q.rttId]]
                                     && d.store.submissions[q.rttId].state == Prepared
                                     && d.store.submissions[q.rttId].version == 1))
  {
    hide S.FromRecord, Upper;
  }

  // --------------------------------------------------------- malformed answers

  /** A small letter, then at most 63 small letters, digits and underscores. */
  ghost predicate ContextName(k: string) {
    && 1 <= |k| <= 64 && 'a' <= k[0] <= 'z'
    && forall i :: 0 <= i < |k| ==> 'a' <= k[i] <= 'z' || '0' <= k[i] <= '9' || k[i] == '_'
  }

  /** An answer that can be recorded: a code, a disposition exactly with a rejection, and at
      most twenty context fields with proper names, each once, and values of 1 to 256
      characters. */
  ghost predicate Recordable(x: ProviderResult) {
    && (exists i :: 0 <= i < |x.code| && !Blank(x.code[i]))
    && (x.outcome == OutcomeRejected <==> x.disposition != None)
    && |x.context| <= 20
    && (forall i :: 0 <= i < |x.context| ==> ContextName(x.context[i].0) && 1 <= |x.context[i].1| <= 256)
    && (forall i, j :: 0 <= i < j < |x.context| ==> x.context[i].0 != x.context[j].0)
  }

  lemma RecordableIs(x: ProviderResult)
    ensures ResultOk(x) <==> Recordable(x)
  {
    hide Blank;
  }

  /** After any run: a provider that was called and answered what cannot be recorded leaves
      the record DISPATCHING; nothing else is stored of the answer. */
  lemma {:induction false} MalformedAnswerIsNotRecorded(c: Config, actions: seq<Action>, q: ProviderRequest,
                                                        sid: string, a: Adapter, x: ProviderResult, signs: Signer,
                                                        at: int)
    requires !Recordable(x)
    requires S.DispatchOnce(c, Exec(c, INITIAL, actions).store, q, sid, a, Some(x), signs, at).called
    ensures var s := Exec(c, INITIAL, actions).store;
            var d := S.DispatchOnce(c, s, q, sid, a, Some(x), signs, at);
            && d.result == Err(InvalidResult) && q.rttId in d.store.submissions
            && d.store.submissions == s.submissions[q.rttId := d.store.submissions[q.rttId]]
            && d.store.submissions[q.rttId].state == Dispatching
            && d.store.submissions[q.rttId].dispatchAttempts
               == 1 + (if q.rttId in s.submissions then s.submissions[q.rttId].dispatchAttempts else 0)
  {
    hide Exec, Recordable, ResultOk, EventsOk, DispatchersOk, CallsOk, SubmissionsOk, Upper;
    RecordableIs(x);
    InitialInv(c);
    RunKeepsInv(c, INITIAL, actions);
    var w := Exec(c, INITIAL, actions);
    if q.rttId in w.store.submissions { StoredRecordOk(w, q.rttId); }
  }
}
