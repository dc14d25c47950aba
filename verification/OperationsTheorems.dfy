/** What every run of dispatchers and relays guarantees. */
module OperationsTheorems {
  import opened Prelude
  import opened Operations
  import opened OperationsRuns

  // --------------------------------------------------------- provider calls

  /** In every interleaving, with crashes anywhere: all calls for an RTT carry
      the same idempotency key and request hash, no committed dispatch is called
      twice, and an adapter without idempotency is called at most once per RTT. */
  lemma {:induction false} NeverCalledTwice(c: Config, actions: seq<Action>, i: nat, j: nat)
    requires i < j < |Exec(c, INITIAL, actions).calls|
    requires var calls := Exec(c, INITIAL, actions).calls; calls[i].rttId == calls[j].rttId
    ensures var calls := Exec(c, INITIAL, actions).calls;
            && calls[i].key == calls[j].key && calls[i].sha == calls[j].sha
            && calls[i].version != calls[j].version
            && (calls[i].idempotent || calls[j].idempotent)
  {
    hide Exec, SubmissionsOk, EventsOk, DispatchersOk;
    InitialInv(c);
    RunKeepsInv(c, INITIAL, actions);
    var w := Exec(c, INITIAL, actions);
    assert CallOk(w.store, w.calls[i]) && CallOk(w.store, w.calls[j]);
  }

  /** Submissions in a final state are never written again. */
  ghost predicate FinalsKept(s: Store, s': Store) {
    forall r :: r in s.submissions && FinalState(s.submissions[r].state) ==>
      r in s'.submissions && s'.submissions[r] == s.submissions[r]
  }

  lemma CommitKeepsFinals(c: Config, w: World, k: int, before: Submission, after: Submission, core: EventCore,
                          signs: Signer, next: Dispatcher)
    requires Snapshot(w.store, before) && !FinalState(before.state) && after.rttId == before.rttId
    ensures FinalsKept(w.store, Commit(c, w, k, before, after, core, signs, next).store)
  {
  }

  lemma StepKeepsFinals(c: Config, w: World, a: Action)
    requires Inv(c, w)
    ensures FinalsKept(w.store, Do(c, w, a).store)
  {
    hide SubmissionsOk, EventOk, OutboxOk, CallsOk, Commit, ClaimOutbox, Completed, CompletedEvent, RecordOk;
    var w' := Do(c, w, a);
    match a
    case Advance(k, signs, at) =>
      var d := DispatcherOf(w, k);
      if d.Holding? {
        assert DispatcherOk(w.store, d);
        CompletedRtt(d.record, RECOVERY_BLOCKED, at);
        AdvanceKeepsFinals(c, w, k, signs, at);
      }
    case Finish(k, signs, at) =>
      var d := DispatcherOf(w, k);
      if d.Called? {
        assert DispatcherOk(w.store, d);
        CompletedRtt(d.record, d.reply, at);
        CommitKeepsFinals(c, w, k, d.record, Completed(d.record, d.reply, at), CompletedEvent(d.record, d.reply, at),
                          signs, Off);
      }
    case Claim(_, _, _, _, _) => RelayStepShape(c, w, a);
    case Settle(_) => RelayStepShape(c, w, a);
    case _ =>
  }

  lemma AdvanceKeepsFinals(c: Config, w: World, k: int, signs: Signer, at: int)
    requires DispatcherOf(w, k).Holding? && DispatcherOk(w.store, DispatcherOf(w, k))
    ensures FinalsKept(w.store, DoAdvance(c, w, k, signs, at).store)
  {
    hide Commit, RecordOk, FinalsKept;
    var d := DispatcherOf(w, k);
    var r, n := d.record, BeginDispatch(d.record, at);
    CommitKeepsFinals(c, w, k, r, Completed(r, RECOVERY_BLOCKED, at), CompletedEvent(r, RECOVERY_BLOCKED, at), signs,
                      Off);
    CommitKeepsFinals(c, w, k, r, n,
                      CoreOf(n, DispatchStarted, DispatchData(n.dispatchAttempts, d.adapter.idempotent), at),
                      signs, MustCall(n, d.request, d.adapter));
  }

  lemma CompletedRtt(r: Submission, reply: ProviderResult, at: int)
    ensures Completed(r, reply, at).rttId == r.rttId
  {
  }

  lemma {:induction false} RunKeepsFinals(c: Config, w: World, actions: seq<Action>)
    requires Inv(c, w)
    ensures FinalsKept(w.store, Exec(c, w, actions).store)
    decreases |actions|
  {
    hide Inv, Do;
    if actions != [] {
      StepKeepsFinals(c, w, actions[0]);
      StepKeepsInv(c, w, actions[0]);
      RunKeepsFinals(c, Do(c, w, actions[0]), actions[1..]);
    }
  }

  /** ACCEPTED, REJECTED and UNKNOWN never change once reached. */
  lemma {:induction false} FinalStatesStay(c: Config, before: seq<Action>, after: seq<Action>)
    ensures FinalsKept(Exec(c, INITIAL, before).store, Exec(c, Exec(c, INITIAL, before), after).store)
  {
    hide Inv, Exec, FinalsKept;
    InitialInv(c);
    RunKeepsInv(c, INITIAL, before);
    RunKeepsFinals(c, Exec(c, INITIAL, before), after);
  }

  // ------------------------------------------------------------- the outbox

  ghost predicate IsEventOf(s: Store, e: string, rttId: string, version: int) {
    e in s.outbox && s.outbox[e].core.rttId == rttId && s.outbox[e].core.version == version
  }

  ghost predicate HasEvent(s: Store, rttId: string, version: int) { exists e :: IsEventOf(s, e, rttId, version) }

  /** Exactly one event for each version 1 to n of a submission and none beyond,
      the newest saying what the stored record says. */
  lemma {:induction false} OneEventPerVersion(c: Config, actions: seq<Action>, r: string)
    requires r in Exec(c, INITIAL, actions).store.submissions
    ensures var s := Exec(c, INITIAL, actions).store;
            && (forall v :: 1 <= v <= s.submissions[r].version ==> HasEvent(s, r, v))
            && (forall e, v :: IsEventOf(s, e, r, v) ==> 1 <= v <= s.submissions[r].version)
            && (forall e, f, v :: IsEventOf(s, e, r, v) && IsEventOf(s, f, r, v) ==> e == f)
            && (forall e :: IsEventOf(s, e, r, s.submissions[r].version) ==>
                  Describes(s.outbox[e].core, s.submissions[r]))
  {
    hide Exec, DispatchersOk, CallsOk, Describes, OutboxOk, RecordOk;
    InitialInv(c);
    RunKeepsInv(c, INITIAL, actions);
    var w := Exec(c, INITIAL, actions);
    var s, t := w.store, w.trail[r];
    assert SubmissionOk(s, t, r);
    forall v | 1 <= v <= s.submissions[r].version ensures HasEvent(s, r, v) {
      assert EventAt(s.outbox, s.submissions[r].submissionId, r, t, v - 1);
      assert IsEventOf(s, t[v - 1], r, v);
    }
    forall e, v | IsEventOf(s, e, r, v) ensures 1 <= v <= s.submissions[r].version && t[v - 1] == e {
      assert EventOk(c, w, e);
    }
  }

  // ----------------------------------------------------------------- leases

  ghost predicate RowOk(c: Config, w: World, e: string) {
    e in w.store.outbox ==>
      var row := w.store.outbox[e];
      && (row.state == InFlight <==> row.leaseOwner.Some?) && (row.state == InFlight <==> row.leaseUntil.Some?)
      && (row.state == Pending ==> row.attempts < c.maxAttempts)
      && (row.state == Published ==> e in w.published)
  }

  ghost predicate RelayOk(w: World, r: Relay) {
    r.Batch? && r.returned == Some(true) && r.rows != [] ==> r.rows[0].eventId in w.published
  }

  ghost predicate LeaseInv(c: Config, w: World) {
    && (forall e :: RowOk(c, w, e))
    && (forall k :: k in w.relays ==> RelayOk(w, w.relays[k]))
  }

  /** What one step may do to one outbox row. */
  ghost predicate RowStep(w: World, a: Action, e: string, row: Row, row': Row) {
    && row'.core == row.core
    && (row' != row ==>
          match row.state
          case Pending => a.Claim? && row.availableAt <= a.at && row' == ClaimRow(row, a.worker, a.at, a.lease)
          case InFlight =>
            || (a.Claim? && row.leaseUntil.Some? && row.leaseUntil.value <= a.at
                && row' == ClaimRow(row, a.worker, a.at, a.lease))
            || (a.Settle? && RelayOf(w, a.k).Batch? && row.leaseOwner == Some(RelayOf(w, a.k).worker)
                && row'.state != InFlight && (row'.state == Published ==> e in w.published))
          case Published => false
          case DeadLetter => false)
  }

  ghost predicate RowsStep(w: World, a: Action, s: Store, s': Store) {
    forall e :: e in s.outbox ==> e in s'.outbox && RowStep(w, a, e, s.outbox[e], s'.outbox[e])
  }

  lemma CommitLeasesRows(c: Config, w: World, k: int, before: Submission, after: Submission, core: EventCore,
                         signs: Signer, next: Dispatcher)
    requires 1 <= c.maxAttempts && LeaseInv(c, w)
    ensures var w' := Commit(c, w, k, before, after, core, signs, next);
            && LeaseInv(c, w')
            && (forall e :: e in w.store.outbox ==> e in w'.store.outbox && w'.store.outbox[e] == w.store.outbox[e])
  {
    var w' := Commit(c, w, k, before, after, core, signs, next);
    forall e ensures RowOk(c, w', e) { assert RowOk(c, w, e); }
  }

  lemma DispatcherStepKeepsLeases(c: Config, w: World, a: Action)
    requires 1 <= c.maxAttempts && LeaseInv(c, w)
    requires a.Prepare? || a.Advance? || a.CallProvider? || a.Finish? || a.StopDispatcher?
    ensures LeaseInv(c, Do(c, w, a)) && RowsStep(w, a, w.store, Do(c, w, a).store)
  {
    hide Commit, RowOk, RelayOk;
    match a
    case Prepare(_, _, _, _, _, _) => PrepareKeepsLeases(c, w, a);
    case Advance(k, signs, at) =>
      var d := DispatcherOf(w, k);
      if d.Holding? {
        var r, n := d.record, BeginDispatch(d.record, at);
        CommitLeasesRows(c, w, k, r, Completed(r, RECOVERY_BLOCKED, at), CompletedEvent(r, RECOVERY_BLOCKED, at),
                         signs, Off);
        CommitLeasesRows(c, w, k, r, n,
                         CoreOf(n, DispatchStarted, DispatchData(n.dispatchAttempts, d.adapter.idempotent), at),
                         signs, MustCall(n, d.request, d.adapter));
      }
    case Finish(k, signs, at) =>
      var d := DispatcherOf(w, k);
      if d.Called? {
        CommitLeasesRows(c, w, k, d.record, Completed(d.record, d.reply, at), CompletedEvent(d.record, d.reply, at),
                         signs, Off);
        QuietKeepsLeases(c, w, SetD(w, k, Off));
      }
    case CallProvider(k, reply) => QuietKeepsLeases(c, w, Do(c, w, a));
    case StopDispatcher(k) => QuietKeepsLeases(c, w, Do(c, w, a));
  }

  lemma QuietKeepsLeases(c: Config, w: World, w': World)
    requires LeaseInv(c, w) && w'.store.outbox == w.store.outbox && w'.relays == w.relays && w'.published == w.published
    ensures LeaseInv(c, w')
  {
    forall e ensures RowOk(c, w', e) { assert RowOk(c, w, e); }
    forall k | k in w'.relays ensures RelayOk(w', w'.relays[k]) { assert RelayOk(w, w.relays[k]); }
  }

  lemma PrepareKeepsLeases(c: Config, w: World, a: Action)
    requires 1 <= c.maxAttempts && LeaseInv(c, w) && a.Prepare?
    ensures LeaseInv(c, Do(c, w, a)) && RowsStep(w, a, w.store, Do(c, w, a).store)
  {
    var w' := Do(c, w, a);
    forall e ensures RowOk(c, w', e) { assert RowOk(c, w, e); }
    forall k | k in w'.relays ensures RelayOk(w', w'.relays[k]) { assert RelayOk(w, w.relays[k]); }
  }

  lemma ClaimKeepsLeases(c: Config, w: World, a: Action)
    requires LeaseInv(c, w) && OutboxOk(w.store.outbox, w.store.order) && a.Claim?
    ensures LeaseInv(c, Do(c, w, a)) && RowsStep(w, a, w.store, Do(c, w, a).store)
  {
    hide Chosen, ClaimAll, OutboxOk, NotBlank;
    var w', s := Do(c, w, a), w.store;
    if ClaimOutbox(s, a.worker, a.at, a.lease, a.limit).Ok? {
      var rows := Chosen(s, a.at, a.limit);
      ChosenAreEarliest(s, a.at, a.limit);
      forall e
        ensures RowOk(c, w', e)
                && (e in s.outbox ==> e in w'.store.outbox && RowStep(w, a, e, s.outbox[e], w'.store.outbox[e])) {
        assert RowOk(c, w, e);
        ClaimAllAt(s.outbox, rows, a.worker, a.at, a.lease, e);
      }
      forall k | k in w'.relays ensures RelayOk(w', w'.relays[k]) { if k != a.k { assert RelayOk(w, w.relays[k]); } }
    } else {
      forall e ensures RowOk(c, w', e) { assert RowOk(c, w, e); }
    }
  }

  lemma PublishKeepsLeases(c: Config, w: World, a: Action)
    requires LeaseInv(c, w) && (a.StopRelay? || a.Publish?)
    ensures LeaseInv(c, Do(c, w, a)) && RowsStep(w, a, w.store, Do(c, w, a).store)
  {
    var w' := Do(c, w, a);
    forall e ensures RowOk(c, w', e) { assert RowOk(c, w, e); }
    forall k | k in w'.relays ensures RelayOk(w', w'.relays[k]) { if k != a.k { assert RelayOk(w, w.relays[k]); } }
  }

  /** Finishing one owned row. */
  lemma FinishedRow(c: Config, w: World, a: Action, e: string, s': Store)
    requires a.Settle? && RelayOf(w, a.k).Batch? && RelayOf(w, a.k).rows != [] && RelayOk(w, RelayOf(w, a.k))
    requires var b := RelayOf(w, a.k); var id := b.rows[0].eventId;
             || (b.returned == Some(true) && MarkPublished(w.store, id, b.worker, b.at) == Ok(s'))
             || (b.returned == Some(false)
                 && Reschedule(w.store, id, b.worker, b.at, b.at + Delay(b.rows[0].attempts) * SECOND, PUBLISH_ERROR,
                               c.maxAttempts) == Ok(s'))
    requires RowOk(c, w, e)
    ensures RowOk(c, w.(store := s'), e)
    ensures e in w.store.outbox ==> e in s'.outbox && RowStep(w, a, e, w.store.outbox[e], s'.outbox[e])
  {
    hide NotBlank, Take, Delay;
  }

  lemma SettleKeepsLeases(c: Config, w: World, a: Action)
    requires LeaseInv(c, w) && a.Settle?
    ensures LeaseInv(c, Do(c, w, a)) && RowsStep(w, a, w.store, Do(c, w, a).store)
  {
    hide NotBlank, Take, Delay, RowStep, MarkPublished, Reschedule;
    var w', b := Do(c, w, a), RelayOf(w, a.k);
    assert RelayOk(w, b);
    forall e
      ensures RowOk(c, w', e)
      ensures e in w.store.outbox ==> e in w'.store.outbox && RowStep(w, a, e, w.store.outbox[e], w'.store.outbox[e])
    {
      assert RowOk(c, w, e);
      if w'.store != w.store {
        FinishedRow(c, w, a, e, w'.store);
      } else {
        SameRowSteps(w, a, e);
      }
    }
    forall k | k in w'.relays ensures RelayOk(w', w'.relays[k]) { if k != a.k { assert RelayOk(w, w.relays[k]); } }
  }

  lemma SameRowSteps(w: World, a: Action, e: string)
    ensures e in w.store.outbox ==> RowStep(w, a, e, w.store.outbox[e], w.store.outbox[e])
  {
  }

  lemma StepKeepsLeases(c: Config, w: World, a: Action)
    requires 1 <= c.maxAttempts && LeaseInv(c, w) && Inv(c, w)
    ensures LeaseInv(c, Do(c, w, a)) && RowsStep(w, a, w.store, Do(c, w, a).store)
  {
    hide LeaseInv, Do, RowsStep, SubmissionsOk, DispatchersOk, CallsOk, EventOk, OutboxOk;
    match a
    case Claim(_, _, _, _, _) => ClaimKeepsLeases(c, w, a);
    case Publish(_, _) => PublishKeepsLeases(c, w, a);
    case Settle(_) => SettleKeepsLeases(c, w, a);
    case StopRelay(_) => PublishKeepsLeases(c, w, a);
    case _ => DispatcherStepKeepsLeases(c, w, a);
  }

  lemma {:induction false} RunKeepsLeases(c: Config, w: World, actions: seq<Action>)
    requires 1 <= c.maxAttempts && LeaseInv(c, w) && Inv(c, w)
    ensures LeaseInv(c, Exec(c, w, actions)) && Inv(c, Exec(c, w, actions))
    ensures forall e :: e in w.store.outbox ==>
              && e in Exec(c, w, actions).store.outbox
              && (w.store.outbox[e].state == Published || w.store.outbox[e].state == DeadLetter ==>
                    Exec(c, w, actions).store.outbox[e] == w.store.outbox[e])
    decreases |actions|
  {
    hide Inv, LeaseInv, Do;
    if actions != [] {
      StepKeepsLeases(c, w, actions[0]);
      StepKeepsInv(c, w, actions[0]);
      RunKeepsLeases(c, Do(c, w, actions[0]), actions[1..]);
    }
  }

  /** In every reachable state a row has an owner and a lease exactly while it is
      in flight, a pending row has deliveries left, and a published row was
      published by a call that returned. */
  lemma {:induction false} RowsAreSound(c: Config, actions: seq<Action>, e: string)
    requires 1 <= c.maxAttempts
    ensures RowOk(c, Exec(c, INITIAL, actions), e)
  {
    hide Exec;
    InitialInv(c);
    RunKeepsLeases(c, INITIAL, actions);
  }

  /** The next step of any run takes a row from its holder only at or after the
      end of the lease, lets only the holder finish it, and publishes it only
      after a publish call returned; delivered and dead rows stay forever. */
  lemma {:induction false} RowsMoveByLease(c: Config, before: seq<Action>, a: Action, after: seq<Action>, e: string)
    requires 1 <= c.maxAttempts && e in Exec(c, INITIAL, before).store.outbox
    ensures var w := Exec(c, INITIAL, before);
            && e in Do(c, w, a).store.outbox && RowStep(w, a, e, w.store.outbox[e], Do(c, w, a).store.outbox[e])
            && e in Exec(c, w, after).store.outbox
            && (w.store.outbox[e].state == Published || w.store.outbox[e].state == DeadLetter ==>
                  Exec(c, w, after).store.outbox[e] == w.store.outbox[e])
  {
    hide Exec, Do, Inv, LeaseInv;
    InitialInv(c);
    InitialLeases(c);
    RunKeepsLeases(c, INITIAL, before);
    StepKeepsLeases(c, Exec(c, INITIAL, before), a);
    RunKeepsLeases(c, Exec(c, INITIAL, before), after);
  }

  lemma InitialLeases(c: Config)
    ensures LeaseInv(c, INITIAL)
  {
  }
}
