/** Reports look an attempt up under the stripped identifier and record the
    identifier as it was given. What that costs when blanks surround it, and that
    it costs nothing otherwise. */
module ExecutionPadding {
  import opened Prelude
  import opened RouteScoring
  import opened Execution
  import opened ExecutionRuns
  import opened ExecutionTheorems

  predicate Unpadded(s: string) { Strip(s) == s }

  predicate UnpaddedIfAny(r: Option<string>) { r.Some? ==> Unpadded(r.value) }

  /** The identifiers themselves, not only names of them, are on record: in the
      in-flight marker, in the lineage so far and in what the next lineage will copy. */
  ghost predicate Sound(s: Store, p: Plan) {
    && OneOpen(s, p) && OneWinner(s, p) && ChainedByLineage(s, p.planId)
    && (p.previousRtt.Some? ==> p.previousRtt.value in AttemptsOf(s, p.planId))
  }

  // ------------------------------------------------------- state by state

  ghost predicate UnpaddedBirths(s: Store, planId: string) {
    forall r :: r in AttemptsOf(s, planId) ==> UnpaddedIfAny(s.attempts[r].birth.previousRtt)
  }

  lemma OpenIffUnpadded(w: World, id: string)
    requires Inv(w) && id in w.store.plans
    ensures var s, p := w.store, w.store.plans[id]; OneOpen(s, p) <==> UnpaddedIfAny(p.current)
  {
    hide Inv, Strip, OneOpen, OpenByName, NumberedOneTo, Partitions, LineageByName, WinnerByName;
    InvKeyed(w);
    PlanIsSound(w, id);
    OpenByNameIff(w.store, w.store.plans[id]);
  }

  lemma OpenByNameIff(s: Store, p: Plan)
    requires Keyed(s) && OpenByName(s, p)
    ensures OneOpen(s, p) <==> UnpaddedIfAny(p.current)
  {
    hide Strip;
  }

  lemma WinnerIffUnpadded(w: World, id: string)
    requires Inv(w) && id in w.store.plans
    ensures var s, p := w.store, w.store.plans[id];
            OneWinner(s, p) <==> (p.status == Finalized ==> UnpaddedIfAny(p.previousRtt))
  {
    hide Inv, Strip, OneWinner, OpenByName, NumberedOneTo, Partitions, LineageByName, WinnerByName;
    InvKeyed(w);
    PlanIsSound(w, id);
    WinnerByNameIff(w.store, w.store.plans[id]);
  }

  lemma WinnerByNameIff(s: Store, p: Plan)
    requires Keyed(s) && WinnerByName(s, p)
    ensures OneWinner(s, p) <==> (p.status == Finalized ==> UnpaddedIfAny(p.previousRtt))
  {
    hide Strip;
  }

  lemma LineageIffUnpadded(w: World, id: string)
    requires Inv(w) && id in w.store.plans
    ensures ChainedByLineage(w.store, id) <==> UnpaddedBirths(w.store, id)
  {
    hide Inv, Strip, ChainedByLineage, UnpaddedBirths, OpenByName, NumberedOneTo, Partitions, LineageByName,
         WinnerByName;
    InvKeyed(w);
    PlanIsSound(w, id);
    if ChainedByLineage(w.store, id) { LineageIsUnpadded(w.store, id, w.store.plans[id].attemptsUsed); }
    if UnpaddedBirths(w.store, id) { UnpaddedIsLineage(w.store, id); }
  }

  lemma UnpaddedIsLineage(s: Store, id: string)
    requires LineageByName(s, id) && UnpaddedBirths(s, id)
    ensures ChainedByLineage(s, id)
  {
    hide Strip;
  }

  lemma LineageIsUnpadded(s: Store, id: string, n: nat)
    requires Keyed(s) && NumberedOneTo(s, id, n) && ChainedByLineage(s, id)
    ensures UnpaddedBirths(s, id)
  {
    hide Strip, LineageByName;
    forall t | t in AttemptsOf(s, id) ensures UnpaddedIfAny(s.attempts[t].birth.previousRtt) {
      BirthIsUnpadded(s, id, n, t);
    }
  }

  lemma BirthIsUnpadded(s: Store, id: string, n: nat, t: string)
    requires Keyed(s) && NumberedOneTo(s, id, n) && ChainedByLineage(s, id) && t in AttemptsOf(s, id)
    ensures UnpaddedIfAny(s.attempts[t].birth.previousRtt)
  {
    hide Strip;
    var k := s.attempts[t].attemptNumber;
    if k > 1 {
      assert HasNumber(s, id, k - 1);
      var r :| r in AttemptsOf(s, id) && s.attempts[r].attemptNumber == k - 1;
      assert s.attempts[t].birth.previousRtt == Some(r);
    }
  }

  /** In every reachable state: the in-flight marker, the winner on record and the
      lineage are the attempts' own identifiers exactly where no blanks surround them. */
  lemma {:induction false} SoundIffUnpadded(actions: seq<Action>, id: string)
    requires id in Exec(INITIAL, actions).store.plans
    ensures var s := Exec(INITIAL, actions).store;
            var p := s.plans[id];
            && (OneOpen(s, p) <==> UnpaddedIfAny(p.current))
            && (OneWinner(s, p) <==> (p.status == Finalized ==> UnpaddedIfAny(p.previousRtt)))
            && (ChainedByLineage(s, id) <==> UnpaddedBirths(s, id))
  {
    hide Exec, OneOpen, OneWinner, ChainedByLineage, UnpaddedBirths, UnpaddedIfAny;
    InitialInv();
    RunKeepsInv(INITIAL, actions);
    OpenIffUnpadded(Exec(INITIAL, actions), id);
    WinnerIffUnpadded(Exec(INITIAL, actions), id);
    LineageIffUnpadded(Exec(INITIAL, actions), id);
  }

  // --------------------------------------------------------- report by report

  /** The previous attempt of a plan, once there is one, is named by the plan. */
  lemma PreviousIffUnpadded(w: World, id: string)
    requires Inv(w) && id in w.store.plans
    ensures var s, p := w.store, w.store.plans[id];
            (p.previousRtt.Some? ==> p.previousRtt.value in AttemptsOf(s, p.planId)) <==> UnpaddedIfAny(p.previousRtt)
  {
    hide Inv, Strip;
    InvKeyed(w);
    PreviousIsNamed(w, id);
  }

  lemma PreviousIsNamed(w: World, id: string)
    requires Inv(w) && id in w.store.plans && w.store.plans[id].planId == id
    ensures var p := w.store.plans[id]; p.previousRtt.Some? ==> Strip(p.previousRtt.value) in AttemptsOf(w.store, id)
  {
    hide Inv, Strip, Without, RankedIds, StaticOk, CanStart, AttemptsOf;
    var c := ChainOf(w, id);
    ChainLength(w, id);
    if c != [] {
      LinkFacts(w, id, |c| - 1);
      if |c| > 1 { LinkFacts(w, id, |c| - 2); }
    }
  }

  lemma CommitKeepsSoundIffUnpadded(w: World, k: int, at: int)
    requires Inv(w) && LocalOf(w, k).SawBoth? && Do(w, CommitOutcome(k, at)).store != w.store
    requires var p := LocalOf(w, k).plan; p.planId in w.store.plans && Sound(w.store, w.store.plans[p.planId])
    ensures var w', id := Do(w, CommitOutcome(k, at)), LocalOf(w, k).plan.planId;
            id in w'.store.plans && (Sound(w'.store, w'.store.plans[id]) <==> Unpadded(LocalOf(w, k).given))
  {
    var l, w' := LocalOf(w, k), Do(w, CommitOutcome(k, at));
    var id := l.plan.planId;
    StepKeepsInv(w, CommitOutcome(k, at));
    CommittedShape(w, k, at);
    hide Inv, Do, Strip, Sound, OneOpen, OneWinner, ChainedByLineage;
    assert w.store.plans[id].planId == id && w'.store.plans[id].planId == id by { InvKeyed(w); InvKeyed(w'); }
    OpenIffUnpadded(w', id);
    WinnerIffUnpadded(w', id);
    LineageIffUnpadded(w', id);
    PreviousIffUnpadded(w', id);
    assert UnpaddedBirths(w.store, id) by { SoundParts(w.store, w.store.plans[id]); LineageIffUnpadded(w, id); }
    SoundIs(w'.store, w'.store.plans[id]);
  }

  /** In every run, a report that is committed on a sound plan leaves it sound if and
      only if the identifier was given without surrounding blanks. */
  lemma {:induction false} ReportKeepsSoundIffUnpadded(before: seq<Action>, k: int, at: int)
    requires var w := Exec(INITIAL, before);
             && LocalOf(w, k).SawBoth? && Do(w, CommitOutcome(k, at)).store != w.store
             && LocalOf(w, k).plan.planId in w.store.plans && Sound(w.store, w.store.plans[LocalOf(w, k).plan.planId])
    ensures var w := Exec(INITIAL, before);
            var s', id := Do(w, CommitOutcome(k, at)).store, LocalOf(w, k).plan.planId;
            id in s'.plans && (Sound(s', s'.plans[id]) <==> Unpadded(LocalOf(w, k).given))
  {
    hide Exec, Inv, Sound, Do, Unpadded;
    InitialInv();
    RunKeepsInv(INITIAL, before);
    CommitKeepsSoundIffUnpadded(Exec(INITIAL, before), k, at);
  }

  lemma SoundParts(s: Store, p: Plan)
    requires Sound(s, p)
    ensures ChainedByLineage(s, p.planId)
  {
    hide OneOpen, OneWinner, ChainedByLineage;
  }

  lemma SoundIs(s: Store, p: Plan)
    ensures Sound(s, p) <==> && OneOpen(s, p) && OneWinner(s, p) && ChainedByLineage(s, p.planId)
                             && (p.previousRtt.Some? ==> p.previousRtt.value in AttemptsOf(s, p.planId))
  {
    hide OneOpen, OneWinner, ChainedByLineage;
  }

  /** What a committed report writes: the identifier as given, and no new lineage. */
  lemma CommittedShape(w: World, k: int, at: int)
    requires Inv(w) && LocalOf(w, k).SawBoth? && Do(w, CommitOutcome(k, at)).store != w.store
    ensures var l, w' := LocalOf(w, k), Do(w, CommitOutcome(k, at));
            && l.plan.planId in w'.store.plans
            && w'.store.plans[l.plan.planId].previousRtt == Some(l.given)
            && (w'.store.plans[l.plan.planId].current.Some? ==> w'.store.plans[l.plan.planId].current == Some(l.given))
            && (forall id :: UnpaddedBirths(w.store, id) ==> UnpaddedBirths(w'.store, id))
            && (forall id :: id in w.store.plans ==>
                  id in w'.store.plans && (id != l.plan.planId ==> w'.store.plans[id] == w.store.plans[id]))
  {
    hide PlansOk, IndexOk, FailureDecision, SuccessDecision, Strip;
    var l := LocalOf(w, k);
    assert LocalOk(w.store, l);
    InvKeyed(w);
    OutcomeShape(l.op, l.plan, l.attempt, l.given, at);
  }

  // ---------------------------------------------------------- unpadded runs

  ghost predicate UnpaddedReports(actions: seq<Action>) {
    forall i :: 0 <= i < |actions| && actions[i].ReadAttempt? ==> Unpadded(actions[i].given)
  }

  ghost predicate TidyPlan(p: Plan) { UnpaddedIfAny(p.current) && UnpaddedIfAny(p.previousRtt) }

  ghost predicate TidyLocal(l: Local) { l.SawAttempt? || l.SawBoth? ==> Unpadded(l.given) }

  ghost predicate Tidy(w: World) {
    && (forall id :: id in w.store.plans ==> TidyPlan(w.store.plans[id]))
    && (forall r :: r in w.store.attempts ==> UnpaddedIfAny(w.store.attempts[r].birth.previousRtt))
    && (forall k :: k in w.workers ==> TidyLocal(w.workers[k]))
  }

  lemma StartKeepsTidy(w: World, a: Action)
    requires Inv(w) && Tidy(w) && a.CommitStarted?
    ensures Tidy(Do(w, a))
  {
    hide PlansOk, IndexOk, AttemptsOk, Strip, StartDecision;
    var l := LocalOf(w, a.worker);
    if l.SawPlan? && StartDecision(l.plan, a.rttId, a.at).Ok? {
      assert LocalOk(w.store, l);
      StartedTidily(l.plan, a.rttId, a.at);
    }
  }

  lemma StartedTidily(p: Plan, rttId: Identifier, at: int)
    requires StartDecision(p, rttId, at).Ok?
    ensures var (p', a) := StartDecision(p, rttId, at).value;
            && p'.planId == p.planId && a.rttId == rttId && p'.current == Some(rttId) && p'.previousRtt == p.previousRtt
            && a.birth.previousRtt == p.previousRtt
  {
    hide Strip;
  }

  lemma OutcomeKeepsTidy(w: World, a: Action)
    requires Inv(w) && Tidy(w) && a.CommitOutcome?
    ensures Tidy(Do(w, a))
  {
    hide PlansOk, IndexOk, AttemptsOk, Strip, FailureDecision, SuccessDecision;
    var l := LocalOf(w, a.worker);
    if l.SawBoth? && Outcome(l.op, l.plan, l.attempt, l.given, a.at).Ok? {
      assert LocalOk(w.store, l);
      OutcomeShape(l.op, l.plan, l.attempt, l.given, a.at);
    }
  }

  lemma StepKeepsTidy(w: World, a: Action)
    requires Inv(w) && Tidy(w) && (a.ReadAttempt? ==> Unpadded(a.given))
    ensures Tidy(Do(w, a))
  {
    hide Inv, Strip, DoCommitStarted, DoCommitOutcome, Ranking;
    if a.CommitStarted? {
      StartKeepsTidy(w, a);
    } else if a.CommitOutcome? {
      OutcomeKeepsTidy(w, a);
    }
  }

  lemma {:induction false} RunKeepsTidy(w: World, actions: seq<Action>)
    requires Inv(w) && Tidy(w) && UnpaddedReports(actions)
    ensures Tidy(Exec(w, actions))
    decreases |actions|
  {
    hide Inv, Tidy, Do;
    if actions != [] {
      StepKeepsTidy(w, actions[0]);
      StepKeepsInv(w, actions[0]);
      RunKeepsTidy(Do(w, actions[0]), actions[1..]);
    }
  }

  /** In every run whose reports give identifiers without blanks around them, every
      plan is sound in every reachable state. */
  lemma {:induction false} UnpaddedRunsAreSound(actions: seq<Action>, id: string)
    requires UnpaddedReports(actions) && id in Exec(INITIAL, actions).store.plans
    ensures Sound(Exec(INITIAL, actions).store, Exec(INITIAL, actions).store.plans[id])
  {
    hide Exec, OneOpen, OneWinner, ChainedByLineage, Strip;
    var w := Exec(INITIAL, actions);
    InitialInv();
    RunKeepsInv(INITIAL, actions);
    RunKeepsTidy(INITIAL, actions);
    assert w.store.plans[id].planId == id by { InvKeyed(w); }
    hide Inv;
    OpenIffUnpadded(w, id);
    WinnerIffUnpadded(w, id);
    LineageIffUnpadded(w, id);
    PreviousIffUnpadded(w, id);
  }

  // ------------------------------------------------------------ a padded report

  /** On any attempt in flight: a report given with one blank before the identifier
      is accepted, and the plan then marks an identifier under which nothing is stored. */
  lemma PaddedReportIsAccepted(w: World, r: string, code: string, cost: nat, at: int)
    requires Inv(w) && r in w.store.attempts && w.store.attempts[r].state == Created
    ensures var result := Record(w.store, " " + r, Fail(code, ReconciliationRequired, cost), at);
            && result.Ok?
            && var (s, p) := result.value;
            && p.current == Some(" " + r) && p.status == AwaitingEvidence && p.previousRtt == Some(" " + r)
            && p.planId == w.store.attempts[r].planId && p.planId in s.plans && s.plans[p.planId] == p
            && r in AttemptsOf(s, p.planId) && Open(s.attempts[r]) && !OneOpen(s, p)
  {
    hide Inv, Strip;
    InvKeyed(w);
    var id := w.store.attempts[r].planId;
    PlanOfAttempt(w, r);
    StateByPlace(w, id, r);
    StripBlankBefore(r);
    assert FindAttempt(w.store, " " + r) == Some(w.store.attempts[r]);
    LastIsIt(w, id, r);
  }

  /** An attempt without outcome is the last one of its plan. */
  lemma LastIsIt(w: World, id: string, r: string)
    requires Inv(w) && id in w.store.plans && r in AttemptsOf(w.store, id) && w.store.attempts[r].state == Created
    ensures w.store.plans[id].status == Active && w.store.plans[id].current == Some(r)
  {
    hide Inv, Strip;
    StateByPlace(w, id, r);
  }

  /** A plan whose in-flight marker is padded: nothing ever starts on it, no report
      on it is ever committed, it stays as it is for ever. */
  ghost predicate Stuck(s: Store, id: string) {
    id in s.plans && s.plans[id].current.Some? && !Unpadded(s.plans[id].current.value)
  }

  lemma StuckStart(w: World, k: int, rttId: Identifier, at: int, id: string)
    requires WorkersOk(w) && Keyed(w.store) && Stuck(w.store, id)
    ensures var w' := DoCommitStarted(w, k, rttId, at); id in w'.store.plans && w'.store.plans[id] == w.store.plans[id]
  {
    hide Strip, StartDecision;
    var l := LocalOf(w, k);
    if l.SawPlan? && StartDecision(l.plan, rttId, at).Ok? { StartedTidily(l.plan, rttId, at); }
  }

  lemma StuckOutcome(w: World, k: int, at: int, id: string)
    requires WorkersOk(w) && Keyed(w.store) && Stuck(w.store, id)
    ensures var w' := DoCommitOutcome(w, k, at); id in w'.store.plans && w'.store.plans[id] == w.store.plans[id]
  {
    hide Strip, Outcome;
    var l := LocalOf(w, k);
    if l.SawBoth? && Outcome(l.op, l.plan, l.attempt, l.given, at).Ok? {
      assert LocalOk(w.store, l);
      OutcomeShape(l.op, l.plan, l.attempt, l.given, at);
    }
  }

  lemma StuckStep(w: World, a: Action, id: string)
    requires Inv(w) && Stuck(w.store, id)
    ensures id in Do(w, a).store.plans && Do(w, a).store.plans[id] == w.store.plans[id]
  {
    hide Strip, DoCommitStarted, DoCommitOutcome, DoBuild, PlansOk, AttemptsOk, IndexOk, WorkersOk;
    InvKeyed(w);
    if a.CommitStarted? {
      StuckStart(w, a.worker, a.rttId, a.at, id);
    } else if a.CommitOutcome? {
      StuckOutcome(w, a.worker, a.at, id);
    } else if a.Build? && Do(w, a) != w {
      BuildShape(w, a);
    }
  }

  lemma {:induction false} StuckRun(w: World, actions: seq<Action>, id: string)
    requires Inv(w) && Stuck(w.store, id)
    ensures id in Exec(w, actions).store.plans && Exec(w, actions).store.plans[id] == w.store.plans[id]
    decreases |actions|
  {
    hide Inv, Do, Strip;
    if actions != [] {
      StuckStep(w, actions[0], id);
      StepKeepsInv(w, actions[0]);
      StuckRun(Do(w, actions[0]), actions[1..], id);
    }
  }

  /** From every reachable state: one padded time-out report, and the plan is never
      written again in any continuation, its attempt open for ever. */
  lemma {:induction false} PaddedReportSticks(before: seq<Action>, k: int, after: seq<Action>, r: string, code: string,
                                              cost: nat, at: int)
    requires var s := Exec(INITIAL, before).store; r in s.attempts && s.attempts[r].state == Created
    ensures var w := Exec(INITIAL, before);
            var w3 := Do(Do(Do(w, ReadAttempt(k, " " + r, Fail(code, ReconciliationRequired, cost))), ReadPlan(k)),
                         CommitOutcome(k, at));
            var id := w.store.attempts[r].planId;
            && id in w3.store.plans && w3.store.plans[id].current == Some(" " + r)
            && !OneOpen(w3.store, w3.store.plans[id])
            && id in Exec(w3, after).store.plans && Exec(w3, after).store.plans[id] == w3.store.plans[id]
  {
    hide Exec, Do, Inv, OneOpen, Outcome, CommitTransition;
    var w := Exec(INITIAL, before);
    var op := Fail(code, ReconciliationRequired, cost);
    InitialInv();
    RunKeepsInv(INITIAL, before);
    PaddedReportIsAccepted(w, r, code, cost, at);
    ReportIsRecord(w, k, " " + r, op, at);
    var w1 := Do(w, ReadAttempt(k, " " + r, op));
    var w2 := Do(w1, ReadPlan(k));
    var w3 := Do(w2, CommitOutcome(k, at));
    StepKeepsInv(w, ReadAttempt(k, " " + r, op));
    StepKeepsInv(w1, ReadPlan(k));
    StepKeepsInv(w2, CommitOutcome(k, at));
    StripBlankBefore(r);
    assert Strip(r) == r by { InvKeyed(w); }
    assert w3.store == Record(w.store, " " + r, op, at).value.0;
    StuckRun(w3, after, w.store.attempts[r].planId);
  }

  /** Three uninterrupted steps of one reporter are the recording operation. */
  lemma ReportIsRecord(w: World, k: int, given: string, op: Operation, at: int)
    requires Record(w.store, given, op, at).Ok?
    ensures var w3 := Do(Do(Do(w, ReadAttempt(k, given, op)), ReadPlan(k)), CommitOutcome(k, at));
            w3.store == Record(w.store, given, op, at).value.0
  {
    hide Outcome, CommitTransition, Strip, FindAttempt;
    var a := FindAttempt(w.store, given).value;
    var w2 := Do(Do(w, ReadAttempt(k, given, op)), ReadPlan(k));
    assert LocalOf(w2, k) == SawBoth(op, given, a, w.store.plans[a.planId]);
  }
}
