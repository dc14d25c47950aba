/** What every run of the execution machine guarantees, stated on the stored
    plans and attempts alone. */
module ExecutionTheorems {
  import opened Prelude
  import opened RouteScoring
  import opened Execution
  import opened ExecutionRuns

  // ----------------------------------------------------- shape of every plan

  /** The attempts of one plan. */
  ghost function AttemptsOf(s: Store, planId: string): set<string> {
    set r | r in s.attempts && s.attempts[r].planId == planId
  }

  /** Attempt numbers are exactly 1 to n, each used once. */
  ghost predicate NumberedOneTo(s: Store, planId: string, n: nat) {
    && (forall r :: r in AttemptsOf(s, planId) ==> 1 <= s.attempts[r].attemptNumber <= n)
    && (forall k :: 1 <= k <= n ==> HasNumber(s, planId, k))
    && (forall r, t | r in AttemptsOf(s, planId) && t in AttemptsOf(s, planId) ::
          s.attempts[r].attemptNumber == s.attempts[t].attemptNumber ==> r == t)
  }

  ghost predicate HasNumber(s: Store, planId: string, k: int) {
    exists r :: r in AttemptsOf(s, planId) && s.attempts[r].attemptNumber == k
  }

  /** The signed lineage of attempt k + 1 names attempt k, and that of the first names none. */
  ghost predicate LineageByName(s: Store, planId: string) {
    && (forall r :: r in AttemptsOf(s, planId) && s.attempts[r].attemptNumber == 1 ==>
          s.attempts[r].birth.previousRtt == None && s.attempts[r].birth.previousRoute == None)
    && (forall r, t | r in AttemptsOf(s, planId) && t in AttemptsOf(s, planId) ::
          s.attempts[t].attemptNumber == s.attempts[r].attemptNumber + 1 ==>
          Names(s.attempts[t].birth.previousRtt, r) && s.attempts[t].birth.previousRoute == Some(s.attempts[r].routeId))
  }

  /** The same, with the identifier of attempt k itself in the lineage of attempt k + 1. */
  ghost predicate ChainedByLineage(s: Store, planId: string) {
    && LineageByName(s, planId)
    && (forall r, t | r in AttemptsOf(s, planId) && t in AttemptsOf(s, planId) ::
          s.attempts[t].attemptNumber == s.attempts[r].attemptNumber + 1 ==> s.attempts[t].birth.previousRtt == Some(r))
  }

  ghost function AttemptedRoutes(s: Store, planId: string): set<string> {
    set r | r in AttemptsOf(s, planId) :: s.attempts[r].routeId
  }

  /** Attempted and remaining routes partition the ranking, and what remains is in rank order. */
  ghost predicate Partitions(s: Store, p: Plan) {
    && p.remaining == Without(RankedIds(p.ranked), AttemptedRoutes(s, p.planId))
    && (forall id :: id in AttemptedRoutes(s, p.planId) ==> id in RankedIds(p.ranked))
    && |p.remaining| + p.attemptsUsed == |p.ranked|
    && (forall r, t | r in AttemptsOf(s, p.planId) && t in AttemptsOf(s, p.planId) ::
          s.attempts[r].routeId == s.attempts[t].routeId ==> r == t)
  }

  predicate Open(a: Attempt) { a.state == Created || a.state == Unresolved }

  /** At most one attempt is open, and the plan's in-flight marker names it. */
  ghost predicate OpenByName(s: Store, p: Plan) {
    && (forall r :: r in AttemptsOf(s, p.planId) ==> (Open(s.attempts[r]) <==> Names(p.current, r)))
    && (p.current.Some? ==> Strip(p.current.value) in AttemptsOf(s, p.planId))
  }

  /** An attempt is open exactly when it is the plan's in-flight attempt. */
  ghost predicate OneOpen(s: Store, p: Plan) {
    && (forall r :: r in AttemptsOf(s, p.planId) ==> (Open(s.attempts[r]) <==> p.current == Some(r)))
    && (p.current.Some? ==> p.current.value in AttemptsOf(s, p.planId))
  }

  /** At most one attempt has succeeded; one has exactly when the plan is finalized,
      and the plan names it. */
  ghost predicate WinnerByName(s: Store, p: Plan) {
    && (forall r, t | r in AttemptsOf(s, p.planId) && t in AttemptsOf(s, p.planId) ::
          s.attempts[r].state == Succeeded && s.attempts[t].state == Succeeded ==> r == t)
    && (p.status == Finalized <==> exists r :: r in AttemptsOf(s, p.planId) && s.attempts[r].state == Succeeded)
    && (p.status == Finalized ==> p.previousRtt.Some? && Won(s, p, Strip(p.previousRtt.value)))
  }

  /** The attempt that finalized a plan. */
  ghost predicate Won(s: Store, p: Plan, r: string) {
    r in AttemptsOf(s, p.planId) && s.attempts[r].state == Succeeded && p.successfulRoute == Some(s.attempts[r].routeId)
  }

  /** The same, with the winner's own identifier in the plan. */
  ghost predicate OneWinner(s: Store, p: Plan) {
    && WinnerByName(s, p)
    && (p.status == Finalized ==> p.previousRtt.Some? && p.previousRtt.value in AttemptsOf(s, p.planId))
  }

  /** The attempts of a plan in starting order. */
  ghost function ChainOf(w: World, id: string): seq<Link> { if id in w.chains then w.chains[id] else [] }

  /** The facts of one plan in terms of its chain. */
  lemma ChainFacts(w: World, id: string, r: string) returns (i: nat)
    requires Inv(w) && id in w.store.plans && r in AttemptsOf(w.store, id)
    ensures i < |ChainOf(w, id)| && ChainOf(w, id)[i].rttId == r
    ensures LinkOk(w.store.attempts, w.store.plans[id], ChainOf(w, id), i)
    ensures w.store.attempts[r].attemptNumber == i + 1 && w.store.attempts[r].routeId == ChainOf(w, id)[i].routeId
  {
    hide ChainOk, PhaseOk, StaticOk, LocalOk;
    var c := ChainOf(w, id);
    i :| 0 <= i < |c| && c[i].rttId == r;
    assert LinkOk(w.store.attempts, w.store.plans[id], c, i);
  }

  lemma LinkFacts(w: World, id: string, i: nat)
    requires Inv(w) && id in w.store.plans && i < |ChainOf(w, id)|
    ensures ChainOf(w, id)[i].rttId in AttemptsOf(w.store, id)
    ensures w.store.attempts[ChainOf(w, id)[i].rttId].attemptNumber == i + 1
    ensures w.store.attempts[ChainOf(w, id)[i].rttId].routeId == ChainOf(w, id)[i].routeId
    ensures ChainOf(w, id)[i].routeId in RankedIds(w.store.plans[id].ranked)
    ensures Strip(ChainOf(w, id)[i].rttId) == ChainOf(w, id)[i].rttId
  {
    hide ChainOk, PhaseOk, StaticOk, LocalOk, InChain;
    assert LinkOk(w.store.attempts, w.store.plans[id], ChainOf(w, id), i);
  }

  lemma ChainLength(w: World, id: string)
    requires Inv(w) && id in w.store.plans
    ensures ChainOk(w.store.plans[id], ChainOf(w, id)) && StaticOk(w.store.plans[id])
    ensures PhaseOk(w.store.attempts, w.store.plans[id], ChainOf(w, id))
  {
    hide ChainOk, PhaseOk, StaticOk, LocalOk, InChain, LinkOk;
  }

  lemma PlanIsNumbered(w: World, id: string)
    requires Inv(w) && id in w.store.plans
    ensures NumberedOneTo(w.store, id, w.store.plans[id].attemptsUsed)
  {
    hide Inv, LinkOk, Without, RankedIds, PhaseOk, StaticOk;
    var s, c := w.store, ChainOf(w, id);
    ChainLength(w, id);
    forall r | r in AttemptsOf(s, id) ensures 1 <= s.attempts[r].attemptNumber <= |c| {
      var i := ChainFacts(w, id, r);
    }
    forall k | 1 <= k <= |c| ensures HasNumber(s, id, k) {
      LinkFacts(w, id, k - 1);
    }
    forall r, t | r in AttemptsOf(s, id) && t in AttemptsOf(s, id)
                  && s.attempts[r].attemptNumber == s.attempts[t].attemptNumber ensures r == t {
      var i := ChainFacts(w, id, r);
      var j := ChainFacts(w, id, t);
    }
  }

  lemma PlanIsChained(w: World, id: string)
    requires Inv(w) && id in w.store.plans
    ensures LineageByName(w.store, id)
  {
    hide Inv, Without, RankedIds, Strip;
    var s, c := w.store, ChainOf(w, id);
    forall r | r in AttemptsOf(s, id) && s.attempts[r].attemptNumber == 1
      ensures s.attempts[r].birth.previousRtt == None && s.attempts[r].birth.previousRoute == None {
      var i := ChainFacts(w, id, r);
    }
    forall r, t | r in AttemptsOf(s, id) && t in AttemptsOf(s, id)
                  && s.attempts[t].attemptNumber == s.attempts[r].attemptNumber + 1
      ensures Names(s.attempts[t].birth.previousRtt, r)
      ensures s.attempts[t].birth.previousRoute == Some(s.attempts[r].routeId) {
      var i := ChainFacts(w, id, r);
      var j := ChainFacts(w, id, t);
    }
  }

  lemma RoutesAgree(w: World, id: string)
    requires Inv(w) && id in w.store.plans
    ensures AttemptedRoutes(w.store, id) == RoutesOf(ChainOf(w, id))
  {
    hide Inv, LinkOk, Without, RankedIds;
    var s, c := w.store, ChainOf(w, id);
    forall x | x in AttemptedRoutes(s, id) ensures x in RoutesOf(c) {
      var r :| r in AttemptsOf(s, id) && s.attempts[r].routeId == x;
      var i := ChainFacts(w, id, r);
      assert c[i] in c;
    }
    forall x | x in RoutesOf(c) ensures x in AttemptedRoutes(s, id) {
      var l :| l in c && l.routeId == x;
      var i :| 0 <= i < |c| && c[i] == l;
      LinkFacts(w, id, i);
    }
  }

  lemma PlanPartitions(w: World, id: string)
    requires Inv(w) && id in w.store.plans && w.store.plans[id].planId == id
    ensures Partitions(w.store, w.store.plans[id])
  {
    hide Inv, LinkOk, PhaseOk, Without;
    var s, c, p := w.store, ChainOf(w, id), w.store.plans[id];
    ChainLength(w, id);
    RoutesAgree(w, id);
    var routes := seq(|c|, i requires 0 <= i < |c| => c[i].routeId);
    assert (set x | x in routes) == RoutesOf(c) by {
      forall l | l in c ensures l.routeId in routes {
        var i :| 0 <= i < |c| && c[i] == l;
        assert routes[i] == l.routeId;
      }
    }
    forall x | x in routes ensures x in RankedIds(p.ranked) {
      var i :| 0 <= i < |c| && routes[i] == x;
      LinkFacts(w, id, i);
    }
    assert Distinct(RankedIds(p.ranked)) && Distinct(routes);
    WithoutLength(RankedIds(p.ranked), routes);
    forall r, t | r in AttemptsOf(s, id) && t in AttemptsOf(s, id)
                  && s.attempts[r].routeId == s.attempts[t].routeId ensures r == t {
      var i := ChainFacts(w, id, r);
      var j := ChainFacts(w, id, t);
    }
  }

  /** The state of an attempt follows from its place in the chain. */
  lemma {:induction false} StateByPlace(w: World, id: string, r: string)
    requires Inv(w) && id in w.store.plans && r in AttemptsOf(w.store, id)
    ensures var p, a, c := w.store.plans[id], w.store.attempts[r], ChainOf(w, id);
            && c != [] && Strip(r) == r
            && (r != c[|c| - 1].rttId ==> a.state == AttemptFailed)
            && (p.current.Some? ==> Names(p.current, c[|c| - 1].rttId))
            && (r == c[|c| - 1].rttId ==>
                  && (Open(a) <==> p.current.Some?)
                  && (a.state == Created ==> p.status == Active && p.current == Some(r))
                  && (a.state == Succeeded <==> p.status == Finalized)
                  && (p.status == Finalized ==> Names(p.previousRtt, r) && p.successfulRoute == Some(a.routeId)))
  {
    hide Inv, Without, RankedIds, StaticOk, CanStart, Strip;
    var c := ChainOf(w, id);
    ChainLength(w, id);
    var i := ChainFacts(w, id, r);
    LinkFacts(w, id, i);
    assert i == |c| - 1 ==> r == c[|c| - 1].rttId;
    LinkFacts(w, id, |c| - 1);
  }

  lemma PlanOpensByName(w: World, id: string)
    requires Inv(w) && id in w.store.plans && w.store.plans[id].planId == id
    ensures OpenByName(w.store, w.store.plans[id])
  {
    hide Inv, LinkOk, ChainOk, StaticOk, CanStart, Strip;
    var s, p, c := w.store, w.store.plans[id], ChainOf(w, id);
    ChainLength(w, id);
    forall r | r in AttemptsOf(s, id) ensures Open(s.attempts[r]) <==> Names(p.current, r) {
      StateByPlace(w, id, r);
    }
    if c != [] { LinkFacts(w, id, |c| - 1); }
  }

  lemma PlanHasOneWinner(w: World, id: string)
    requires Inv(w) && id in w.store.plans && w.store.plans[id].planId == id
    ensures WinnerByName(w.store, w.store.plans[id])
  {
    hide Inv, LinkOk, ChainOk, StaticOk, CanStart, Strip;
    var s, p, c := w.store, w.store.plans[id], ChainOf(w, id);
    ChainLength(w, id);
    forall r | r in AttemptsOf(s, id)
      ensures s.attempts[r].state == Succeeded ==> c != [] && r == c[|c| - 1].rttId && p.status == Finalized {
      StateByPlace(w, id, r);
    }
    if c != [] {
      var last := c[|c| - 1].rttId;
      LinkFacts(w, id, |c| - 1);
      StateByPlace(w, id, last);
    }
  }

  /** In every reachable state, under every interleaving and crash and however
      reporters spell their identifiers: numbering, partition, and by name the
      lineage, the one open attempt and the one winner. */
  lemma {:induction false} EveryPlanIsSound(actions: seq<Action>, id: string)
    requires id in Exec(INITIAL, actions).store.plans
    ensures var s := Exec(INITIAL, actions).store;
            && s.plans[id].planId == id
            && NumberedOneTo(s, id, s.plans[id].attemptsUsed) && Partitions(s, s.plans[id])
            && LineageByName(s, id) && OpenByName(s, s.plans[id]) && WinnerByName(s, s.plans[id])
  {
    hide Exec;
    InitialInv();
    RunKeepsInv(INITIAL, actions);
    PlanIsSound(Exec(INITIAL, actions), id);
  }

  lemma PlanIsSound(w: World, id: string)
    requires Inv(w) && id in w.store.plans
    ensures w.store.plans[id].planId == id
    ensures NumberedOneTo(w.store, id, w.store.plans[id].attemptsUsed) && Partitions(w.store, w.store.plans[id])
    ensures LineageByName(w.store, id) && OpenByName(w.store, w.store.plans[id])
    ensures WinnerByName(w.store, w.store.plans[id])
  {
    hide NumberedOneTo, LineageByName, Partitions, OpenByName, WinnerByName;
    InvKeyed(w);
    hide Inv;
    PlanIsNumbered(w, id);
    PlanIsChained(w, id);
    PlanPartitions(w, id);
    PlanOpensByName(w, id);
    PlanHasOneWinner(w, id);
  }

  lemma PlanOfAttempt(w: World, r: string)
    requires Inv(w) && r in w.store.attempts
    ensures w.store.attempts[r].planId in w.store.plans
  {
    hide PlanOk, InChain, LocalOk, IndexOk;
  }

  /** The plan of an attempt is the plan of its transaction. */
  lemma AttemptOfItsPlan(w: World, r: string)
    requires Inv(w) && r in w.store.attempts
    ensures var a := w.store.attempts[r];
            && Linked(w.store, a.uttId) && w.store.planByUtt[a.uttId] == a.planId
            && w.store.plans[a.planId].planId == a.planId && w.store.plans[a.planId].uttId == a.uttId
            && r in AttemptsOf(w.store, a.planId)
  {
    hide Inv, Strip;
    InvKeyed(w);
    PlanOfAttempt(w, r);
    IndexFacts(w, w.store.attempts[r].planId);
    var i := ChainFacts(w, w.store.attempts[r].planId, r);
  }

  lemma InitialInv()
    ensures Inv(INITIAL)
  {
  }

  // ------------------------------------------------------- progress, finality

  /** An active plan with nothing in flight always has a next attempt to start. */
  lemma {:induction false} ActivePlanCanStart(actions: seq<Action>, id: string, rttId: Identifier, at: int)
    requires id in Exec(INITIAL, actions).store.plans
    requires var p := Exec(INITIAL, actions).store.plans[id]; p.status == Active && p.current == None
    ensures StartDecision(Exec(INITIAL, actions).store.plans[id], rttId, at).Ok?
    ensures rttId !in Exec(INITIAL, actions).store.attempts ==>
              StartNext(Exec(INITIAL, actions).store, Exec(INITIAL, actions).store.plans[id].uttId, rttId, at).Ok?
  {
    hide Exec;
    var w := Exec(INITIAL, actions);
    InitialInv();
    RunKeepsInv(INITIAL, actions);
    InvKeyed(w);
    IndexFacts(w, id);
    hide Inv;
    ChainLength(w, id);
    PickFinds(w.store.plans[id], BudgetLeft(w.store.plans[id]));
  }

  lemma IndexFacts(w: World, id: string)
    requires Inv(w) && id in w.store.plans
    ensures Linked(w.store, w.store.plans[id].uttId) && w.store.planByUtt[w.store.plans[id].uttId] == id
  {
    hide PlansOk, AttemptsOk, WorkersOk;
  }

  lemma Startable(w: World, id: string, rttId: Identifier, at: int)
    requires Inv(w) && id in w.store.plans && w.store.plans[id].status == Active && w.store.plans[id].current == None
    ensures StartDecision(w.store.plans[id], rttId, at).Ok?
  {
    hide Inv;
    ChainLength(w, id);
    PickFinds(w.store.plans[id], BudgetLeft(w.store.plans[id]));
  }

  /** A worker that nobody interrupts starts the next attempt of such a plan. */
  lemma ActiveStarts(w: World, id: string, k: int, rttId: Identifier, at: int)
    requires Inv(w) && id in w.store.plans && w.store.plans[id].status == Active && w.store.plans[id].current == None
    requires rttId !in w.store.attempts
    ensures var s := Do(Do(w, ReadPlanToStart(k, w.store.plans[id].uttId)), CommitStarted(k, rttId, at)).store;
            && rttId in s.attempts && id in s.plans && s.plans[id].current == Some(rttId)
            && s.plans[id].attemptsUsed == w.store.plans[id].attemptsUsed + 1
            && var a := s.attempts[rttId];
               a.state == Created && a.planId == id && a.attemptNumber == w.store.plans[id].attemptsUsed + 1
  {
    hide Inv, StartDecision;
    var p := w.store.plans[id];
    InvKeyed(w);
    IndexFacts(w, id);
    Startable(w, id, rttId, at);
    StartShape(p, rttId, at);
    assert LocalOf(Do(w, ReadPlanToStart(k, p.uttId)), k) == SawPlan(p);
  }

  predicate Closed(p: Plan) { p.status == PlanFailed || p.status == Exhausted || p.status == Finalized }

  /** A plan that is closed, and an attempt that has an outcome, are never written again. */
  ghost predicate Frozen(s: Store, s': Store) {
    && (forall id :: id in s.plans ==> id in s'.plans && (Closed(s.plans[id]) ==> s'.plans[id] == s.plans[id]))
    && (forall r :: r in s.attempts ==> r in s'.attempts && (!Open(s.attempts[r]) ==> s'.attempts[r] == s.attempts[r]))
  }

  lemma StartFreezes(w: World, a: Action)
    requires Inv(w) && a.CommitStarted?
    ensures Frozen(w.store, Do(w, a).store)
  {
    hide PlansOk, IndexOk, AttemptsOk;
    var w', l := Do(w, a), LocalOf(w, a.worker);
    if l.SawPlan? && w'.store != w.store {
      assert LocalOk(w.store, l);
      StartShape(l.plan, a.rttId, a.at);
    }
  }

  lemma OutcomeFreezes(w: World, a: Action)
    requires Inv(w) && a.CommitOutcome?
    ensures Frozen(w.store, Do(w, a).store)
  {
    hide PlansOk, IndexOk, AttemptsOk, FailureDecision, SuccessDecision, Strip;
    var w', l := Do(w, a), LocalOf(w, a.worker);
    InvKeyed(w);
    if l.SawBoth? && w'.store != w.store {
      assert LocalOk(w.store, l);
      OutcomeShape(l.op, l.plan, l.attempt, l.given, a.at);
      CurrentIsOpen(w, l.plan.planId);
    }
  }

  lemma StepFreezes(w: World, a: Action)
    requires Inv(w)
    ensures Frozen(w.store, Do(w, a).store)
  {
    hide Inv, Ranking, DoCommitStarted, DoCommitOutcome;
    if a.CommitStarted? {
      StartFreezes(w, a);
    } else if a.CommitOutcome? {
      OutcomeFreezes(w, a);
    }
  }

  lemma CurrentIsOpen(w: World, id: string)
    requires Inv(w) && id in w.store.plans && w.store.plans[id].current.Some?
    ensures var p := w.store.plans[id];
            !Closed(p) && Strip(p.current.value) in w.store.attempts && Open(w.store.attempts[Strip(p.current.value)])
  {
    hide Inv, Without, RankedIds, StaticOk, CanStart, Strip;
    var c := ChainOf(w, id);
    ChainLength(w, id);
    if c != [] { LinkFacts(w, id, |c| - 1); }
  }

  lemma {:induction false} RunFreezes(w: World, actions: seq<Action>)
    requires Inv(w)
    ensures Frozen(w.store, Exec(w, actions).store)
    decreases |actions|
  {
    hide Inv;
    if actions != [] {
      StepFreezes(w, actions[0]);
      StepKeepsInv(w, actions[0]);
      RunFreezes(Do(w, actions[0]), actions[1..]);
    }
  }

  /** Once a plan is finalized, failed or exhausted it stays exactly as it is in
      every continuation, and a recorded outcome is never overwritten. */
  lemma {:induction false} OutcomesAreFinal(before: seq<Action>, after: seq<Action>)
    ensures Frozen(Exec(INITIAL, before).store, Exec(Exec(INITIAL, before), after).store)
  {
    hide Frozen, Exec, Inv;
    InitialInv();
    RunKeepsInv(INITIAL, before);
    RunFreezes(Exec(INITIAL, before), after);
  }
}
