/** Every order, repetition and interleaving of one attempt's callbacks, with a
    crash possible after any read or write. */
module CallbackRuns {
  import opened Prelude
  import opened Execution
  import opened Callbacks
  import Encoding

  /** How far a handler has come with the callback it serves. */
  datatype Handler =
    | Free
    | Took(kind: Kind, payload: Payload)
    | Chose(kind: Kind, payload: Payload, op: Operation)
    | SawAttempt(kind: Kind, payload: Payload, op: Operation, attempt: Attempt)
    | SawPlan(kind: Kind, payload: Payload, op: Operation, attempt: Attempt, plan: Plan)
    | Finishing(kind: Kind, payload: Payload)
    | Settled(kind: Kind, payload: Payload)

  /** log holds the kind of every callback whose outcome was committed, in order. */
  datatype World = World(inbox: Inbox, store: Store, handlers: map<int, Handler>, log: seq<Kind>)

  datatype Action =
    | Receive(worker: int, kind: Kind, payload: Payload, at: int)
    | ReceiveForged(raw: seq<Encoding.byte>, shortHash: string, at: int)
    | Look(worker: int)
    | ReadAttempt(worker: int)
    | ReadPlan(worker: int)
    | Commit(worker: int, at: int)
    | Settle(worker: int, accepted: bool)
    | Finish(worker: int, at: int)
    | Crash(worker: int)

  function HandlerOf(w: World, k: int): Handler { if k in w.handlers then w.handlers[k] else Free }

  function Put(w: World, k: int, h: Handler): World { w.(handlers := w.handlers[k := h]) }

  function DoReceive(c: Config, w: World, k: int, kind: Kind, p: Payload, at: int): World {
    if Refusal(c, kind, p).Some? then Put(w, k, Free)
    else
      match Ingest(w.inbox, EventId(kind, p.conversationId), OfPayload(p), true, at)
      case Err(_) => Put(w, k, Free)
      case Ok((inbox, record, _)) =>
        Put(w, k, if record.state == Applied then Free else Took(kind, p)).(inbox := inbox)
  }

  function DoForged(w: World, raw: seq<Encoding.byte>, shortHash: string, at: int): World {
    match Ingest(w.inbox, RejectedId(shortHash), OfBytes(raw), false, at)
    case Err(_) => w
    case Ok((inbox, _, _)) => w.(inbox := inbox)
  }

  function DoLook(c: Config, w: World, k: int): World {
    match HandlerOf(w, k)
    case Took(kind, p) =>
      if c.submission.rttId !in w.store.attempts then Put(w, k, Free)
      else
        (match Choose(c, kind, p, w.store.attempts[c.submission.rttId].state)
         case Conflict => Put(w, k, Free)
         case Nothing => Put(w, k, Finishing(kind, p))
         case Perform(op) => Put(w, k, Chose(kind, p, op)))
    case _ => w
  }

  function DoReadAttempt(c: Config, w: World, k: int): World {
    match HandlerOf(w, k)
    case Chose(kind, p, op) =>
      var found := FindAttempt(w.store, c.submission.rttId);
      if found.Some? && found.value.state == Expects(op)
      then Put(w, k, SawAttempt(kind, p, op, found.value)) else Put(w, k, Free)
    case _ => w
  }

  function DoReadPlan(w: World, k: int): World {
    match HandlerOf(w, k)
    case SawAttempt(kind, p, op, a) =>
      if a.planId in w.store.plans then Put(w, k, SawPlan(kind, p, op, a, w.store.plans[a.planId])) else Put(w, k, Free)
    case _ => w
  }

  /** What committing an outcome does to the store, if it goes through. */
  function Committed(s: Store, op: Operation, a: Attempt, given: string, plan: Plan, at: int): Option<Store> {
    match Outcome(op, plan, a, given, at)
    case Err(_) => None
    case Ok((plan', a')) =>
      match CommitTransition(s, plan.version, plan', a')
      case Err(_) => None
      case Ok(s') => Some(s')
  }

  function DoCommit(c: Config, w: World, k: int, at: int): World {
    match HandlerOf(w, k)
    case SawPlan(kind, p, op, a, plan) =>
      (match Committed(w.store, op, a, c.submission.rttId, plan, at)
       case None => Put(w, k, Free)
       case Some(s) => Put(w, k, Finishing(kind, p)).(store := s, log := w.log + [kind]))
    case _ => w
  }

  function DoSettle(w: World, k: int, accepted: bool): World {
    match HandlerOf(w, k)
    case Finishing(kind, p) => Put(w, k, if IsSuccess(kind, p) && !accepted then Free else Settled(kind, p))
    case _ => w
  }

  function DoFinish(w: World, k: int, at: int): World {
    match HandlerOf(w, k)
    case Settled(kind, p) =>
      (match MarkApplied(w.inbox, EventId(kind, p.conversationId), at)
       case Err(_) => Put(w, k, Free)
       case Ok(inbox) => Put(w, k, Free).(inbox := inbox))
    case _ => w
  }

  function Do(c: Config, w: World, a: Action): World {
    match a
    case Receive(k, kind, p, at) => DoReceive(c, w, k, kind, p, at)
    case ReceiveForged(raw, shortHash, at) => DoForged(w, raw, shortHash, at)
    case Look(k) => DoLook(c, w, k)
    case ReadAttempt(k) => DoReadAttempt(c, w, k)
    case ReadPlan(k) => DoReadPlan(w, k)
    case Commit(k, at) => DoCommit(c, w, k, at)
    case Settle(k, accepted) => DoSettle(w, k, accepted)
    case Finish(k, at) => DoFinish(w, k, at)
    case Crash(k) => Put(w, k, Free)
  }

  function Exec(c: Config, w: World, actions: seq<Action>): World
    decreases |actions|
  {
    if actions == [] then w else Exec(c, Do(c, w, actions[0]), actions[1..])
  }

  /** The attempt is created, in flight, and no callback about it has been seen. */
  ghost predicate InFlight(s: Store, rttId: string) {
    && rttId in s.attempts && s.attempts[rttId].rttId == rttId && s.attempts[rttId].state == Created && Generated(rttId)
    && s.attempts[rttId].planId in s.plans
    && var p := s.plans[s.attempts[rttId].planId];
       p.planId == s.attempts[rttId].planId && p.current == Some(rttId) && p.status == Active
  }

  const QUIET: Inbox := map[]

  function Begin(s: Store): World { World(QUIET, s, map[], []) }

  // ----------------------------------------------------------- the verdict

  /** The one attempt state and the one plan status a RESULT body leads to. */
  function VerdictState(p: Payload): AttemptState { if p.resultCode == 0 then Succeeded else AttemptFailed }

  function VerdictStatus(c: Config, plan: Plan, p: Payload): PlanStatus {
    if p.resultCode == 0 then Finalized
    else if p.resultCode !in c.retryable then PlanFailed
    else StatusAfterRetryable(plan, plan.spent)
  }

  /** What a recorded callback leaves besides: its code on the attempt, or its route on the plan. */
  ghost predicate Noted(kind: Kind, p: Payload, a: Attempt, plan: Plan) {
    match kind
    case TimeoutCallback => a.failureCode == Some("MPESA_CALLBACK_TIMEOUT")
    case ResultCallback =>
      if p.resultCode == 0 then plan.successfulRoute == Some(a.routeId)
      else a.failureCode == Some("MPESA_RESULT_" + Encoding.Decimal(p.resultCode))
  }

  /** The RESULT body the inbox has kept, if one has arrived. */
  function KeptResult(c: Config, inbox: Inbox): Option<Payload> {
    match c.submission.externalRef
    case None => None
    case Some(conversation) =>
      var id := EventId(ResultCallback, conversation);
      if id in inbox && inbox[id].digest.OfPayload? then Some(inbox[id].digest.payload) else None
  }

  // --------------------------------------------------------- the invariant

  /** Only the outcome fields of a plan have moved; nothing was spent. */
  ghost predicate SamePlan(p0: Plan, p: Plan) {
    p == p0.(failures := p.failures, current := p.current, previousRtt := p.previousRtt,
             previousRoute := p.previousRoute, status := p.status, successfulRoute := p.successfulRoute,
             version := p.version, updatedAt := p.updatedAt)
  }

  ghost predicate SameAttempt(a0: Attempt, a: Attempt) {
    a == a0.(state := a.state, failureCode := a.failureCode, actualCost := a.actualCost, updatedAt := a.updatedAt)
  }

  function PlanIdOf(s: Store, rttId: string): string {
    if rttId in s.attempts then s.attempts[rttId].planId else ""
  }

  function PlanOf(s: Store, rttId: string): Option<Plan> {
    if PlanIdOf(s, rttId) in s.plans then Some(s.plans[PlanIdOf(s, rttId)]) else None
  }

  function AttemptOf(s: Store, rttId: string): Option<Attempt> {
    if rttId in s.attempts then Some(s.attempts[rttId]) else None
  }

  /** Everything but this attempt and its plan is as it was. */
  ghost predicate Near(s0: Store, s: Store, r: string) {
    && s.planByUtt == s0.planByUtt
    && r in s0.attempts && r in s.attempts && s.attempts == s0.attempts[r := s.attempts[r]]
    && SameAttempt(s0.attempts[r], s.attempts[r])
    && PlanIdOf(s0, r) in s0.plans && PlanIdOf(s0, r) in s.plans
    && s.plans == s0.plans[PlanIdOf(s0, r) := s.plans[PlanIdOf(s0, r)]]
    && SamePlan(s0.plans[PlanIdOf(s0, r)], s.plans[PlanIdOf(s0, r)])
  }

  ghost predicate AllTimeouts(log: seq<Kind>) { forall i :: 0 <= i < |log| ==> log[i] == TimeoutCallback }

  /** Open: only time-outs were recorded. Closed: time-outs, then the one RESULT. */
  ghost predicate PhaseOk(c: Config, plan0: Plan, kept: Option<Payload>, a: Attempt, plan: Plan, log: seq<Kind>) {
    if a.state == Created then log == [] && plan.current == Some(a.rttId) && plan.status == Active
    else if a.state == Unresolved then
      && log != [] && AllTimeouts(log) && plan.current == Some(a.rttId) && plan.status == AwaitingEvidence
      && a.failureCode == Some("MPESA_CALLBACK_TIMEOUT")
    else
      && log != [] && AllTimeouts(log[..|log| - 1]) && log[|log| - 1] == ResultCallback && plan.current == None
      && kept.Some? && a.state == VerdictState(kept.value) && plan.status == VerdictStatus(c, plan0, kept.value)
      && Noted(ResultCallback, kept.value, a, plan)
  }

  /** The inbox holds this very body under this kind. */
  ghost predicate Kept(c: Config, inbox: Inbox, kind: Kind, p: Payload) {
    && c.submission.externalRef == Some(p.conversationId)
    && EventId(kind, p.conversationId) in inbox && inbox[EventId(kind, p.conversationId)].digest == OfPayload(p)
  }

  ghost predicate Possible(c: Config, kind: Kind, p: Payload, op: Operation) {
    op == Choose(c, kind, p, Created).op || (kind.ResultCallback? && op == Choose(c, kind, p, Unresolved).op)
  }

  ghost predicate Snapshot(s: Store, plan: Plan) {
    && plan.planId in s.plans && plan.version <= s.plans[plan.planId].version
    && (plan.version == s.plans[plan.planId].version ==> plan == s.plans[plan.planId])
  }

  /** The recorded outcome of a kind of callback is in place. */
  ghost predicate InPlace(kind: Kind, state: AttemptState) {
    match kind
    case TimeoutCallback => state != Created
    case ResultCallback => state == Succeeded || state == AttemptFailed
  }

  ghost predicate HandlerOk(c: Config, inbox: Inbox, s: Store, h: Handler) {
    var r := c.submission.rttId;
    r in s.attempts &&
    match h
    case Free => true
    case Took(kind, p) => Kept(c, inbox, kind, p)
    case Chose(kind, p, op) => Kept(c, inbox, kind, p) && Possible(c, kind, p, op)
    case SawAttempt(kind, p, op, a) =>
      Kept(c, inbox, kind, p) && Possible(c, kind, p, op) && SameAttempt(s.attempts[r], a)
    case SawPlan(kind, p, op, a, plan) =>
      Kept(c, inbox, kind, p) && Possible(c, kind, p, op) && SameAttempt(s.attempts[r], a)
      && plan.planId == a.planId && Snapshot(s, plan)
    case Finishing(kind, p) => Kept(c, inbox, kind, p) && InPlace(kind, s.attempts[r].state)
    case Settled(kind, p) => Kept(c, inbox, kind, p) && InPlace(kind, s.attempts[r].state)
  }

  /** A callback is kept by its body, and what is marked applied has its outcome in place. */
  ghost predicate InboxOk(c: Config, inbox: Inbox, state: AttemptState) {
    forall kind, conversation | && c.submission.externalRef == Some(conversation)
                                && EventId(kind, conversation) in inbox ::
      && inbox[EventId(kind, conversation)].digest.OfPayload?
      && (inbox[EventId(kind, conversation)].state == Applied ==> InPlace(kind, state))
  }

  ghost predicate HandlersOk(c: Config, w: World) {
    forall k :: k in w.handlers ==> HandlerOk(c, w.inbox, w.store, w.handlers[k])
  }

  ghost predicate StoreOk(c: Config, s0: Store, w: World) {
    var r := c.submission.rttId;
    && InFlight(s0, r) && Near(s0, w.store, r)
    && PhaseOk(c, s0.plans[PlanIdOf(s0, r)], KeptResult(c, w.inbox), w.store.attempts[r],
               w.store.plans[PlanIdOf(s0, r)], w.log)
    && InboxOk(c, w.inbox, w.store.attempts[r].state)
    && (w.store.attempts[r].state == Created ==> w.store == s0)
  }

  ghost predicate Inv(c: Config, s0: Store, w: World) { StoreOk(c, s0, w) && HandlersOk(c, w) }

  // -------------------------------------------------- the store never loses

  /** A step that leaves the store alone and only adds to the inbox. */
  ghost predicate InboxGrows(c: Config, inbox: Inbox, inbox': Inbox) {
    && (forall kind, p :: Kept(c, inbox, kind, p) ==> Kept(c, inbox', kind, p))
    && (KeptResult(c, inbox).Some? ==> KeptResult(c, inbox') == KeptResult(c, inbox))
  }

  lemma GrowthKeepsHandler(c: Config, inbox: Inbox, inbox': Inbox, s: Store, h: Handler)
    requires HandlerOk(c, inbox, s, h) && InboxGrows(c, inbox, inbox')
    ensures HandlerOk(c, inbox', s, h)
  {
    hide Kept, Possible, SameAttempt, Snapshot, KeptResult;
    if !h.Free? { assert Kept(c, inbox, h.kind, h.payload); }
  }

  lemma QuietStep(c: Config, s0: Store, w: World, w': World, k: int)
    requires Inv(c, s0, w) && w'.store == w.store && w'.log == w.log
    requires InboxGrows(c, w.inbox, w'.inbox) && InboxOk(c, w'.inbox, w.store.attempts[c.submission.rttId].state)
    requires forall j :: j in w'.handlers && j != k ==> j in w.handlers && w'.handlers[j] == w.handlers[j]
    requires k in w'.handlers ==> HandlerOk(c, w'.inbox, w.store, w'.handlers[k])
    ensures Inv(c, s0, w')
  {
    hide HandlerOk, InboxGrows, InboxOk, KeptResult, Near, InFlight, VerdictStatus;
    forall j | j in w'.handlers ensures HandlerOk(c, w'.inbox, w'.store, w'.handlers[j]) {
      if j != k { GrowthKeepsHandler(c, w.inbox, w'.inbox, w.store, w'.handlers[j]); }
    }
    GrowthKeepsResult(c, w.inbox, w'.inbox);
  }

  lemma GrowthKeepsResult(c: Config, inbox: Inbox, inbox': Inbox)
    requires InboxGrows(c, inbox, inbox')
    ensures KeptResult(c, inbox).Some? ==> KeptResult(c, inbox') == KeptResult(c, inbox)
  {
  }

  lemma NothingGrows(c: Config, inbox: Inbox)
    ensures InboxGrows(c, inbox, inbox)
  {
  }

  lemma IngestGrows(c: Config, inbox: Inbox, eventId: string, digest: Digest, valid: bool, at: int)
    requires Ingest(inbox, eventId, digest, valid, at).Ok?
    requires digest.OfPayload? || forall kind, conversation :: EventId(kind, conversation) != eventId
    ensures var (inbox', record, _) := Ingest(inbox, eventId, digest, valid, at).value;
            && InboxGrows(c, inbox, inbox') && eventId in inbox' && inbox'[eventId] == record && record.digest == digest
            && (forall state :: InboxOk(c, inbox, state) ==> InboxOk(c, inbox', state))
  {
    hide EventId;
  }

  lemma MarkGrows(c: Config, inbox: Inbox, kind: Kind, p: Payload, at: int, state: AttemptState)
    requires Kept(c, inbox, kind, p) && InPlace(kind, state) && InboxOk(c, inbox, state)
    requires MarkApplied(inbox, EventId(kind, p.conversationId), at).Ok?
    ensures var inbox' := MarkApplied(inbox, EventId(kind, p.conversationId), at).value;
            InboxGrows(c, inbox, inbox') && InboxOk(c, inbox', state)
  {
    EventIdsDiffer(p.conversationId, p.conversationId, "");
    hide EventId;
  }

  // ------------------------------------------------------- committed outcomes

  lemma SameVerdict(c: Config, p0: Plan, p: Plan, body: Payload)
    requires SamePlan(p0, p)
    ensures VerdictStatus(c, p0, body) == VerdictStatus(c, p, body)
  {
    var left := Max(0, p.budget - p.spent);
    assert AffordableRemains(p0, left) <==> AffordableRemains(p, left);
  }

  /** What each kind of callback writes, whichever state it believed the attempt to be in. */
  lemma OutcomeByKind(c: Config, kind: Kind, body: Payload, op: Operation, a: Attempt, given: string, plan: Plan,
                      at: int)
    requires Possible(c, kind, body, op) && Outcome(op, plan, a, given, at).Ok?
    ensures var (plan', a') := Outcome(op, plan, a, given, at).value;
            && SamePlan(plan, plan') && plan'.version == plan.version + 1 && SameAttempt(a, a')
            && Noted(kind, body, a', plan')
            && (kind.TimeoutCallback? ==>
                  a'.state == Unresolved && plan'.status == AwaitingEvidence && plan'.current == Some(given))
            && (kind.ResultCallback? ==>
                  a'.state == VerdictState(body) && plan'.status == VerdictStatus(c, plan, body)
                  && plan'.current == None)
  {
    hide StatusAfterRetryable;
  }

  /** A commit goes through only while the attempt is the one in flight. */
  lemma CommitShape(c: Config, s: Store, kind: Kind, body: Payload, op: Operation, a: Attempt, given: string,
                    plan: Plan, at: int)
    requires Possible(c, kind, body, op) && Committed(s, op, a, given, plan, at).Some?
    requires Snapshot(s, plan) && a.rttId in s.attempts
    ensures plan == s.plans[plan.planId] && plan.current == Some(a.rttId) && Outcome(op, plan, a, given, at).Ok?
    ensures var (plan', a') := Outcome(op, plan, a, given, at).value;
            && plan'.planId == plan.planId && a'.rttId == a.rttId
            && Committed(s, op, a, given, plan, at).value
               == s.(attempts := s.attempts[a.rttId := a'], plans := s.plans[plan.planId := plan'])
  {
    hide Outcome, Possible;
    OutcomeByKind(c, kind, body, op, a, given, plan, at);
  }

  lemma PhaseAfterCommit(c: Config, p0: Plan, kept: Option<Payload>, a: Attempt, plan: Plan, log: seq<Kind>,
                         kind: Kind, body: Payload, a': Attempt, plan': Plan)
    requires PhaseOk(c, p0, kept, a, plan, log) && plan.current == Some(a.rttId) && a'.rttId == a.rttId
    requires SamePlan(p0, plan) && (kind.ResultCallback? ==> kept == Some(body)) && Noted(kind, body, a', plan')
    requires kind.TimeoutCallback? ==>
               a'.state == Unresolved && plan'.status == AwaitingEvidence && plan'.current == Some(a.rttId)
    requires kind.ResultCallback? ==>
               a'.state == VerdictState(body) && plan'.status == VerdictStatus(c, plan, body) && plan'.current == None
    ensures PhaseOk(c, p0, kept, a', plan', log + [kind])
    ensures forall other :: InPlace(other, a.state) ==> InPlace(other, a'.state)
    ensures InPlace(kind, a'.state)
  {
    SameVerdict(c, p0, plan, body);
    hide VerdictStatus, SamePlan;
    assert (log + [kind])[..|log|] == log;
  }

  lemma WriteKeepsHandler(c: Config, inbox: Inbox, s: Store, s': Store, plan': Plan, a': Attempt, h: Handler)
    requires HandlerOk(c, inbox, s, h) && a'.rttId == c.submission.rttId && SameAttempt(s.attempts[a'.rttId], a')
    requires plan'.planId in s.plans && plan'.version == s.plans[plan'.planId].version + 1
    requires s' == s.(attempts := s.attempts[a'.rttId := a'], plans := s.plans[plan'.planId := plan'])
    requires forall other :: InPlace(other, s.attempts[a'.rttId].state) ==> InPlace(other, a'.state)
    ensures HandlerOk(c, inbox, s', h)
  {
    hide Kept, Possible, InPlace;
  }

  lemma KeptIsKeptResult(c: Config, inbox: Inbox, body: Payload)
    requires Kept(c, inbox, ResultCallback, body)
    ensures KeptResult(c, inbox) == Some(body)
  {
    hide EventId;
  }

  /** A committed outcome keeps everything but the attempt and its plan. */
  lemma NearAfter(s0: Store, s: Store, r: string, plan': Plan, a': Attempt)
    requires Near(s0, s, r) && a'.rttId == r && SameAttempt(s.attempts[r], a')
    requires plan'.planId == PlanIdOf(s0, r) && SamePlan(s.plans[plan'.planId], plan')
    ensures Near(s0, s.(attempts := s.attempts[r := a'], plans := s.plans[plan'.planId := plan']), r)
  {
    var s' := s.(attempts := s.attempts[r := a'], plans := s.plans[plan'.planId := plan']);
    assert s'.attempts == s0.attempts[r := s'.attempts[r]];
    assert s'.plans == s0.plans[plan'.planId := s'.plans[plan'.planId]];
  }

  lemma NearFacts(c: Config, s0: Store, w: World)
    requires StoreOk(c, s0, w)
    ensures var r := c.submission.rttId;
            && r in w.store.attempts && w.store.attempts[r].rttId == r && Generated(r)
            && w.store.attempts[r].planId == PlanIdOf(s0, r) && PlanIdOf(s0, r) in w.store.plans
            && w.store.plans[PlanIdOf(s0, r)].planId == PlanIdOf(s0, r)
  {
    hide PhaseOk, InboxOk;
  }

  lemma CommitKeepsInv(c: Config, s0: Store, w: World, k: int, at: int)
    requires Inv(c, s0, w)
    ensures Inv(c, s0, DoCommit(c, w, k, at))
  {
    hide HandlerOk, PhaseOk, Near, InboxOk, Committed, Outcome, KeptResult, InFlight, Possible, Kept, InboxGrows;
    var h := HandlerOf(w, k);
    NothingGrows(c, w.inbox);
    NearFacts(c, s0, w);
    if !h.SawPlan? || Committed(w.store, h.op, h.attempt, c.submission.rttId, h.plan, at).None? {
      FreeOk(c, w.inbox, w.store);
      QuietStep(c, s0, w, DoCommit(c, w, k, at), k);
    } else {
      HeldFacts(c, w.inbox, w.store, h);
      CommitShape(c, w.store, h.kind, h.payload, h.op, h.attempt, c.submission.rttId, h.plan, at);
      OutcomeByKind(c, h.kind, h.payload, h.op, h.attempt, c.submission.rttId, h.plan, at);
      var (plan', a') := Outcome(h.op, h.plan, h.attempt, c.submission.rttId, at).value;
      WriteKeepsInv(c, s0, w, DoCommit(c, w, k, at), k, h.kind, h.payload, h.plan, plan', a');
    }
  }

  lemma FreeOk(c: Config, inbox: Inbox, s: Store)
    requires c.submission.rttId in s.attempts
    ensures HandlerOk(c, inbox, s, Free)
  {
  }

  lemma HeldFacts(c: Config, inbox: Inbox, s: Store, h: Handler)
    requires HandlerOk(c, inbox, s, h) && h.SawPlan?
    ensures Kept(c, inbox, h.kind, h.payload) && Possible(c, h.kind, h.payload, h.op)
    ensures c.submission.rttId in s.attempts && SameAttempt(s.attempts[c.submission.rttId], h.attempt)
    ensures h.plan.planId == h.attempt.planId && Snapshot(s, h.plan)
  {
  }

  lemma WriteKeepsInv(c: Config, s0: Store, w: World, w': World, k: int, kind: Kind, body: Payload, plan: Plan,
                      plan': Plan, a': Attempt)
    requires Inv(c, s0, w) && Kept(c, w.inbox, kind, body)
    requires var r := c.submission.rttId;
             && r in w.store.attempts && a'.rttId == r && SameAttempt(w.store.attempts[r], a')
             && w.store.attempts[r].rttId == r
             && plan'.planId == plan.planId == PlanIdOf(s0, r) && plan.planId in w.store.plans
             && plan == w.store.plans[plan'.planId] && plan.current == Some(r)
             && SamePlan(plan, plan') && plan'.version == plan.version + 1 && Noted(kind, body, a', plan')
             && (kind.TimeoutCallback? ==>
                   a'.state == Unresolved && plan'.status == AwaitingEvidence && plan'.current == Some(r))
             && (kind.ResultCallback? ==>
                   a'.state == VerdictState(body) && plan'.status == VerdictStatus(c, plan, body)
                   && plan'.current == None)
             && w' == Put(w, k, Finishing(kind, body)).(
                  store := w.store.(attempts := w.store.attempts[r := a'],
                                    plans := w.store.plans[plan.planId := plan']),
                  log := w.log + [kind])
    ensures Inv(c, s0, w')
  {
    hide HandlerOk, PhaseOk, KeptResult, Kept, VerdictStatus, InPlace;
    var r := c.submission.rttId;
    NearAfter(s0, w.store, r, plan', a');
    if kind.ResultCallback? { KeptIsKeptResult(c, w.inbox, body); }
    PhaseAfterCommit(c, s0.plans[plan.planId], KeptResult(c, w.inbox), w.store.attempts[r], plan, w.log, kind, body,
                     a', plan');
    FinishingOk(c, w.inbox, w'.store, kind, body);
    forall j | j in w'.handlers ensures HandlerOk(c, w'.inbox, w'.store, w'.handlers[j]) {
      if j != k { WriteKeepsHandler(c, w.inbox, w.store, w'.store, plan', a', w.handlers[j]); }
    }
  }

  lemma FinishingOk(c: Config, inbox: Inbox, s: Store, kind: Kind, body: Payload)
    requires c.submission.rttId in s.attempts && Kept(c, inbox, kind, body)
    requires InPlace(kind, s.attempts[c.submission.rttId].state)
    ensures HandlerOk(c, inbox, s, Finishing(kind, body)) && HandlerOk(c, inbox, s, Settled(kind, body))
  {
  }

  // -------------------------------------------------------------- every step

  lemma ReceiveKeepsInv(c: Config, s0: Store, w: World, a: Action)
    requires Inv(c, s0, w) && (a.Receive? || a.ReceiveForged?)
    ensures Inv(c, s0, Do(c, w, a))
  {
    hide HandlerOk, PhaseOk, Near, InboxOk, KeptResult, InFlight, InboxGrows, Ingest, EventId, RejectedId;
    NearFacts(c, s0, w);
    NothingGrows(c, w.inbox);
    FreeOk(c, w.inbox, w.store);
    var w' := Do(c, w, a);
    if a.ReceiveForged? {
      if Ingest(w.inbox, RejectedId(a.shortHash), OfBytes(a.raw), false, a.at).Ok? {
        forall kind, conversation ensures EventId(kind, conversation) != RejectedId(a.shortHash) {
          EventIdsDiffer(conversation, conversation, a.shortHash);
          assert kind == ResultCallback || kind == TimeoutCallback;
        }
        IngestGrows(c, w.inbox, RejectedId(a.shortHash), OfBytes(a.raw), false, a.at);
      }
      ForgedHandlers(c, s0, w, w');
    } else {
      var id := EventId(a.kind, a.payload.conversationId);
      if Refusal(c, a.kind, a.payload).None? && Ingest(w.inbox, id, OfPayload(a.payload), true, a.at).Ok? {
        IngestGrows(c, w.inbox, id, OfPayload(a.payload), true, a.at);
        TookOk(c, w'.inbox, w.store, a.kind, a.payload);
        FreeOk(c, w'.inbox, w.store);
      }
      QuietStep(c, s0, w, w', a.worker);
    }
  }

  lemma ForgedHandlers(c: Config, s0: Store, w: World, w': World)
    requires Inv(c, s0, w) && w' == w.(inbox := w'.inbox)
    requires InboxGrows(c, w.inbox, w'.inbox) && InboxOk(c, w'.inbox, w.store.attempts[c.submission.rttId].state)
    ensures Inv(c, s0, w')
  {
    hide HandlerOk, InboxGrows, InboxOk, StoreOk;
    if k :| k in w.handlers {
      GrowthKeepsHandler(c, w.inbox, w'.inbox, w.store, w.handlers[k]);
      QuietStep(c, s0, w, w', k);
    } else {
      NoHandlers(c, s0, w, w');
    }
  }

  lemma NoHandlers(c: Config, s0: Store, w: World, w': World)
    requires Inv(c, s0, w) && w' == w.(inbox := w'.inbox) && forall k :: k !in w.handlers
    requires InboxGrows(c, w.inbox, w'.inbox) && InboxOk(c, w'.inbox, w.store.attempts[c.submission.rttId].state)
    ensures Inv(c, s0, w')
  {
    hide InboxOk, KeptResult, Near, InFlight, VerdictStatus;
    GrowthKeepsResult(c, w.inbox, w'.inbox);
  }

  lemma TookOk(c: Config, inbox: Inbox, s: Store, kind: Kind, body: Payload)
    requires c.submission.rttId in s.attempts && c.submission.externalRef == Some(body.conversationId)
    requires EventId(kind, body.conversationId) in inbox
    requires inbox[EventId(kind, body.conversationId)].digest == OfPayload(body)
    ensures HandlerOk(c, inbox, s, Took(kind, body))
  {
  }

  /** Looking and reading change only what the handler holds. */
  lemma LookKeepsInv(c: Config, s0: Store, w: World, a: Action)
    requires Inv(c, s0, w) && (a.Look? || a.ReadAttempt? || a.ReadPlan? || a.Settle? || a.Crash?)
    ensures Inv(c, s0, Do(c, w, a))
  {
    hide PhaseOk, Near, InboxOk, KeptResult, InFlight, InboxGrows, HandlerOk;
    NearFacts(c, s0, w);
    NothingGrows(c, w.inbox);
    assert Moved(c, w, Do(c, w, a), a.worker) by {
      if a.Look? {
        HandlerAfterLook(c, w, a.worker);
      } else if a.ReadAttempt? || a.ReadPlan? {
        HandlerAfterRead(c, w, a.worker);
      } else {
        HandlerAfterSettle(c, w, a.worker, a.Settle? && a.accepted);
      }
    }
    QuietStep(c, s0, w, Do(c, w, a), a.worker);
  }

  /** One handler moved, and what it holds now is sound. */
  ghost predicate Moved(c: Config, w: World, w': World, k: int) {
    && (k in w'.handlers ==> HandlerOk(c, w.inbox, w.store, w'.handlers[k]))
    && (forall j :: j in w'.handlers && j != k ==> j in w.handlers && w'.handlers[j] == w.handlers[j])
  }

  lemma HandlerAfterLook(c: Config, w: World, k: int)
    requires HandlersOk(c, w) && c.submission.rttId in w.store.attempts
    ensures Moved(c, w, DoLook(c, w, k), k)
  {
    hide Kept, Snapshot, SameAttempt;
    assert k in w.handlers ==> HandlerOk(c, w.inbox, w.store, w.handlers[k]);
  }

  lemma HandlerAfterRead(c: Config, w: World, k: int)
    requires HandlersOk(c, w) && c.submission.rttId in w.store.attempts && Generated(c.submission.rttId)
    requires forall id :: id in w.store.plans && id == w.store.attempts[c.submission.rttId].planId ==>
               w.store.plans[id].planId == id
    ensures Moved(c, w, DoReadAttempt(c, w, k), k) && Moved(c, w, DoReadPlan(w, k), k)
  {
    hide Kept, Possible, InPlace, Choose;
    assert k in w.handlers ==> HandlerOk(c, w.inbox, w.store, w.handlers[k]);
  }

  lemma HandlerAfterSettle(c: Config, w: World, k: int, accepted: bool)
    requires HandlersOk(c, w) && c.submission.rttId in w.store.attempts
    ensures Moved(c, w, DoSettle(w, k, accepted), k) && Moved(c, w, Put(w, k, Free), k)
  {
    hide Kept, Possible, InPlace, Choose;
    assert k in w.handlers ==> HandlerOk(c, w.inbox, w.store, w.handlers[k]);
  }

  lemma FinishKeepsInv(c: Config, s0: Store, w: World, k: int, at: int)
    requires Inv(c, s0, w)
    ensures Inv(c, s0, DoFinish(w, k, at))
  {
    hide HandlerOk, PhaseOk, Near, InboxOk, KeptResult, InFlight, InboxGrows, MarkApplied, Kept, InPlace;
    NearFacts(c, s0, w);
    NothingGrows(c, w.inbox);
    FreeOk(c, w.inbox, w.store);
    var h := HandlerOf(w, k);
    var w' := DoFinish(w, k, at);
    if h.Settled? && MarkApplied(w.inbox, EventId(h.kind, h.payload.conversationId), at).Ok? {
      SettledFacts(c, w.inbox, w.store, h);
      MarkGrows(c, w.inbox, h.kind, h.payload, at, w.store.attempts[c.submission.rttId].state);
      FreeOk(c, w'.inbox, w.store);
    }
    QuietStep(c, s0, w, w', k);
  }

  lemma SettledFacts(c: Config, inbox: Inbox, s: Store, h: Handler)
    requires HandlerOk(c, inbox, s, h) && h.Settled?
    ensures c.submission.rttId in s.attempts && Kept(c, inbox, h.kind, h.payload)
    ensures InPlace(h.kind, s.attempts[c.submission.rttId].state)
  {
  }

  lemma StepKeepsInv(c: Config, s0: Store, w: World, a: Action)
    requires Inv(c, s0, w)
    ensures Inv(c, s0, Do(c, w, a))
  {
    hide Inv, DoReceive, DoForged, DoLook, DoReadAttempt, DoReadPlan, DoCommit, DoSettle, DoFinish;
    match a
    case Receive(_, _, _, _) => ReceiveKeepsInv(c, s0, w, a);
    case ReceiveForged(_, _, _) => ReceiveKeepsInv(c, s0, w, a);
    case Commit(k, at) => CommitKeepsInv(c, s0, w, k, at);
    case Finish(k, at) => FinishKeepsInv(c, s0, w, k, at);
    case _ => LookKeepsInv(c, s0, w, a);
  }

  lemma {:induction false} RunKeepsInv(c: Config, s0: Store, w: World, actions: seq<Action>)
    requires Inv(c, s0, w)
    ensures Inv(c, s0, Exec(c, w, actions))
    decreases |actions|
  {
    hide Inv, Do;
    if actions != [] {
      StepKeepsInv(c, s0, w, actions[0]);
      RunKeepsInv(c, s0, Do(c, w, actions[0]), actions[1..]);
    }
  }

  lemma BeginInv(c: Config, s0: Store)
    requires InFlight(s0, c.submission.rttId)
    ensures Inv(c, s0, Begin(s0))
  {
    var r := c.submission.rttId;
    assert s0.attempts == s0.attempts[r := s0.attempts[r]];
    assert s0.plans == s0.plans[PlanIdOf(s0, r) := s0.plans[PlanIdOf(s0, r)]];
  }
}
