/** Callbacks together with everything they meet: any number of RTTs, planners and
    attempt workers that start, report and resolve, other confirmers and SMS relays,
    and callback handlers that record, settle and mark, all interleaving and crashing. */
module CallbackSettlement {
  import opened Prelude
  import opened Callbacks
  import Encoding
  import E = Execution
  import O = Operations
  import X = ExecutionRuns
  import T = ExecutionTheorems
  import M = Notifications
  import N = NotificationRuns
  import NT = NotificationTheorems

  /** Which submission answers to a conversation, which codes allow another route, and
      whether a settlement service is configured. */
  datatype Desk = Desk(find: string -> Option<O.Submission>, retryable: set<int>, settles: bool)

  datatype Handler =
    | Free
    | Took(kind: Kind, payload: Payload, sub: O.Submission)
    | Recording(kind: Kind, payload: Payload, sub: O.Submission, op: E.Operation)
    | Reading(kind: Kind, payload: Payload, sub: O.Submission, op: E.Operation)
    | Finishing(kind: Kind, payload: Payload, sub: O.Submission)
    | Confirming(kind: Kind, payload: Payload, sub: O.Submission, request: M.Request)
    | Settled(kind: Kind, payload: Payload, sub: O.Submission)

  datatype World = World(base: N.World, inbox: Inbox, handlers: map<int, Handler>)

  const START := World(N.START, map[], map[])

  /** Handlers use the execution and settlement services as workers of their own. */
  function Own(k: nat): int { -1 - k }

  datatype Action =
    | Other(step: N.Action)
    | Receive(k: nat, kind: Kind, payload: Payload, at: int)
    | ReceiveForged(raw: seq<Encoding.byte>, shortHash: string, at: int)
    | Look(k: nat)
    | RecordRead(k: nat)
    | RecordPlan(k: nat)
    | RecordCommit(k: nat, at: int)
    | ConfirmPlan(k: nat, sheet: M.Request)
    | ConfirmAttempt(k: nat)
    | ConfirmCommit(k: nat)
    | Finish(k: nat, at: int)
    | Crash(k: nat)

  const PROVIDER := "MPESA-KE"

  function ConfigFor(d: Desk, sub: O.Submission): Config { Config(sub, d.retryable) }

  /** The settlement a success callback asks for; the sheet holds what comes from the UTT and the clock. */
  function RequestFor(sub: O.Submission, p: Payload, sheet: M.Request): M.Request {
    sheet.(uttId := sub.uttId, providerId := PROVIDER,
           transactionId := if p.transactionId.Some? then p.transactionId.value else "",
           callbackId := EventId(ResultCallback, p.conversationId))
  }

  /** The worker of the execution or settlement service a step belongs to. */
  function WorkerOf(a: N.Action): Option<int> {
    match a
    case Execute(step) => if step.Build? then None else Some(step.worker)
    case ReadPlan(k, _) => Some(k)
    case ReadAttempt(k) => Some(k)
    case CommitEvidence(k) => Some(k)
    case ConfirmerCrash(k) => Some(k)
    case _ => None
  }

  predicate Foreign(a: N.Action) { WorkerOf(a).Some? ==> WorkerOf(a).value >= 0 }

  function HandlerOf(w: World, k: int): Handler { if k in w.handlers then w.handlers[k] else Free }

  function Put(w: World, k: int, h: Handler): World { w.(handlers := w.handlers[k := h]) }

  /** One step of the services, and where it leaves the handler that took it. */
  function Step(w: World, a: N.Action, k: int, h: Handler): World { Put(w, k, h).(base := N.Do(w.base, a)) }

  function DoReceive(d: Desk, w: World, k: int, kind: Kind, p: Payload, at: int): World {
    match d.find(p.conversationId)
    case None => Put(w, k, Free)
    case Some(sub) =>
      if Refusal(ConfigFor(d, sub), kind, p).Some? then Put(w, k, Free)
      else
        match Ingest(w.inbox, EventId(kind, p.conversationId), OfPayload(p), true, at)
        case Err(_) => Put(w, k, Free)
        case Ok((inbox, record, _)) =>
          Put(w, k, if record.state == Applied then Free else Took(kind, p, sub)).(inbox := inbox)
  }

  function DoForged(w: World, raw: seq<Encoding.byte>, shortHash: string, at: int): World {
    match Ingest(w.inbox, RejectedId(shortHash), OfBytes(raw), false, at)
    case Err(_) => w
    case Ok((inbox, _, _)) => w.(inbox := inbox)
  }

  function DoLook(d: Desk, w: World, k: int): World {
    match HandlerOf(w, k)
    case Took(kind, p, sub) =>
      if sub.rttId !in w.base.exec.store.attempts then Put(w, k, Free)
      else
        (match Choose(ConfigFor(d, sub), kind, p, w.base.exec.store.attempts[sub.rttId].state)
         case Conflict => Put(w, k, Free)
         case Nothing => Put(w, k, Finishing(kind, p, sub))
         case Perform(op) => Put(w, k, Recording(kind, p, sub, op)))
    case _ => w
  }

  function DoRecordRead(w: World, k: nat): World {
    match HandlerOf(w, k)
    case Recording(kind, p, sub, op) =>
      Step(w, N.Execute(X.ReadAttempt(Own(k), sub.rttId, op)), k, Reading(kind, p, sub, op))
    case _ => w
  }

  function DoRecordPlan(w: World, k: nat): World {
    match HandlerOf(w, k)
    case Reading(kind, p, sub, op) => Step(w, N.Execute(X.ReadPlan(Own(k))), k, Reading(kind, p, sub, op))
    case _ => w
  }

  /** A commit that does not go through raises and frees the handler. */
  function DoRecordCommit(w: World, k: nat, at: int): World {
    match HandlerOf(w, k)
    case Reading(kind, p, sub, op) =>
      var a := X.CommitOutcome(Own(k), at);
      Step(w, N.Execute(a), k, if X.Do(w.base.exec, a).log != w.base.exec.log then Finishing(kind, p, sub) else Free)
    case _ => w
  }

  function DoConfirmPlan(d: Desk, w: World, k: nat, sheet: M.Request): World {
    match HandlerOf(w, k)
    case Finishing(kind, p, sub) =>
      if !IsSuccess(kind, p) || !d.settles then w
      else Step(w, N.ReadPlan(Own(k), RequestFor(sub, p, sheet)), k,
                Confirming(kind, p, sub, RequestFor(sub, p, sheet)))
    case _ => w
  }

  function DoConfirmAttempt(w: World, k: nat): World {
    match HandlerOf(w, k)
    case Confirming(kind, p, sub, q) => Step(w, N.ReadAttempt(Own(k)), k, Confirming(kind, p, sub, q))
    case _ => w
  }

  function DoConfirmCommit(w: World, k: nat): World {
    match HandlerOf(w, k)
    case Confirming(kind, p, sub, q) =>
      var c := N.ConfirmerOf(w.base, Own(k));
      Step(w, N.CommitEvidence(Own(k)), k,
           if c.SawBoth? && M.CommitRequest(w.base.store, c.request, c.attempt.rttId).Ok? then Settled(kind, p, sub)
           else Free)
    case _ => w
  }

  function DoFinish(d: Desk, w: World, k: nat, at: int): World {
    match HandlerOf(w, k)
    case Settled(kind, p, _) => Marked(w, k, kind, p, at)
    case Finishing(kind, p, _) => if IsSuccess(kind, p) && d.settles then w else Marked(w, k, kind, p, at)
    case _ => w
  }

  function Marked(w: World, k: nat, kind: Kind, p: Payload, at: int): World {
    match MarkApplied(w.inbox, EventId(kind, p.conversationId), at)
    case Err(_) => Put(w, k, Free)
    case Ok(inbox) => Put(w, k, Free).(inbox := inbox)
  }

  function Do(d: Desk, w: World, a: Action): World {
    match a
    case Other(step) => if Foreign(step) then w.(base := N.Do(w.base, step)) else w
    case Receive(k, kind, p, at) => DoReceive(d, w, k, kind, p, at)
    case ReceiveForged(raw, shortHash, at) => DoForged(w, raw, shortHash, at)
    case Look(k) => DoLook(d, w, k)
    case RecordRead(k) => DoRecordRead(w, k)
    case RecordPlan(k) => DoRecordPlan(w, k)
    case RecordCommit(k, at) => DoRecordCommit(w, k, at)
    case ConfirmPlan(k, sheet) => DoConfirmPlan(d, w, k, sheet)
    case ConfirmAttempt(k) => DoConfirmAttempt(w, k)
    case ConfirmCommit(k) => DoConfirmCommit(w, k)
    case Finish(k, at) => DoFinish(d, w, k, at)
    case Crash(k) => Put(w, k, Free)
  }

  function Exec(d: Desk, w: World, actions: seq<Action>): World
    decreases |actions|
  {
    if actions == [] then w else Exec(d, Do(d, w, actions[0]), actions[1..])
  }

  // ------------------------------------------------------------- what is held

  ghost predicate Succeeded(x: E.Store, rttId: string) { rttId in x.attempts && x.attempts[rttId].state == E.Succeeded }

  /** Evidence for the submission's transaction that this very callback brought. */
  ghost predicate Evidenced(s: M.Store, sub: O.Submission, p: Payload) {
    && sub.uttId in s.evidence
    && var id := s.evidence[sub.uttId].id;
       id.providerId == PROVIDER && id.callbackId == Strip(EventId(ResultCallback, p.conversationId))
       && p.transactionId.Some? && id.transactionId == Strip(p.transactionId.value)
  }

  ghost predicate Held(d: Desk, inbox: Inbox, kind: Kind, p: Payload, sub: O.Submission) {
    && EventId(kind, p.conversationId) in inbox && inbox[EventId(kind, p.conversationId)].digest == OfPayload(p)
    && d.find(p.conversationId) == Some(sub) && (IsSuccess(kind, p) ==> p.transactionId.Some?)
  }

  ghost predicate Possible(d: Desk, kind: Kind, p: Payload, sub: O.Submission, op: E.Operation) {
    || op == Choose(ConfigFor(d, sub), kind, p, E.Created).op
    || (kind.ResultCallback? && op == Choose(ConfigFor(d, sub), kind, p, E.Unresolved).op)
  }

  /** What the handler's own execution worker may hold while it records. */
  ghost predicate RecordsFor(l: X.Local, sub: O.Submission, op: E.Operation) {
    (l.SawAttempt? || l.SawBoth?) ==> l.op == op && l.given == sub.rttId
  }

  ghost predicate ConfirmsFor(c: N.Confirmer, q: M.Request) { !c.Away? ==> c.request == q }

  ghost predicate AsksFor(q: M.Request, sub: O.Submission, p: Payload) {
    exists sheet :: q == RequestFor(sub, p, sheet)
  }

  ghost predicate HandlerOk(d: Desk, inbox: Inbox, b: N.World, k: int, h: Handler) {
    h.Free? ||
    (k >= 0 && Held(d, inbox, h.kind, h.payload, h.sub) &&
     match h
     case Took(kind, p, sub) => true
     case Recording(kind, p, sub, op) => Possible(d, kind, p, sub, op) && sub.rttId in b.exec.store.attempts
     case Reading(kind, p, sub, op) =>
       Possible(d, kind, p, sub, op) && sub.rttId in b.exec.store.attempts
       && RecordsFor(X.LocalOf(b.exec, Own(k)), sub, op)
     case Finishing(kind, p, sub) => IsSuccess(kind, p) ==> Succeeded(b.exec.store, sub.rttId)
     case Confirming(kind, p, sub, q) =>
       IsSuccess(kind, p) && Succeeded(b.exec.store, sub.rttId) && AsksFor(q, sub, p)
       && ConfirmsFor(N.ConfirmerOf(b, Own(k)), q)
     case Settled(kind, p, sub) =>
       IsSuccess(kind, p) ==> Succeeded(b.exec.store, sub.rttId) && Evidenced(b.store, sub, p))
  }

  /** A success callback that is marked applied has been paid, and settled if there is a
      settlement service. */
  ghost predicate AppliedOk(d: Desk, inbox: Inbox, b: N.World) {
    forall conversation, p | && EventId(ResultCallback, conversation) in inbox
                             && inbox[EventId(ResultCallback, conversation)].digest == OfPayload(p) ::
      inbox[EventId(ResultCallback, conversation)].state == Applied && p.resultCode == 0 ==>
        d.find(p.conversationId).Some? && Succeeded(b.exec.store, d.find(p.conversationId).value.rttId)
        && (d.settles ==> Evidenced(b.store, d.find(p.conversationId).value, p))
  }

  ghost predicate HandlersOk(d: Desk, w: World) {
    forall k :: k in w.handlers ==> HandlerOk(d, w.inbox, w.base, k, w.handlers[k])
  }

  ghost predicate Inv(d: Desk, w: World) { N.Inv(w.base) && HandlersOk(d, w) && AppliedOk(d, w.inbox, w.base) }

  // --------------------------------------------------- a step of the services

  /** What no step of the services takes away. */
  ghost predicate Lasts(b: N.World, b': N.World) {
    && (forall r :: r in b.exec.store.attempts ==> r in b'.exec.store.attempts)
    && (forall r :: Succeeded(b.exec.store, r) ==> Succeeded(b'.exec.store, r))
    && (forall u :: u in b.store.evidence ==> u in b'.store.evidence && b'.store.evidence[u] == b.store.evidence[u])
  }

  lemma StepLasts(b: N.World, a: N.Action)
    requires N.Inv(b)
    ensures Lasts(b, N.Do(b, a)) && N.Inv(N.Do(b, a))
  {
    hide N.Inv, X.Inv, X.Do, N.Do, NT.SmsKept;
    NT.StepKeeps(b, a);
    N.StepKeepsInv(b, a);
    ExecOf(b, a);
    if a.Execute? {
      NT.ExecInv(b);
      T.StepFreezes(b.exec, a.step);
    }
  }

  lemma ExecOf(b: N.World, a: N.Action)
    ensures N.Do(b, a).exec == if a.Execute? then X.Do(b.exec, a.step) else b.exec
  {
    hide X.Do, M.PlanProblem, M.AttemptProblem, M.CommitRequest, M.TransitionNotification;
  }

  /** A step leaves what other workers hold alone. */
  lemma StepSpares(b: N.World, a: N.Action, id: int)
    requires WorkerOf(a) != Some(id)
    ensures X.LocalOf(N.Do(b, a).exec, id) == X.LocalOf(b.exec, id)
    ensures N.ConfirmerOf(N.Do(b, a), id) == N.ConfirmerOf(b, id)
  {
    hide X.DoBuild, M.PlanProblem, M.AttemptProblem, M.CommitRequest, M.TransitionNotification;
    if a.Execute? { ExecuteSpares(b.exec, a.step, id); }
  }

  lemma ExecuteSpares(x: X.World, a: X.Action, id: int)
    requires a.Build? || a.worker != id
    ensures X.LocalOf(X.Do(x, a), id) == X.LocalOf(x, id)
  {
    hide E.StartDecision, E.Outcome, E.BuildPlan, E.CommitStart, E.CommitTransition, E.FindAttempt;
  }

  lemma HandlerLasts(d: Desk, inbox: Inbox, b: N.World, b': N.World, k: int, h: Handler)
    requires HandlerOk(d, inbox, b, k, h) && Lasts(b, b')
    requires k >= 0 ==> X.LocalOf(b'.exec, Own(k)) == X.LocalOf(b.exec, Own(k))
    requires k >= 0 ==> N.ConfirmerOf(b', Own(k)) == N.ConfirmerOf(b, Own(k))
    ensures HandlerOk(d, inbox, b', k, h)
  {
    hide Held, Possible, RecordsFor, AsksFor, ConfirmsFor, Succeeded;
  }

  lemma AppliedLasts(d: Desk, inbox: Inbox, b: N.World, b': N.World)
    requires AppliedOk(d, inbox, b) && Lasts(b, b')
    ensures AppliedOk(d, inbox, b')
  {
    hide EventId, Succeeded;
  }

  /** A step of the services by nobody's handler, or by handler k. */
  lemma StepKeepsInvBut(d: Desk, w: World, w': World, a: N.Action, k: int)
    requires Inv(d, w) && w'.base == N.Do(w.base, a) && w'.inbox == w.inbox
    requires forall j :: j in w'.handlers && j != k ==> j in w.handlers && w'.handlers[j] == w.handlers[j]
    requires forall j: nat :: j != k ==> WorkerOf(a) != Some(Own(j))
    requires k in w'.handlers ==> HandlerOk(d, w'.inbox, w'.base, k, w'.handlers[k])
    ensures Inv(d, w')
  {
    hide HandlerOk, AppliedOk, N.Inv, Lasts, N.Do;
    StepLasts(w.base, a);
    AppliedLasts(d, w.inbox, w.base, w'.base);
    forall j | j in w'.handlers ensures HandlerOk(d, w'.inbox, w'.base, j, w'.handlers[j]) {
      if j != k {
        if j >= 0 { StepSpares(w.base, a, Own(j)); }
        HandlerLasts(d, w.inbox, w.base, w'.base, j, w.handlers[j]);
      }
    }
  }

  lemma OtherKeepsInv(d: Desk, w: World, step: N.Action)
    requires Inv(d, w) && Foreign(step)
    ensures Inv(d, w.(base := N.Do(w.base, step)))
  {
    hide HandlerOk, AppliedOk, N.Inv, N.Do;
    StepKeepsInvBut(d, w, w.(base := N.Do(w.base, step)), step, -1) by {
      if -1 in w.handlers { NobodysHandler(d, w.inbox, w.base, N.Do(w.base, step), w.handlers[-1]); }
    }
  }

  lemma NobodysHandler(d: Desk, inbox: Inbox, b: N.World, b': N.World, h: Handler)
    requires HandlerOk(d, inbox, b, -1, h)
    ensures HandlerOk(d, inbox, b', -1, h)
  {
  }

  // ---------------------------------------------------------------- the inbox

  ghost predicate InboxGrows(inbox: Inbox, inbox': Inbox) {
    forall id :: id in inbox ==> id in inbox' && inbox'[id].digest == inbox[id].digest
  }

  lemma HandlerGrows(d: Desk, inbox: Inbox, inbox': Inbox, b: N.World, k: int, h: Handler)
    requires HandlerOk(d, inbox, b, k, h) && InboxGrows(inbox, inbox')
    ensures HandlerOk(d, inbox', b, k, h)
  {
    hide Possible, RecordsFor, AsksFor, ConfirmsFor, Succeeded, Evidenced, EventId;
  }

  lemma QuietKeepsInv(d: Desk, w: World, w': World, k: int)
    requires Inv(d, w) && w'.base == w.base && InboxGrows(w.inbox, w'.inbox) && AppliedOk(d, w'.inbox, w.base)
    requires forall j :: j in w'.handlers && j != k ==> j in w.handlers && w'.handlers[j] == w.handlers[j]
    requires k in w'.handlers ==> HandlerOk(d, w'.inbox, w.base, k, w'.handlers[k])
    ensures Inv(d, w')
  {
    hide HandlerOk, AppliedOk, N.Inv, InboxGrows;
    forall j | j in w'.handlers ensures HandlerOk(d, w'.inbox, w'.base, j, w'.handlers[j]) {
      if j != k { HandlerGrows(d, w.inbox, w'.inbox, w.base, j, w.handlers[j]); }
    }
  }

  lemma IngestGrows(d: Desk, inbox: Inbox, b: N.World, id: string, digest: Digest, valid: bool, at: int)
    requires AppliedOk(d, inbox, b) && Ingest(inbox, id, digest, valid, at).Ok?
    ensures var (inbox', record, _) := Ingest(inbox, id, digest, valid, at).value;
            InboxGrows(inbox, inbox') && AppliedOk(d, inbox', b) && id in inbox' && inbox'[id].digest == digest
  {
    hide EventId, Succeeded, Evidenced;
  }

  lemma ReceiveKeepsInv(d: Desk, w: World, a: Action)
    requires Inv(d, w) && (a.Receive? || a.ReceiveForged?)
    ensures Inv(d, Do(d, w, a))
  {
    hide HandlersOk, AppliedOk, N.Inv, InboxGrows, Ingest, EventId, RejectedId, Refusal;
    var w' := Do(d, w, a);
    SelfGrows(w.inbox);
    if a.ReceiveForged? {
      if Ingest(w.inbox, RejectedId(a.shortHash), OfBytes(a.raw), false, a.at).Ok? {
        IngestGrows(d, w.inbox, w.base, RejectedId(a.shortHash), OfBytes(a.raw), false, a.at);
      }
      ForgedKeepsInv(d, w, w');
    } else {
      var p, id := a.payload, EventId(a.kind, a.payload.conversationId);
      var found := d.find(p.conversationId);
      if found.Some? && Refusal(ConfigFor(d, found.value), a.kind, p).None?
         && Ingest(w.inbox, id, OfPayload(p), true, a.at).Ok? {
        IngestGrows(d, w.inbox, w.base, id, OfPayload(p), true, a.at);
        TookOk(d, w'.inbox, w.base, a.k, a.kind, p, found.value);
      }
      ReceivedKeepsInv(d, w, w', a.k);
    }
  }

  lemma ReceivedKeepsInv(d: Desk, w: World, w': World, k: int)
    requires Inv(d, w) && w'.base == w.base && InboxGrows(w.inbox, w'.inbox) && AppliedOk(d, w'.inbox, w.base)
    requires k in w'.handlers && w'.handlers == w.handlers[k := w'.handlers[k]]
    requires w'.handlers[k].Free? || HandlerOk(d, w'.inbox, w.base, k, w'.handlers[k])
    ensures Inv(d, w')
  {
    hide AppliedOk, N.Inv, InboxGrows, HandlersOk;
    QuietKeepsInv(d, w, w', k);
  }

  lemma SelfGrows(inbox: Inbox)
    ensures InboxGrows(inbox, inbox)
  {
  }

  lemma ForgedKeepsInv(d: Desk, w: World, w': World)
    requires Inv(d, w) && w' == w.(inbox := w'.inbox) && InboxGrows(w.inbox, w'.inbox) && AppliedOk(d, w'.inbox, w.base)
    ensures Inv(d, w')
  {
    hide AppliedOk, N.Inv, InboxGrows, HandlerOk;
    forall j | j in w'.handlers ensures HandlerOk(d, w'.inbox, w'.base, j, w'.handlers[j]) {
      HandlerGrows(d, w.inbox, w'.inbox, w.base, j, w.handlers[j]);
    }
  }

  /** A success that was not refused carries its transaction identifier. */
  lemma TookOk(d: Desk, inbox: Inbox, b: N.World, k: nat, kind: Kind, p: Payload, sub: O.Submission)
    requires d.find(p.conversationId) == Some(sub) && Refusal(ConfigFor(d, sub), kind, p).None?
    requires EventId(kind, p.conversationId) in inbox && inbox[EventId(kind, p.conversationId)].digest == OfPayload(p)
    ensures HandlerOk(d, inbox, b, k, Took(kind, p, sub))
  {
    hide EventId, Lookup;
  }

  lemma MarkKeepsInv(d: Desk, w: World, k: nat, at: int)
    requires Inv(d, w)
    ensures Inv(d, DoFinish(d, w, k, at))
  {
    hide HandlersOk, AppliedOk, N.Inv, InboxGrows, MarkApplied, EventId;
    var h, w' := HandlerOf(w, k), DoFinish(d, w, k, at);
    assert HandlerOk(d, w.inbox, w.base, k, h) by { HandlerHeld(d, w, k); }
    SelfGrows(w.inbox);
    if h.Settled? || (h.Finishing? && !(IsSuccess(h.kind, h.payload) && d.settles)) {
      if MarkApplied(w.inbox, EventId(h.kind, h.payload.conversationId), at).Ok? {
        MarkGrows(d, w.inbox, w.base, k, h, at);
      }
      ReceivedKeepsInv(d, w, w', k);
    }
  }

  lemma HandlerHeld(d: Desk, w: World, k: int)
    requires HandlersOk(d, w)
    ensures HandlerOk(d, w.inbox, w.base, k, HandlerOf(w, k))
  {
    hide Held, Possible, RecordsFor, AsksFor, ConfirmsFor, Succeeded, Evidenced;
  }

  lemma MarkGrows(d: Desk, inbox: Inbox, b: N.World, k: int, h: Handler, at: int)
    requires AppliedOk(d, inbox, b) && HandlerOk(d, inbox, b, k, h)
    requires h.Settled? || (h.Finishing? && !(IsSuccess(h.kind, h.payload) && d.settles))
    requires MarkApplied(inbox, EventId(h.kind, h.payload.conversationId), at).Ok?
    ensures var inbox' := MarkApplied(inbox, EventId(h.kind, h.payload.conversationId), at).value;
            InboxGrows(inbox, inbox') && AppliedOk(d, inbox', b)
  {
    hide EventId, Succeeded, Evidenced, Possible, RecordsFor, AsksFor, ConfirmsFor;
    var id := EventId(h.kind, h.payload.conversationId);
    forall conversation ensures h.kind.TimeoutCallback? ==> EventId(ResultCallback, conversation) != id {
      EventIdsDiffer(conversation, h.payload.conversationId, "");
    }
  }

  // ------------------------------------------------------------ the handlers

  lemma LookKeepsInv(d: Desk, w: World, k: nat)
    requires Inv(d, w)
    ensures Inv(d, DoLook(d, w, k))
  {
    hide HandlersOk, AppliedOk, N.Inv, InboxGrows, Held;
    var h, w' := HandlerOf(w, k), DoLook(d, w, k);
    assert HandlerOk(d, w.inbox, w.base, k, h) by { HandlerHeld(d, w, k); }
    SelfGrows(w.inbox);
    if h.Took? { ReceivedKeepsInv(d, w, w', k); }
  }

  /** Handler k took one step of the services. */
  lemma OwnStepKeepsInv(d: Desk, w: World, w': World, a: N.Action, k: nat)
    requires Inv(d, w) && w'.base == N.Do(w.base, a) && w'.inbox == w.inbox && WorkerOf(a) == Some(Own(k))
    requires k in w'.handlers && w'.handlers == w.handlers[k := w'.handlers[k]]
    requires HandlerOk(d, w.inbox, w'.base, k, w'.handlers[k])
    ensures Inv(d, w')
  {
    hide HandlerOk, AppliedOk, N.Inv, N.Do;
    StepKeepsInvBut(d, w, w', a, k);
  }

  lemma ReadsKeepInv(d: Desk, w: World, k: nat, a: Action)
    requires Inv(d, w) && ((a.RecordRead? && a.k == k) || (a.RecordPlan? && a.k == k))
    ensures Inv(d, Do(d, w, a))
  {
    hide HandlersOk, AppliedOk, N.Inv, Held, Possible, Lasts;
    var h, w' := HandlerOf(w, k), Do(d, w, a);
    assert HandlerOk(d, w.inbox, w.base, k, h) by { HandlerHeld(d, w, k); }
    if a.RecordRead? && h.Recording? {
      OwnStepKeepsInv(d, w, w', N.Execute(X.ReadAttempt(Own(k), h.sub.rttId, h.op)), k);
    } else if a.RecordPlan? && h.Reading? {
      OwnStepKeepsInv(d, w, w', N.Execute(X.ReadPlan(Own(k))), k);
    }
  }

  /** A recorded success is a success of this RTT. */
  lemma CommitSucceeds(d: Desk, b: N.World, k: nat, h: Handler, at: int)
    requires X.Inv(b.exec) && h.Reading? && IsSuccess(h.kind, h.payload) && Possible(d, h.kind, h.payload, h.sub, h.op)
    requires h.sub.rttId in b.exec.store.attempts && RecordsFor(X.LocalOf(b.exec, Own(k)), h.sub, h.op)
    requires X.Do(b.exec, X.CommitOutcome(Own(k), at)).log != b.exec.log
    ensures Succeeded(X.Do(b.exec, X.CommitOutcome(Own(k), at)).store, h.sub.rttId)
  {
    hide X.PlansOk, X.IndexOk, X.AttemptsOk, Strip;
    X.InvKeyed(b.exec);
    var l := X.LocalOf(b.exec, Own(k));
    assert X.LocalOk(b.exec.store, l);
    assert l.SawBoth? && l.attempt.rttId == h.sub.rttId;
    SuccessWrites(d, h, l.plan, l.attempt, at);
  }

  lemma SuccessWrites(d: Desk, h: Handler, p: E.Plan, a: E.Attempt, at: int)
    requires h.Reading? && IsSuccess(h.kind, h.payload) && Possible(d, h.kind, h.payload, h.sub, h.op)
    ensures var o := E.Outcome(h.op, p, a, h.sub.rttId, at);
            o.Ok? ==> o.value.1.rttId == a.rttId && o.value.1.state == E.Succeeded
  {
    hide FailureCode;
  }

  lemma CommitKeepsInv(d: Desk, w: World, k: nat, at: int)
    requires Inv(d, w)
    ensures Inv(d, DoRecordCommit(w, k, at))
  {
    hide HandlersOk, AppliedOk, N.Inv, X.Do, HandlerOk;
    var h, w' := HandlerOf(w, k), DoRecordCommit(w, k, at);
    HandlerHeld(d, w, k);
    if h.Reading? {
      NT.ExecInv(w.base);
      AfterCommit(d, w.inbox, w.base, w'.base, k, h, at);
      FreeOk(d, w.inbox, w'.base, k);
      OwnStepKeepsInv(d, w, w', N.Execute(X.CommitOutcome(Own(k), at)), k);
    }
  }

  lemma FreeOk(d: Desk, inbox: Inbox, b: N.World, k: int)
    ensures HandlerOk(d, inbox, b, k, Free)
  {
  }

  lemma AfterCommit(d: Desk, inbox: Inbox, b: N.World, b': N.World, k: nat, h: Handler, at: int)
    requires X.Inv(b.exec) && h.Reading? && HandlerOk(d, inbox, b, k, h)
    requires b'.exec == X.Do(b.exec, X.CommitOutcome(Own(k), at))
    ensures b'.exec.log != b.exec.log ==> HandlerOk(d, inbox, b', k, Finishing(h.kind, h.payload, h.sub))
  {
    hide X.Inv, X.Do, Held, Possible, Succeeded, RecordsFor;
    if b'.exec.log != b.exec.log && IsSuccess(h.kind, h.payload) { CommitSucceeds(d, b, k, h, at); }
  }

  lemma ConfirmReadsKeepInv(d: Desk, w: World, k: nat, a: Action)
    requires Inv(d, w) && ((a.ConfirmPlan? && a.k == k) || (a.ConfirmAttempt? && a.k == k))
    ensures Inv(d, Do(d, w, a))
  {
    hide HandlersOk, AppliedOk, N.Inv, Held, M.PlanProblem, M.AttemptProblem, RequestFor;
    var h, w' := HandlerOf(w, k), Do(d, w, a);
    assert HandlerOk(d, w.inbox, w.base, k, h) by { HandlerHeld(d, w, k); }
    if a.ConfirmPlan? && h.Finishing? && IsSuccess(h.kind, h.payload) && d.settles {
      var q := RequestFor(h.sub, h.payload, a.sheet);
      assert AsksFor(q, h.sub, h.payload);
      OwnStepKeepsInv(d, w, w', N.ReadPlan(Own(k), q), k);
    } else if a.ConfirmAttempt? && h.Confirming? {
      OwnStepKeepsInv(d, w, w', N.ReadAttempt(Own(k)), k);
    }
  }

  /** A settlement that is accepted is stored under the identity of its request. */
  lemma AcceptedIsStored(s: M.Store, q: M.Request, rttId: string)
    requires M.CommitRequest(s, q, rttId).Ok?
    ensures var s' := M.CommitRequest(s, q, rttId).value.0;
            q.uttId in s'.evidence && s'.evidence[q.uttId].id == M.IdentityOf(q)
  {
    hide Strip;
  }

  lemma ConfirmCommitKeepsInv(d: Desk, w: World, k: nat)
    requires Inv(d, w)
    ensures Inv(d, DoConfirmCommit(w, k))
  {
    hide HandlersOk, AppliedOk, N.Inv, Succeeded, M.CommitRequest, Strip, EventId;
    var h, w' := HandlerOf(w, k), DoConfirmCommit(w, k);
    assert HandlerOk(d, w.inbox, w.base, k, h) by { HandlerHeld(d, w, k); }
    if h.Confirming? {
      var c := N.ConfirmerOf(w.base, Own(k));
      if w'.handlers[k].Settled? {
        AcceptedIsStored(w.base.store, c.request, c.attempt.rttId);
      }
      OwnStepKeepsInv(d, w, w', N.CommitEvidence(Own(k)), k);
    }
  }

  lemma StepKeepsInv(d: Desk, w: World, a: Action)
    requires Inv(d, w)
    ensures Inv(d, Do(d, w, a))
  {
    hide Inv, N.Do, DoReceive, DoForged, DoLook, DoRecordRead, DoRecordPlan, DoRecordCommit, DoConfirmPlan,
         DoConfirmAttempt,
         DoConfirmCommit, DoFinish, Foreign;
    match a
    case Other(step) => if Foreign(step) { OtherKeepsInv(d, w, step); }
    case Receive(_, _, _, _) => ReceiveKeepsInv(d, w, a);
    case ReceiveForged(_, _, _) => ReceiveKeepsInv(d, w, a);
    case Look(k) => LookKeepsInv(d, w, k);
    case RecordRead(k) => ReadsKeepInv(d, w, k, a);
    case RecordPlan(k) => ReadsKeepInv(d, w, k, a);
    case RecordCommit(k, at) => CommitKeepsInv(d, w, k, at);
    case ConfirmPlan(k, _) => ConfirmReadsKeepInv(d, w, k, a);
    case ConfirmAttempt(k) => ConfirmReadsKeepInv(d, w, k, a);
    case ConfirmCommit(k) => ConfirmCommitKeepsInv(d, w, k);
    case Finish(k, at) => MarkKeepsInv(d, w, k, at);
    case Crash(k) => CrashKeepsInv(d, w, k);
  }

  lemma CrashKeepsInv(d: Desk, w: World, k: nat)
    requires Inv(d, w)
    ensures Inv(d, Put(w, k, Free))
  {
    hide AppliedOk, N.Inv, HandlersOk, InboxGrows;
    SelfGrows(w.inbox);
    ReceivedKeepsInv(d, w, Put(w, k, Free), k);
  }

  lemma {:induction false} RunKeepsInv(d: Desk, w: World, actions: seq<Action>)
    requires Inv(d, w)
    ensures Inv(d, Exec(d, w, actions))
    decreases |actions|
  {
    hide Inv, Do;
    if actions != [] {
      StepKeepsInv(d, w, actions[0]);
      RunKeepsInv(d, Do(d, w, actions[0]), actions[1..]);
    }
  }

  lemma StartInv(d: Desk)
    ensures Inv(d, START)
  {
    hide N.Inv;
    N.StartInv();
  }

  /** Evidence that this callback brought, for a finalized plan, naming its only winner,
      with exactly one message to each side; if the submission names the transaction of
      its RTT, that winner is its RTT. */
  ghost predicate SettledBy(b: N.World, sub: O.Submission, p: Payload) {
    && Evidenced(b.store, sub, p)
    && var e := b.store.evidence[sub.uttId];
    && NT.NamesTheWinner(b.exec.store, e)
    && NT.NotificationsOf(b.store, sub.uttId)
       == {M.NotificationId(e.id, M.Sender), M.NotificationId(e.id, M.Receiver)}
    && (sub.rttId in b.exec.store.attempts && b.exec.store.attempts[sub.rttId].uttId == sub.uttId ==>
          e.rttId == sub.rttId)
  }

  /** In every reachable state: a success RESULT that is marked applied belongs to an RTT
      that succeeded, and if a settlement service is configured its transaction is settled. */
  lemma {:induction false} AppliedSuccessIsSettled(d: Desk, actions: seq<Action>, p: Payload)
    requires var inbox := Exec(d, START, actions).inbox;
             var id := EventId(ResultCallback, p.conversationId);
             id in inbox && inbox[id].state == Applied && inbox[id].digest == OfPayload(p) && p.resultCode == 0
    ensures var b := Exec(d, START, actions).base;
            && d.find(p.conversationId).Some?
            && var sub := d.find(p.conversationId).value;
            Succeeded(b.exec.store, sub.rttId) && (d.settles ==> SettledBy(b, sub, p))
  {
    hide Exec, N.Inv, EventId, HandlersOk, Evidenced, Strip, NT.NamesTheWinner;
    StartInv(d);
    RunKeepsInv(d, START, actions);
    var b := Exec(d, START, actions).base;
    var sub := d.find(p.conversationId).value;
    if d.settles {
      EvidenceIsThere(b, sub, p);
      NT.StoredIsSettled(b, sub.uttId);
      if b.exec.store.attempts[sub.rttId].uttId == sub.uttId { WinnerIsIt(b, sub, b.store.evidence[sub.uttId]); }
    }
  }

  lemma EvidenceIsThere(b: N.World, sub: O.Submission, p: Payload)
    requires Evidenced(b.store, sub, p)
    ensures sub.uttId in b.store.evidence
  {
  }

  /** The winner of a transaction's plan is its only attempt that succeeded. */
  lemma WinnerIsIt(b: N.World, sub: O.Submission, e: M.Evidence)
    requires N.Inv(b) && Succeeded(b.exec.store, sub.rttId)
    requires b.exec.store.attempts[sub.rttId].uttId == sub.uttId == e.uttId
    requires NT.NamesTheWinner(b.exec.store, e)
    ensures e.rttId == sub.rttId
  {
    hide N.Inv, X.Inv, Strip;
    NT.ExecInv(b);
    T.AttemptOfItsPlan(b.exec, sub.rttId);
  }
}
