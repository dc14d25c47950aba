/** The read model of provider progress: signed events applied once each, the
    newest version winning. */
module Projection {
  import opened Prelude
  import opened Operations
  import R = OperationsRuns
  import OperationsTheorems

  datatype Progress = InPreparation | InDispatch | AcceptedForProcessing | ProgressRejected | ProgressUnknown

  datatype Outlook = Outlook(submissionId: string, uttId: string, rttId: string, providerId: string, state: Progress,
                             code: Option<string>, externalRef: Option<string>,
                             disposition: Option<RejectionDisposition>, version: nat, sourceEventId: string,
                             occurredAt: int, projectedAt: int)

  /** A delivered envelope: its claimed identifier, its content, the hash in its
      protected header and the verdict of its signature. */
  datatype Envelope = Envelope(eventId: string, core: EventCore, payloadSha: string, verified: bool)

  datatype ProjectionError = SignatureRejected | MissingEventId | ContentMismatch | EventConflict

  datatype ReadModel = ReadModel(hashes: map<string, string>, views: map<string, Outlook>)

  const EMPTY_PROJECTION := ReadModel(map[], map[])

  function ProgressFor(t: EventType): Progress {
    match t
    case SubmissionPrepared => InPreparation
    case DispatchStarted => InDispatch
    case SubmissionAccepted => AcceptedForProcessing
    case SubmissionRejected => ProgressRejected
    case SubmissionOutcomeUnknown => ProgressUnknown
  }

  function OutlookOf(e: Envelope, at: int): Outlook {
    Outlook(e.core.submissionId, e.core.uttId, e.core.rttId, e.core.providerId, ProgressFor(e.core.eventType),
            R.DataCode(e.core.data), R.DataRef(e.core.data), R.DataDisposition(e.core.data), e.core.version,
            e.eventId, e.core.occurredAt * SECOND, at)
  }

  /** Deduplicate by event identifier, then keep the highest version. */
  function Apply(s: ReadModel, eventId: string, sha: string,
                 view: Outlook): Result<(ReadModel, bool), ProjectionError>
  {
    if eventId in s.hashes then (if s.hashes[eventId] != sha then Err(EventConflict) else Ok((s, false)))
    else
      var hashes := s.hashes[eventId := sha];
      if view.submissionId !in s.views || view.version > s.views[view.submissionId].version
      then Ok((ReadModel(hashes, s.views[view.submissionId := view]), true))
      else Ok((s.(hashes := hashes), true))
  }

  function Project(c: R.Config, s: ReadModel, e: Envelope,
                   at: int): Result<(ReadModel, Outlook, bool), ProjectionError>
  {
    if !e.verified then Err(SignatureRejected)
    else if e.eventId == "" then Err(MissingEventId)
    else if e.eventId != c.eventId(e.core) then Err(ContentMismatch)
    else match Apply(s, e.eventId, e.payloadSha, OutlookOf(e, at))
      case Err(x) => Err(x)
      case Ok((s', applied)) => Ok((s', OutlookOf(e, at), applied))
  }

  class InMemoryProviderOutcomeProjectionStore {
    var eventHashes: map<string, string>
    var projections: map<string, Outlook>

    ghost function View(): ReadModel
      reads this
    {
      ReadModel(eventHashes, projections)
    }

    constructor ()
      ensures View() == EMPTY_PROJECTION
    {
      eventHashes, projections := map[], map[];
    }

    method ApplyEvent(eventId: string, sha: string, projection: Outlook) returns (r: Result<bool, ProjectionError>)
      modifies this
      ensures match Apply(old(View()), eventId, sha, projection)
              case Ok((s, applied)) => r == Ok(applied) && View() == s
              case Err(e) => r == Err(e) && View() == old(View())
      ensures forall id :: id in old(projections) ==>
                id in projections && old(projections)[id].version <= projections[id].version
    {
      if eventId in eventHashes {
        if eventHashes[eventId] != sha {
          return Err(EventConflict);
        }
        return Ok(false);
      }
      eventHashes := eventHashes[eventId := sha];
      if projection.submissionId !in projections || projection.version > projections[projection.submissionId].version {
        projections := projections[projection.submissionId := projection];
      }
      r := Ok(true);
    }
  }

  /** project, in every branch: an envelope that does not verify, has no identifier or not
      the one of its content is refused; so is another content under a consumed identifier;
      a repeat is recognised and changes nothing. Otherwise the event is consumed, and it
      becomes the view of its submission if there is none or an older one: its own fields,
      the progress its type stands for, and the instant of the projection. */
  lemma ProjectExactly(c: R.Config, s: ReadModel, e: Envelope, at: int)
    ensures var r := Project(c, s, e, at);
            var sid := e.core.submissionId;
            if !e.verified then r == Err(SignatureRejected)
            else if e.eventId == "" then r == Err(MissingEventId)
            else if e.eventId != c.eventId(e.core) then r == Err(ContentMismatch)
            else if e.eventId in s.hashes && s.hashes[e.eventId] != e.payloadSha then r == Err(EventConflict)
            else
              && r.Ok?
              && var (s', view, applied) := r.value;
              && (applied <==> e.eventId !in s.hashes) && (!applied ==> s' == s)
              && (applied ==> && s'.hashes == s.hashes[e.eventId := e.payloadSha]
                              && s'.views == if sid in s.views && e.core.version <= s.views[sid].version
                                             then s.views else s.views[sid := view])
              && view.submissionId == sid && view.uttId == e.core.uttId && view.rttId == e.core.rttId
              && view.providerId == e.core.providerId && view.version == e.core.version
              && view.sourceEventId == e.eventId && view.projectedAt == at
              && view.occurredAt == e.core.occurredAt * 1_000_000
              && (view.state == InPreparation <==> e.core.eventType == SubmissionPrepared)
              && (view.state == InDispatch <==> e.core.eventType == DispatchStarted)
              && (view.state == AcceptedForProcessing <==> e.core.eventType == SubmissionAccepted)
              && (view.state == ProgressRejected <==> e.core.eventType == SubmissionRejected)
              && (e.core.data.OutcomeData? ==>
                    && view.code == Some(e.core.data.code) && view.externalRef == e.core.data.externalRef
                    && view.disposition == e.core.data.disposition)
              && (!e.core.data.OutcomeData? ==>
                    view.code == None && view.externalRef == None && view.disposition == None)
  {
  }

  // ------------------------------------------------------------ deliveries

  /** The envelope of a stored event, as the relay publishes it, and the verdict on its signature. */
  function Signed(outbox: map<string, Row>, id: string, sha: EventCore -> string, verified: bool): Envelope
    requires id in outbox
  {
    Envelope(id, outbox[id].core, sha(outbox[id].core), verified)
  }

  /** One delivery: its signature may verify or not, since a key may be revoked in between
      and the signing second may lie before the key's first instant. */
  datatype Arrival = Arrival(eventId: string, at: int, verified: bool)

  /** Deliver stored events in the given order; a rejected delivery changes nothing. */
  function Deliver(c: R.Config, sha: EventCore -> string, outbox: map<string, Row>, s: ReadModel,
                   ds: seq<Arrival>): ReadModel
    requires forall i :: 0 <= i < |ds| ==> ds[i].eventId in outbox
  {
    if ds == [] then s
    else
      var before := Deliver(c, sha, outbox, s, ds[..|ds| - 1]);
      var last := ds[|ds| - 1];
      match Project(c, before, Signed(outbox, last.eventId, sha, last.verified), last.at)
      case Ok((s', _, _)) => s'
      case Err(_) => before
  }

  /** Some delivery of this event verified. */
  ghost predicate Verified(ds: seq<Arrival>, id: string) {
    exists i :: 0 <= i < |ds| && ds[i].verified && ds[i].eventId == id
  }

  /** Every consumed identifier is a stored event, and every view is the outlook
      of a stored event that was consumed. */
  ghost predicate FromOutbox(sha: EventCore -> string, outbox: map<string, Row>, s: ReadModel) {
    && (forall id :: id in s.hashes ==> id in outbox && s.hashes[id] == sha(outbox[id].core))
    && (forall sid :: sid in s.views ==>
          var v := s.views[sid];
          && v.sourceEventId in outbox
          && v == OutlookOf(Signed(outbox, v.sourceEventId, sha, true), v.projectedAt) && v.submissionId == sid
          && v.sourceEventId in s.hashes)
  }

  /** The view of a submission is at least as new as every event of it that was consumed. */
  ghost predicate Newest(outbox: map<string, Row>, s: ReadModel) {
    forall id :: id in s.hashes && id in outbox ==>
      && outbox[id].core.submissionId in s.views
      && outbox[id].core.version <= s.views[outbox[id].core.submissionId].version
  }

  /** Identifiers are the content hashes of what is stored under them. */
  ghost predicate Named(c: R.Config, outbox: map<string, Row>) {
    forall id :: id in outbox ==> id != "" && id == c.eventId(outbox[id].core)
  }

  lemma {:induction false} DeliverKeeps(c: R.Config, sha: EventCore -> string, outbox: map<string, Row>,
                                        ds: seq<Arrival>)
    requires Named(c, outbox) && forall i :: 0 <= i < |ds| ==> ds[i].eventId in outbox
    ensures var s := Deliver(c, sha, outbox, EMPTY_PROJECTION, ds);
            && FromOutbox(sha, outbox, s) && Newest(outbox, s)
            && (forall id :: id in s.hashes <==> Verified(ds, id))
  {
    hide FromOutbox, Newest, Project, Named, Verified;
    if ds == [] {
      EmptyKeeps(sha, outbox);
      forall id ensures !Verified(ds, id) { NoneVerified(id); }
    } else {
      var init, last := ds[..|ds| - 1], ds[|ds| - 1];
      DeliverKeeps(c, sha, outbox, init);
      var before := Deliver(c, sha, outbox, EMPTY_PROJECTION, init);
      ProjectKeeps(c, sha, outbox, before, last.eventId, last.at, last.verified);
      assert ds == init + [last];
      forall id ensures Verified(ds, id) <==> Verified(init, id) || (last.verified && last.eventId == id) {
        VerifiedNext(init, last, id);
      }
    }
  }

  lemma NoneVerified(id: string)
    ensures !Verified([], id)
  {
  }

  lemma VerifiedNext(ds: seq<Arrival>, last: Arrival, id: string)
    ensures Verified(ds + [last], id) <==> Verified(ds, id) || (last.verified && last.eventId == id)
  {
    var all := ds + [last];
    if Verified(ds, id) {
      var i :| 0 <= i < |ds| && ds[i].verified && ds[i].eventId == id;
      assert all[i] == ds[i];
    }
    assert all[|ds|] == last;
  }

  lemma EmptyKeeps(sha: EventCore -> string, outbox: map<string, Row>)
    ensures FromOutbox(sha, outbox, EMPTY_PROJECTION) && Newest(outbox, EMPTY_PROJECTION)
  {
  }

  /** A stored event is consumed exactly when its signature verifies, and then never moves
      a view backwards; a rejected one is an error. */
  lemma ProjectKeeps(c: R.Config, sha: EventCore -> string, outbox: map<string, Row>, s: ReadModel, id: string, at: int,
                     verified: bool)
    requires Named(c, outbox) && FromOutbox(sha, outbox, s) && Newest(outbox, s) && id in outbox
    ensures var result := Project(c, s, Signed(outbox, id, sha, verified), at);
            && (!verified ==> result == Err(SignatureRejected))
            && (verified ==>
                  && result.Ok?
                  && var s' := result.value.0;
                  && FromOutbox(sha, outbox, s') && Newest(outbox, s') && s'.hashes.Keys == s.hashes.Keys + {id}
                  && (forall sid :: sid in s.views ==>
                        sid in s'.views && s.views[sid].version <= s'.views[sid].version))
  {
    hide FromOutbox, Newest, Apply, OutlookOf, Named, Project;
    if !verified {
      UnverifiedIsRejected(c, s, Signed(outbox, id, sha, false), at);
    } else {
      NeverRejected(c, sha, outbox, s, id, at);
      var s' := Apply(s, id, sha(outbox[id].core), OutlookOf(Signed(outbox, id, sha, true), at)).value.0;
      ApplyGrows(s, id, sha(outbox[id].core), OutlookOf(Signed(outbox, id, sha, true), at));
      KeepsSources(sha, outbox, s, id, at, s');
      KeepsNewest(sha, outbox, s, id, at, s');
    }
  }

  lemma NeverRejected(c: R.Config, sha: EventCore -> string, outbox: map<string, Row>, s: ReadModel, id: string,
                      at: int)
    requires Named(c, outbox) && FromOutbox(sha, outbox, s) && id in outbox
    ensures var a := Apply(s, id, sha(outbox[id].core), OutlookOf(Signed(outbox, id, sha, true), at));
            var result := Project(c, s, Signed(outbox, id, sha, true), at);
            a.Ok? && result.Ok? && result.value.0 == a.value.0
  {
    hide OutlookOf;
  }

  lemma UnverifiedIsRejected(c: R.Config, s: ReadModel, e: Envelope, at: int)
    requires !e.verified
    ensures Project(c, s, e, at) == Err(SignatureRejected)
  {
  }

  lemma ApplyGrows(s: ReadModel, id: string, sha: string, view: Outlook)
    requires Apply(s, id, sha, view).Ok?
    ensures var s' := Apply(s, id, sha, view).value.0;
            && s'.hashes.Keys == s.hashes.Keys + {id}
            && (forall sid :: sid in s.views ==> sid in s'.views && s.views[sid].version <= s'.views[sid].version)
  {
  }

  lemma KeepsSources(sha: EventCore -> string, outbox: map<string, Row>, s: ReadModel, id: string, at: int,
                     s': ReadModel)
    requires FromOutbox(sha, outbox, s) && id in outbox
    requires var r := Apply(s, id, sha(outbox[id].core), OutlookOf(Signed(outbox, id, sha, true), at));
             r.Ok? && s' == r.value.0
    ensures FromOutbox(sha, outbox, s')
  {
  }

  lemma KeepsNewest(sha: EventCore -> string, outbox: map<string, Row>, s: ReadModel, id: string, at: int,
                    s': ReadModel)
    requires Newest(outbox, s) && id in outbox
    requires var r := Apply(s, id, sha(outbox[id].core), OutlookOf(Signed(outbox, id, sha, true), at));
             r.Ok? && s' == r.value.0
    ensures Newest(outbox, s')
  {
  }

  // ------------------------------------------------------- the read model

  function ProgressOf(s: SubmissionState): Progress {
    match s
    case Prepared => InPreparation
    case Dispatching => InDispatch
    case Accepted => AcceptedForProcessing
    case Rejected => ProgressRejected
    case Unknown => ProgressUnknown
  }

  /** The read model says what the submission record says. */
  ghost predicate Mirrors(v: Outlook, r: Submission) {
    && v.submissionId == r.submissionId && v.uttId == r.uttId && v.rttId == r.rttId && v.providerId == r.providerId
    && v.state == ProgressOf(r.state) && v.code == r.code && v.externalRef == r.externalRef
    && v.disposition == r.disposition && v.version == r.version
  }

  /** Some delivery of the event of this version verified. */
  ghost predicate VerifiedEvent(s: Operations.Store, ds: seq<Arrival>, r: string, version: int) {
    exists i :: 0 <= i < |ds| && ds[i].verified && OperationsTheorems.IsEventOf(s, ds[i].eventId, r, version)
  }

  /** What is delivered is stored. Event and submission identifiers are content hashes:
      none is empty, and no two RTTs share a submission identifier. */
  ghost predicate Deliverable(s: Operations.Store, r: string, ds: seq<Arrival>) {
    && r in s.submissions
    && (forall k :: 0 <= k < |ds| ==> ds[k].eventId in s.outbox)
    && (forall e :: e in s.outbox ==> e != "")
    && (forall q :: q in s.submissions && s.submissions[q].submissionId == s.submissions[r].submissionId ==> q == r)
  }

  /** After any run and any delivery sequence of outbox events, reordered, duplicated and
      rejected at will: a submission has a view exactly when some event of it verified, and
      the view's version is the highest that did. So the read model equals the record if
      and only if some delivery of the newest event verified. */
  lemma {:induction false} ReadModelMirrorsRecord(c: R.Config, sha: EventCore -> string, actions: seq<R.Action>,
                                                  r: string, ds: seq<Arrival>)
    requires Deliverable(R.Exec(c, R.INITIAL, actions).store, r, ds)
    ensures var s := R.Exec(c, R.INITIAL, actions).store;
            var views := Deliver(c, sha, s.outbox, EMPTY_PROJECTION, ds).views;
            var sid := s.submissions[r].submissionId;
            && (sid in views <==> exists v :: VerifiedEvent(s, ds, r, v))
            && (sid in views ==> VerifiedEvent(s, ds, r, views[sid].version))
            && (forall v :: VerifiedEvent(s, ds, r, v) ==> sid in views && v <= views[sid].version)
            && (sid in views && Mirrors(views[sid], s.submissions[r]) <==>
                  VerifiedEvent(s, ds, r, s.submissions[r].version))
  {
    hide R.Exec, Deliver, R.Inv, FromOutbox, Newest, Named, Mirrors, R.Describes, VerifiedEvent, Verified;
    var w := R.Exec(c, R.INITIAL, actions);
    R.InitialInv(c);
    R.RunKeepsInv(c, R.INITIAL, actions);
    OperationsTheorems.OneEventPerVersion(c, actions, r);
    OutboxFacts(c, w);
    DeliverKeeps(c, sha, w.store.outbox, ds);
    var p := Deliver(c, sha, w.store.outbox, EMPTY_PROJECTION, ds);
    ViewIsNewest(sha, w.store, p, r, ds);
    if VerifiedEvent(w.store, ds, r, w.store.submissions[r].version) {
      NewestMirrors(sha, w.store, p, r);
    } else if w.store.submissions[r].submissionId in p.views {
      OlderDoesNotMirror(p.views[w.store.submissions[r].submissionId], w.store.submissions[r]);
    }
  }

  lemma OutboxFacts(c: R.Config, w: R.World)
    requires R.Inv(c, w) && forall e :: e in w.store.outbox ==> e != ""
    ensures Named(c, w.store.outbox) && Belong(w.store)
  {
    hide R.Inv;
    forall e | e in w.store.outbox ensures e == c.eventId(w.store.outbox[e].core) && BelongsTo(w.store, e) {
      EventFacts(c, w, e);
    }
  }

  lemma EventFacts(c: R.Config, w: R.World, e: string)
    requires R.Inv(c, w) && e in w.store.outbox
    ensures e == c.eventId(w.store.outbox[e].core) && BelongsTo(w.store, e)
  {
    hide R.DispatchersOk, R.CallsOk, R.Describes, R.RecordOk, OutboxOk;
    assert R.EventOk(c, w, e);
    var r := w.store.outbox[e].core.rttId;
    assert R.SubmissionOk(w.store, w.trail[r], r);
    assert R.EventAt(w.store.outbox, w.store.submissions[r].submissionId, r, w.trail[r],
                     w.store.outbox[e].core.version - 1);
  }

  /** An event carries the identifier of its RTT's submission. */
  ghost predicate BelongsTo(s: Operations.Store, e: string) {
    e in s.outbox ==>
      && s.outbox[e].core.rttId in s.submissions
      && s.outbox[e].core.submissionId == s.submissions[s.outbox[e].core.rttId].submissionId
  }

  ghost predicate Belong(s: Operations.Store) { forall e :: BelongsTo(s, e) }

  lemma ViewIsNewest(sha: EventCore -> string, s: Operations.Store, p: ReadModel, r: string, ds: seq<Arrival>)
    requires FromOutbox(sha, s.outbox, p) && Newest(s.outbox, p) && Belong(s) && Deliverable(s, r, ds)
    requires forall id :: id in p.hashes <==> Verified(ds, id)
    ensures var sid := s.submissions[r].submissionId;
            && (sid in p.views ==>
                  && VerifiedEvent(s, ds, r, p.views[sid].version)
                  && OperationsTheorems.IsEventOf(s, p.views[sid].sourceEventId, r, p.views[sid].version))
            && (forall v :: VerifiedEvent(s, ds, r, v) ==> sid in p.views && v <= p.views[sid].version)
  {
    hide FromOutbox, Newest, Belong, Verified, VerifiedEvent;
    var sid := s.submissions[r].submissionId;
    if sid in p.views { ViewIsVerified(sha, s, p, r, ds); }
    forall v | VerifiedEvent(s, ds, r, v) ensures sid in p.views && v <= p.views[sid].version {
      VerifiedIsViewed(s, p, r, ds, v);
    }
  }

  lemma ViewIsVerified(sha: EventCore -> string, s: Operations.Store, p: ReadModel, r: string, ds: seq<Arrival>)
    requires FromOutbox(sha, s.outbox, p) && Belong(s) && Deliverable(s, r, ds)
    requires s.submissions[r].submissionId in p.views
    requires forall id :: id in p.hashes <==> Verified(ds, id)
    ensures var v := p.views[s.submissions[r].submissionId];
            VerifiedEvent(s, ds, r, v.version) && OperationsTheorems.IsEventOf(s, v.sourceEventId, r, v.version)
  {
    var v := p.views[s.submissions[r].submissionId];
    var e := v.sourceEventId;
    assert BelongsTo(s, e) && OperationsTheorems.IsEventOf(s, e, r, v.version);
    var i :| 0 <= i < |ds| && ds[i].verified && ds[i].eventId == e;
    assert OperationsTheorems.IsEventOf(s, ds[i].eventId, r, v.version);
  }

  lemma VerifiedIsViewed(s: Operations.Store, p: ReadModel, r: string, ds: seq<Arrival>, v: int)
    requires Newest(s.outbox, p) && Belong(s) && r in s.submissions && VerifiedEvent(s, ds, r, v)
    requires forall id :: id in p.hashes <==> Verified(ds, id)
    ensures var sid := s.submissions[r].submissionId; sid in p.views && v <= p.views[sid].version
  {
    var i :| 0 <= i < |ds| && ds[i].verified && OperationsTheorems.IsEventOf(s, ds[i].eventId, r, v);
    assert Verified(ds, ds[i].eventId) && BelongsTo(s, ds[i].eventId);
  }

  lemma NewestMirrors(sha: EventCore -> string, s: Operations.Store, p: ReadModel, r: string)
    requires FromOutbox(sha, s.outbox, p) && r in s.submissions && s.submissions[r].submissionId in p.views
    requires var v := p.views[s.submissions[r].submissionId];
             v.version >= s.submissions[r].version && OperationsTheorems.IsEventOf(s, v.sourceEventId, r, v.version)
    requires forall e, v :: OperationsTheorems.IsEventOf(s, e, r, v) ==> 1 <= v <= s.submissions[r].version
    requires forall e :: OperationsTheorems.IsEventOf(s, e, r, s.submissions[r].version) ==>
               R.Describes(s.outbox[e].core, s.submissions[r])
    ensures Mirrors(p.views[s.submissions[r].submissionId], s.submissions[r])
  {
  }

  lemma OlderDoesNotMirror(v: Outlook, r: Submission)
    ensures Mirrors(v, r) ==> v.version == r.version
  {
  }

  /** Why the condition is needed: after any run, deliver an older event that verifies and
      then the newest with a signature that does not. The newest is lost to the read model,
      which keeps showing the older state. */
  lemma {:induction false} RejectedNewestStaysOlder(c: R.Config, sha: EventCore -> string, actions: seq<R.Action>,
                                                    r: string, older: string, version: int, newest: string, at: int)
    requires var s := R.Exec(c, R.INITIAL, actions).store;
             && Deliverable(s, r, [Arrival(older, at, true), Arrival(newest, at, false)])
             && OperationsTheorems.IsEventOf(s, older, r, version) && version < s.submissions[r].version
             && OperationsTheorems.IsEventOf(s, newest, r, s.submissions[r].version)
    ensures var s := R.Exec(c, R.INITIAL, actions).store;
            var ds := [Arrival(older, at, true), Arrival(newest, at, false)];
            var views := Deliver(c, sha, s.outbox, EMPTY_PROJECTION, ds).views;
            var sid := s.submissions[r].submissionId;
            sid in views && views[sid].version == version && !Mirrors(views[sid], s.submissions[r])
  {
    hide R.Exec, Deliver, Mirrors;
    var s := R.Exec(c, R.INITIAL, actions).store;
    var ds := [Arrival(older, at, true), Arrival(newest, at, false)];
    ReadModelMirrorsRecord(c, sha, actions, r, ds);
    assert ds[0].verified && OperationsTheorems.IsEventOf(s, ds[0].eventId, r, version);
    assert VerifiedEvent(s, ds, r, version);
  }
}
