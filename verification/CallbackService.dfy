/** The callback processor as it runs, and the fact that a handler that is never
    interrupted does exactly what the processor does. */
module CallbackService {
  import opened Prelude
  import opened Execution
  import opened Callbacks
  import E = ExecutionService
  import R = CallbackRuns

  class MpesaCallbackProcessor {
    const config: Config
    const inbox: InMemoryCallbackInboxStore
    const attempts: E.RttAttemptService

    constructor (config: Config, inbox: InMemoryCallbackInboxStore, attempts: E.RttAttemptService)
      ensures this.config == config && this.inbox == inbox && this.attempts == attempts
    {
      this.config, this.inbox, this.attempts := config, inbox, attempts;
    }

    /** Check, ingest, look at the attempt, record what it calls for, settle, mark. */
    method ProcessCallback(kind: Kind, body: Payload, settles: bool, at: int)
      returns (r: Result<Disposed, CallbackError>)
      requires attempts.executions.Valid()
      modifies inbox, attempts.executions
      ensures attempts.executions.Valid()
      ensures Processed(inbox.records, attempts.executions.View(), r)
              == Process(config, old(inbox.records), old(attempts.executions.View()), kind, body, settles, at)
    {
      hide Refusal, Record, Choose, DisposedAs, EventId;
      var refusal := Refusal(config, kind, body);
      if refusal.Some? {
        return Err(refusal.value);
      }
      var eventId := EventId(kind, body.conversationId);
      var ingested := inbox.IngestRecord(eventId, OfPayload(body), true, at);
      if ingested.Err? {
        return Err(ingested.error);
      }
      if ingested.value.0.state == Applied {
        return Ok(AlreadyApplied);
      }
      var rttId := config.submission.rttId;
      if rttId !in attempts.executions.attempts {
        return Err(AttemptMissing);
      }
      var choice := Choose(config, kind, body, attempts.executions.attempts[rttId].state);
      if choice.Conflict? {
        return Err(ConflictsWithOutcome);
      }
      if choice.Perform? {
        var recorded := attempts.Record(rttId, choice.op, at);
        if recorded.Err? {
          return Err(RecordRejected(recorded.error));
        }
      }
      if IsSuccess(kind, body) && !settles {
        return Err(SettlementRejected);
      }
      var marked := inbox.Mark(eventId, at);
      r := if marked.Ok? then Ok(DisposedAs(config, kind, body)) else Err(marked.error);
    }

    /** A delivery that fails authentication leaves a rejected inbox record and nothing else. */
    method RejectForged(raw: seq<R.Encoding.byte>, shortHash: string, at: int) returns (r: CallbackError)
      modifies inbox
      ensures r == (match Ingest(old(inbox.records), RejectedId(shortHash), OfBytes(raw), false, at)
                    case Ok(_) => NotAuthenticated case Err(e) => e)
      ensures inbox.records == (match Ingest(old(inbox.records), RejectedId(shortHash), OfBytes(raw), false, at)
                                case Ok((records, _, _)) => records case Err(_) => old(inbox.records))
    {
      var ingested := inbox.IngestRecord(RejectedId(shortHash), OfBytes(raw), false, at);
      r := if ingested.Ok? then NotAuthenticated else ingested.error;
    }
  }

  // ---------------------------------------------------- steps make the whole

  /** A handler's last two steps. */
  lemma SettleFinishConcludes(c: Config, w: R.World, k: int, kind: Kind, body: Payload, settles: bool, at: int)
    requires R.HandlerOf(w, k) == R.Finishing(kind, body)
    ensures var w' := R.DoFinish(R.DoSettle(w, k, settles), k, at);
            var d := Conclude(c, w.inbox, w.store, kind, body, settles, at);
            w'.inbox == d.inbox && w'.store == d.store
  {
    hide EventId, DisposedAs;
  }

  lemma FreeStays(c: Config, w: R.World, k: int, settles: bool, at: int)
    requires R.HandlerOf(w, k) == R.Free
    ensures R.DoLook(c, w, k) == w && R.DoReadAttempt(c, w, k) == w && R.DoReadPlan(w, k) == w
    ensures R.DoCommit(c, w, k, at) == w && R.DoSettle(w, k, settles) == w && R.DoFinish(w, k, at) == w
  {
  }

  function ReadReadCommit(c: Config, w: R.World, k: int, at: int): R.World {
    R.DoCommit(c, R.DoReadPlan(R.DoReadAttempt(c, w, k), k), k, at)
  }

  /** Reading the attempt, reading the plan and committing is one record call. */
  lemma StepsRecord(c: Config, w: R.World, k: int, at: int)
    requires R.HandlerOf(w, k).Chose?
    ensures var h := R.HandlerOf(w, k);
            var w' := ReadReadCommit(c, w, k, at);
            && w'.inbox == w.inbox
            && match Record(w.store, c.submission.rttId, h.op, at)
               case Ok((s, _)) => w'.store == s && R.HandlerOf(w', k) == R.Finishing(h.kind, h.payload)
               case Err(_) => w'.store == w.store && R.HandlerOf(w', k) == R.Free
  {
    hide Outcome, CommitTransition;
  }

  function Rest(w: R.World, k: int, settles: bool, at: int): R.World { R.DoFinish(R.DoSettle(w, k, settles), k, at) }

  /** From the look at the attempt to the end. */
  lemma LookToEnd(c: Config, w: R.World, k: int, settles: bool, at: int)
    requires R.HandlerOf(w, k).Took? && c.submission.rttId in w.store.attempts
    ensures var h := R.HandlerOf(w, k);
            var w' := Rest(ReadReadCommit(c, R.DoLook(c, w, k), k, at), k, settles, at);
            match ApplyChoice(w.store, c.submission.rttId,
                              Choose(c, h.kind, h.payload, w.store.attempts[c.submission.rttId].state), at)
            case Err(_) => w'.inbox == w.inbox && w'.store == w.store
            case Ok(s) =>
              var d := Conclude(c, w.inbox, s, h.kind, h.payload, settles, at);
              w'.inbox == d.inbox && w'.store == d.store
  {
    hide Record, Conclude, R.DoSettle, R.DoFinish, R.DoReadAttempt, R.DoReadPlan, R.DoCommit, Choose;
    var h := R.HandlerOf(w, k);
    var w1 := R.DoLook(c, w, k);
    var w2 := ReadReadCommit(c, w1, k, at);
    var choice := Choose(c, h.kind, h.payload, w.store.attempts[c.submission.rttId].state);
    if choice.Perform? {
      StepsRecord(c, w1, k, at);
    } else if choice.Conflict? {
      FreeStays(c, w1, k, settles, at);
    } else {
      FinishingStays(c, w1, k, at);
    }
    if R.HandlerOf(w2, k).Free? {
      FreeStays(c, w2, k, settles, at);
    } else {
      SettleFinishConcludes(c, w2, k, h.kind, h.payload, settles, at);
    }
  }

  lemma FinishingStays(c: Config, w: R.World, k: int, at: int)
    requires R.HandlerOf(w, k).Finishing?
    ensures ReadReadCommit(c, w, k, at) == w
  {
  }

  /** A handler that is never interrupted does exactly what the processor does. */
  lemma UninterruptedHandlerProcesses(c: Config, w: R.World, k: int, kind: Kind, body: Payload, settles: bool, at: int)
    ensures var w1 := R.DoReceive(c, w, k, kind, body, at);
            var w' := Rest(ReadReadCommit(c, R.DoLook(c, w1, k), k, at), k, settles, at);
            var d := Process(c, w.inbox, w.store, kind, body, settles, at);
            w'.inbox == d.inbox && w'.store == d.store
  {
    hide R.DoLook, ReadReadCommit, Rest, Conclude, ApplyChoice, Refusal, Ingest, Choose;
    var w1 := R.DoReceive(c, w, k, kind, body, at);
    if R.HandlerOf(w1, k).Took? && c.submission.rttId in w1.store.attempts {
      LookToEnd(c, w1, k, settles, at);
    } else {
      NoWorkLeft(c, w1, k, settles, at);
    }
  }

  lemma NoWorkLeft(c: Config, w: R.World, k: int, settles: bool, at: int)
    requires R.HandlerOf(w, k).Free? || (R.HandlerOf(w, k).Took? && c.submission.rttId !in w.store.attempts)
    ensures var w' := Rest(ReadReadCommit(c, R.DoLook(c, w, k), k, at), k, settles, at);
            w'.inbox == w.inbox && w'.store == w.store
  {
    hide R.DoReadAttempt, R.DoReadPlan, R.DoCommit, R.DoSettle, R.DoFinish;
    FreeStays(c, R.DoLook(c, w, k), k, settles, at);
  }
}
