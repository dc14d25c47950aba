# RailOne payment pipeline: a Dafny model

RailOne accepts a signed quote as a transaction (UTT), ranks routes for it, starts one
attempt (RTT) at a time, submits it to a provider, learns the outcome through callbacks,
stores settlement evidence, notifies both sides by SMS and keeps a history. Every step
keeps its state in versioned records held in dictionaries and moves them by
compare-and-swap. What the system promises holds of whole runs: an RTT is not paid twice,
no outcome is lost or duplicated, spend stays within the budget, nothing gets stuck. This
project models those machines, proves those promises for every sequence of steps where
they hold, and where they hold only under a condition proves exactly which one.

How it is built:

- Each machine is written once as functions on values (`Execution`, `Operations`,
  `Callbacks`, `Notifications`, `History`, `RateLimit`, `Contracts`, `Identity`). A step
  that raises in the program is an `Err` or leaves the world as it was.
- The stores and services are classes whose fields are the program's dictionaries. Each
  method is proved to do exactly what its function says.
- What those functions decide is stated once more without them, on the records and the
  caller's own inputs: which route is started, what is recorded of an answer, who is told
  what, who may read. These statements hold in every reachable state.
- Concurrency is a `World` (the store, what each worker holds between two accesses, and
  records of the run such as the provider calls made), a total step function `Do`, and
  `Exec` over any list of steps. One locked block is one step; a crash may come between
  any two. Theorems are about `Exec(INITIAL, actions)` for all `actions`. For each service
  call a lemma says that a worker nobody interrupts does exactly what the call does.
- Digests stand for what they were taken over: an identifier that is a SHA-256 of some
  material is either a constructor holding that material or a parameter. Signatures are a
  pair of abstract functions. Instants are parameters, counted in microseconds; where the
  program keeps whole seconds the model cuts them off.

| file | content |
|---|---|
| `Prelude`, `Encoding` | results, string order, sorting; UTF-8, decimal and base64url with their decoders |
| `CanonicalJson`, `JsonReader`, `Signatures` | canonical encoding and its reader, freezing and thawing, signing and verifying envelopes |
| `RouteScoring` | eligibility, scores and ranking |
| `Execution`, `ExecutionRuns`, `ExecutionTheorems`, `ExecutionDecisions`, `ExecutionPadding`, `ExecutionBudget`, `ExecutionService` | plans and attempts |
| `Operations`, `OperationsRuns`, `OperationsTheorems`, `OperationsAnswers`, `OutboxTheorems`, `OperationsService`, `Projection` | submissions, outbox and read model |
| `PaymentRuns`, `PaymentTheorems` | execution and operations together: when a transaction can reach a provider twice, what can still be finished |
| `Callbacks`, `CallbackRuns`, `CallbackTheorems`, `CallbackAnswers`, `CallbackService` | RESULT and TIMEOUT callbacks |
| `Notifications`, `NotificationRuns`, `NotificationTheorems`, `NotificationTexts` | settlement evidence and SMS |
| `CallbackSettlement`, `CallbackProgress` | callbacks of any number of RTTs together with execution, settlement and SMS |
| `History`, `HistoryTheorems`, `HistoryPaging`, `HistoryAccess`, `HistoryRoles`, `HistoryService` | transaction history |
| `RateLimit`, `Contracts`, `ContractTheorems`, `Identity`, `IdentityTheorems` | API rate windows, quote acceptance, identity revisions |

Where the code and its intent part:

- `UttTransactionIndexer.index` looks the transaction up under the stripped identifier but
  stores the projection under the identifier as it was passed in
  (`railone_history/service.py:58-67`), while `get_by_utt` strips. A row indexed as
  `" UTT-1"` is therefore listed and cannot be opened, and a page that ends on it hands out
  a cursor that is refused. `HistoryAccess.PaddedIdentifierDoesNotOpen` shows it;
  `HistoryAccess.ListedIsReadable`, `History.CursorRoundTrip` and
  `HistoryPaging.NextCursorIsHonoured` say exactly when the promise holds. Indexed a second
  time under another spelling, a transaction is listed twice:
  `HistoryAccess.ReindexListsOnceIffUnpadded`.
- `record_failure`, `record_success` and `resolve_reconciliation` look the attempt up under
  the stripped identifier and write the identifier as it was passed in into the plan
  (`railone_execution/service.py:262-307`). A time-out reported as `" RTT-1"` is accepted,
  marks an identifier under which nothing is stored, and the plan can never be resolved,
  restarted or changed again: `ExecutionPadding.PaddedReportSticks`. A success reported so
  can never be settled: `NotificationTheorems.SettlesIffUnpadded`. Exactly when no blanks
  surround the identifier a report keeps the plan sound
  (`ExecutionPadding.ReportKeepsSoundIffUnpadded`), and then every plan of every run is
  (`ExecutionPadding.UnpaddedRunsAreSound`). Numbering, partition, budget, finality and, by
  name, lineage, the open attempt and the winner hold however identifiers are spelled.
- `sign_artifact` checks the key at the signing instant and writes the whole seconds of it;
  `verify_artifact` checks the key at those whole seconds. A key whose life begins within a
  second signs, in the rest of that second, what does not verify
  (`Signatures.TruncationRejects`); `Signatures.SignedArtifactVerifies` says exactly when a
  signed artifact verifies. An event no delivery of which verifies is missing from the read
  model (`Projection.RejectedNewestStaysOlder`), and an event that cannot be signed stops its
  dispatch: the record stays as it was, or DISPATCHING if the provider has been called
  (`OperationsService.DispatchFinishes`).
- Two RTTs of one transaction can both reach a provider: between prepare's checks and the
  call another worker may record a retryable failure and dispatch the next RTT. The earlier
  one is then recorded as failed (`PaymentTheorems.EarlierCalledHasFailed`), so no
  transaction is paid twice as long as no RTT that moved money is recorded as failed
  (`PaymentTheorems.NeverPaidTwice`); a failure that leaves the plan active is exactly what
  lets another RTT be called (`PaymentTheorems.AnotherCallIffActive`).
- `prepare` reads the attempt under the stripped identifier and compares the plan's marker
  with the identifier as given (`railone_operations/service.py:90-96`), in two accesses. If
  a time-out is reported under a padded spelling in between, a dispatch under that spelling
  passes, with a key and a submission of its own:
  `PaymentTheorems.PaddedDispatchCallsAgain`.
- A submission left DISPATCHING by a crash can be finished only while its attempt has no
  outcome; afterwards prepare refuses it for ever
  (`PaymentTheorems.FinishableIffUndecided`).
- The callback processor may be built without a settlement service
  (`railone_callbacks/mpesa.py:70`). It then marks successes applied and settles nothing;
  `CallbackSettlement.AppliedSuccessIsSettled` and
  `CallbackProgress.DeliverySettlesIffMarked` state both cases.
- `resolve_reconciliation` adds its cost to the plan and overwrites the attempt's cost, so
  spend is the sum of all reports and not of the attempts' cost fields;
  `ExecutionBudget.SpendIsReportedAndBounded` is stated that way.
- `record_*` reads the attempt and the plan in two accesses, so a stale report can be
  committed again (`ExecutionBudget.StaleReportAddsACommit`), any number of times
  (`ExecutionBudget.StepsAreUnbounded`); the bound on the number of commits is over whole
  operations, all other theorems over the finer steps.

## Model

| member | source | states |
|---|---|---|
| Encoding.Utf8RoundTrip | railone_crypto/canonical_json.py:69-80 | decoding the strict UTF-8 form of any text gives the text back |
| Encoding.Base64UrlRoundTrip | railone_crypto/signature_service.py:54-60 | base64url without padding (section 5 of RFC 4648) is undone by the padding decoder for every byte string |
| CanonicalJson.UniquelyRead | railone_crypto/canonical_json.py:59-80 | two rendered JSON values followed by texts that cannot extend a number agree only if the values and the remainders agree |
| CanonicalJson.CanonIffSame | railone_crypto/canonical_json.py:47-56 | materialised and key-sorted forms are equal exactly for the same JSON value, whatever the insertion order and container kinds |
| CanonicalJson.BytesIffSameJson | railone_crypto/canonical_json.py:17-80 | canonical bytes are injective and insertion-order independent: equal bytes if and only if the same JSON value |
| CanonicalJson.FreezeAndThawKeepBytes | railone_crypto/signature_service.py:63-77 | freezing or thawing a payload never changes its bytes nor whether it is accepted |
| CanonicalJson.FreezeThawFreeze | railone_crypto/signature_service.py:63-94 | freezing what a frozen payload is handed out as gives the same frozen payload |
| JsonReader.ValueReads | railone_crypto/canonical_json.py:59-80 | a JSON reader reads every rendered value back as that value and leaves what follows it |
| JsonReader.CanonicalBytesReadBack | railone_crypto/canonical_json.py:17-80 | canonical bytes decode to a JSON text that reads back, to its end, as the materialised value |
| JsonReader.MembersAscend | railone_crypto/canonical_json.py:47-80 | the members of an object are the entries of its dictionary, once each, in strictly ascending order of their names |
| Signatures.SignedArtifactVerifies | railone_crypto/signature_service.py:124-256 | a signed artifact survives its dictionary form, and verifies, also after its key retired, exactly when the key has a name, is not revoked and was live at the whole second the signing instant is cut off to |
| Signatures.TruncationRejects | railone_crypto/signature_service.py:144-157 | a key valid from 10.5 s signs at 10.7 s what verification refuses as not valid at issuance |
| Signatures.FrozenInput | railone_crypto/signature_service.py:85-94 | the verifier recomputes from the frozen envelope exactly the bytes that were hashed and signed |
| Signatures.SigningInputBinds | railone_crypto/signature_service.py:258-264 | one signing input fits one header and one payload up to JSON equality, and conversely |
| Signatures.SignedTextReads | railone_crypto/signature_service.py:258-270 | what is signed is the domain tag and a JSON text that reads back as an object of exactly the payload and the protected header |
| Signatures.ValidExactly | railone_crypto/signature_service.py:165-257 | for every envelope: Valid if and only if the header names a stored key of the right purpose and its owner, the key is not revoked or history is asked for, it lived at the issue time, the hash is the payload's, and its check accepts the signature over header and payload |
| Signatures.ForgeriesAreRefused | railone_crypto/signature_service.py:165-257 | if a check accepts only what its key signed, a Valid envelope has header and payload, up to JSON equality, of something that key signed |
| Signatures.SignsExactly | railone_crypto/signature_service.py:124-163 | the first of unknown key, wrong purpose, inactive or not living key and unencodable payload is answered; otherwise the envelope of that payload |
| RouteScoring.Rank | railone_execution/scoring.py:36-88 | the scoring loop and sort compute the ranking function, errors included |
| RouteScoring.RankingIsExact | railone_execution/scoring.py:48-88 | a ranking holds exactly the candidates with a link that is not down, current telemetry and suitable currencies, amount range, liquidity, cost and institutions, strictly by descending score then route id, ranks 1 to n, each route once |
| RouteScoring.RankingIgnoresInputOrder | railone_execution/scoring.py:48-88 | every permutation of the candidates gives the same ranking |
| RouteScoring.ScoreInBps | railone_execution/scoring.py:21-29 | with valid weights every eligible candidate scores between 0 and 10000 |
| RouteScoring.CheaperOrFasterScoresNoLower | railone_execution/scoring.py:115-146 | lowering only cost or latency keeps a route eligible and never lowers its score |
| RouteScoring.RankingRefuses | railone_execution/models.py:77-107 | a request is refused exactly for a repeated route id, then for a candidate with a blank text, a quantity out of its range or telemetry that ends before it begins |
| RouteScoring.NoWorseScoresNoLower | railone_execution/scoring.py:115-146 | a route at least as good in latency, congestion, liquidity, headroom, speed, cost and link never scores lower |
| RouteScoring.ScoreAtExtremes | railone_execution/scoring.py:115-146 | with each respect at its best or worst the score is the sum of the weights of those at their best, a degraded link counting four tenths |
| RouteScoring.ScoreIsTheWeightedMean | railone_execution/scoring.py:67-82 | the score is the weighted mean of the seven ratings rounded down, each rating given by inequalities on the candidate's own figures |
| Execution.PickFinds | railone_execution/service.py:173-185 | the guard that closes a plan as exhausted is exactly the guard under which the next attempt finds no route |
| ExecutionRuns.RunKeepsInv | railone_execution/service.py:135-432 | every interleaving of planners, starters and reporters with crashes keeps the plan, index, attempt and snapshot invariants |
| Execution.UttsAreNotPadded | railone_execution/service.py:61-139 | a plan is stored only under the UTT's own identifier and is the plan of its terms; a start that passes its checks is the plain start |
| ExecutionTheorems.EveryPlanIsSound | railone_execution/service.py:135-432 | in every reachable state, however reporters spell identifiers, attempts are numbered 1 to n, attempted and remaining routes partition the ranking in rank order, the lineage names the attempt before, at most one attempt is open and the plan names it, at most one succeeded, exactly when the plan is finalized, and the plan names it |
| ExecutionPadding.SoundIffUnpadded | railone_execution/service.py:273-313 | in every reachable state the in-flight marker, the recorded winner and the lineage are the attempts' own identifiers exactly where no blanks surround them |
| ExecutionPadding.ReportKeepsSoundIffUnpadded | railone_execution/service.py:262-318 | a report committed on a sound plan leaves it sound if and only if its identifier was given without surrounding blanks |
| ExecutionPadding.UnpaddedRunsAreSound | railone_execution/service.py:135-432 | in every run with unpadded reports every plan is sound: lineage, one open attempt that is the current one, one winner that is on record |
| ExecutionPadding.PaddedReportIsAccepted | railone_execution/service.py:262-276 | on any attempt in flight a time-out reported with a blank before the identifier is accepted and leaves the attempt open while the plan marks another identifier |
| ExecutionPadding.PaddedReportSticks | railone_execution/store.py:106-119 | after it the plan is never written again in any continuation |
| ExecutionTheorems.ActivePlanCanStart | railone_execution/service.py:166-186 | an active plan with nothing in flight always passes the guards of start_next |
| ExecutionTheorems.OutcomesAreFinal | railone_execution/store.py:89-119 | closed plans and decided attempts are never written again in any continuation |
| ExecutionDecisions.EveryStartTakesTheBest | railone_execution/service.py:173-185 | in every run an attempt that starts takes, of the untried routes whose estimate is within what is left of the budget, the one with the highest score and of equal scores the smallest identifier |
| ExecutionDecisions.StartForTakesTheBest | railone_execution/service.py:135-246 | start_next in every reachable state starts that route, only for a UTT found, verified and of the supported endpoint model whose endpoints pass, and changes nothing else |
| ExecutionDecisions.EveryReportDecides | railone_execution/service.py:248-432 | in every run a committed report leaves plan and attempt as its operation and disposition say, written out: status, marker, failures, code, cost, winner; retryable is active exactly while attempts and an affordable untried route are left |
| ExecutionDecisions.EveryPlanTellsItsStory | railone_execution/service.py:61-319 | in every run a plan has the transaction, budget and cap of its terms, ranks only routes that suit them, and its failures are exactly the failed reports committed on it, in order |
| ExecutionDecisions.BuildExactly | railone_execution/service.py:61-114 | every branch of build_plan in every reachable state: refusals in order, the stored plan for a known UTT, or the new plan and nothing else |
| ExecutionBudget.SpendIsReportedAndBounded | railone_execution/service.py:273-313 | spend is the sum of all reported costs, budget is at most the customer fee, and if no RTT reports more than its estimate spend stays within the budget |
| ExecutionBudget.StartCallIsStartNext | railone_execution/service.py:135-246 | an uninterrupted starter does exactly what start_next does |
| ExecutionBudget.RecordCallIsRecord | railone_execution/service.py:248-432 | an uninterrupted reporter does exactly what the recording operation does |
| ExecutionBudget.CommitsAreBounded | railone_execution/service.py:283-293 | over whole operations a plan's version is at most 1 + 3 * attempts, with attempts at most the cap and the number of ranked routes |
| ExecutionBudget.StaleReportAddsACommit | railone_execution/service.py:262-265 | a report whose attempt was read before a time-out and whose plan after it commits once more and starts nothing |
| ExecutionBudget.StaleReportsPileUp | railone_execution/service.py:262-319 | from every state with an undecided attempt and for every n some continuation commits n times on its plan and starts nothing |
| ExecutionBudget.StepsAreUnbounded | railone_execution/service.py:262-319 | for every n there is a run, built from the empty store, in which a plan with a single attempt was committed more than n times: the bound needs whole operations |
| ExecutionService.InMemoryExecutionStore.CreatePlan | railone_execution/store.py:52-66 | new store or error as the function on values says: one plan per UTT, replay returns the stored one |
| ExecutionService.InMemoryExecutionStore.CommitStart | railone_execution/store.py:89-104 | version, in-flight, collision and lineage checks in order, then attempt and plan are written together |
| ExecutionService.InMemoryExecutionStore.CommitTransition | railone_execution/store.py:106-119 | version, existence and current-attempt checks in order, then attempt and plan are written together |
| ExecutionService.ExecutionPlanningService.BuildPlan | railone_execution/service.py:61-114 | looks the UTT up, checks it, ranks, refuses an empty ranking and a padded identifier, stores the plan; the whole new store |
| ExecutionService.RttAttemptService.StartNext | railone_execution/service.py:135-246 | the checks of UTT, endpoints, plan and signing in order, then the whole new store, or the error and the old store; which route it takes is ExecutionDecisions.StartForTakesTheBest |
| ExecutionService.RttAttemptService.Record | railone_execution/service.py:262-319 | find the attempt under the stripped identifier, read plan, decide, commit with the identifier as given: the whole new store, or the error and the old store |
| ExecutionService.RttAttemptService.RecordFailure | railone_execution/service.py:248-319 | negative cost and blank code are refused before anything is read; otherwise the recorded failure |
| ExecutionService.RttAttemptService.RecordSuccess | railone_execution/service.py:321-358 | negative cost is refused; otherwise the recorded success |
| ExecutionService.RttAttemptService.ResolveReconciliation | railone_execution/service.py:360-432 | negative cost is refused first, a blank code after the checks of attempt and plan, a missing code has its default; otherwise the recorded resolution |
| ExecutionService.AwaitingProblemIsTheAnswer | railone_execution/service.py:372-384 | what is found wrong before the failure code is looked at is what recording the resolution answers, whatever the code |
| Operations.ChosenAreEarliest | railone_operations/store.py:163-176 | a claim takes claimable rows only, earliest first, and leaves one out only when the batch is full of earlier ones |
| OperationsRuns.RunKeepsInv | railone_operations/service.py:86-345 | every interleaving of dispatchers and relays with crashes keeps records, events, snapshots and calls consistent |
| OperationsTheorems.NeverCalledTwice | railone_operations/service.py:191-300 | all calls made under one identifier carry one idempotency key and request hash, no committed dispatch is called twice, and of two calls at least one adapter is idempotent |
| OperationsTheorems.FinalStatesStay | railone_operations/service.py:205-225 | ACCEPTED, REJECTED and UNKNOWN submissions never change again in any continuation |
| OperationsTheorems.OneEventPerVersion | railone_operations/service.py:302-345 | the outbox holds exactly one event for each version 1 to n of a submission and none beyond, and the newest describes the record |
| OperationsTheorems.RowsAreSound | railone_operations/store.py:148-250 | owner and lease exactly while in flight, pending rows have deliveries left, published rows had a publish call return |
| OperationsTheorems.RowsMoveByLease | railone_operations/store.py:148-250 | a row is taken from its holder only at or after the lease end, finished only by its owner, and stays published or dead for ever |
| OutboxTheorems.ClaimTakesTheSoonest | railone_operations/store.py:148-191 | after any run a valid claim leases the due rows, soonest first and each once, for its seconds and up to its limit, leaves a due row behind only when the batch is full of sooner ones, and changes nothing else; any other claim is refused |
| OutboxTheorems.SettleFinishesTheRow | railone_operations/service.py:394-423 | a row still leased to the relay becomes published, or waits again after its back-off, or is dead after its last delivery; a row taken by another is left alone |
| OutboxTheorems.DelayDoubles | railone_operations/service.py:407-415 | the back-off is 1, 2, 4 up to 256 seconds |
| OperationsAnswers.FinalStatesAreAnswers | railone_operations/service.py:226-300 | in every run a submission is ACCEPTED or REJECTED only if a provider called for it answered so, with that answer's code, reference, disposition and context, and UNKNOWN only if one answered so or raised or the dispatch must not be repeated |
| OperationsAnswers.KeysAndAdaptersFit | railone_operations/service.py:199-203 | in every run no two submissions share an idempotency key, and a provider is called only for a submission of its own through its own adapter |
| OperationsService.InMemoryOperationsStore.Prepare | railone_operations/store.py:69-91 | idempotent preparation, conflicts and collisions as the function on values says |
| OperationsService.InMemoryOperationsStore.Transition | railone_operations/store.py:112-134 | version checks in order, then record and event are written together |
| OperationsService.InMemoryOperationsStore.Claim | railone_operations/store.py:148-190 | the claim loop leases exactly the chosen rows |
| OperationsService.InMemoryOperationsStore.Mark | railone_operations/store.py:192-208 | only the owner of an in-flight row publishes it |
| OperationsService.InMemoryOperationsStore.RescheduleEvent | railone_operations/store.py:210-242 | only the owner reschedules it, and the last allowed attempt makes it a dead letter |
| OperationsService.GatePassesInFlight | railone_operations/service.py:86-98 | in every reachable state what passes is exactly an attempt without outcome under its own identifier with every check passed, the attempt in flight of an active plan; what does not pass is refused for the first check that fails |
| OperationsService.ProviderSubmissionCoordinator.DispatchRtt | railone_operations/service.py:86-244 | refused with the first failing check and nothing changed, or the dispatch of the request for the attempt found |
| OperationsService.DispatchFinishes | railone_operations/service.py:191-345 | after any run a dispatch by a matching adapter that raises or answers well-formed ends in a stored final record if and only if every event it needs is signed, calls the provider exactly when a dispatch is allowed and its start is signed, and otherwise leaves the record as it was, or DISPATCHING if the provider was called |
| OperationsService.ProviderSubmissionCoordinator.Dispatch | railone_operations/service.py:191-345 | the whole new store, the answer and whether the provider was called, for every pattern of signed and refused events; what is recorded is OperationsAnswers.DispatchRecordsTheAnswer |
| OperationsService.ProviderSubmissionCoordinator.Complete | railone_operations/service.py:246-345 | the provider's answer becomes the final record and its event, or it is malformed or its event refused by the signer and nothing is stored |
| OperationsService.UninterruptedWorkerDispatches | railone_operations/service.py:191-300 | a dispatcher nobody interrupts does exactly what dispatch does: the same store, and one call with the request's identifier, key and hash or none |
| OperationsAnswers.DispatchRecordsTheAnswer | railone_operations/service.py:191-300 | after any run a dispatch that calls the provider stores Accepted, Rejected or Unknown if and only if it answered so, Unknown if it raised, with the answer's own code, reference, disposition and context; a blocked recovery is Unknown; the event of the new version says the same |
| OperationsAnswers.DispatchRefuses | railone_operations/service.py:199-206 | an unsigned preparation, another request under the RTT, a key of another RTT and an adapter of another provider are refused in this order and a final record is answered, without a call or a changed record |
| OperationsAnswers.MalformedAnswerIsNotRecorded | railone_operations/service.py:246-268 | a provider that was called and answered what cannot be recorded, written out, leaves the record DISPATCHING |
| OperationsService.OutboxRelay.PublishBatch | railone_operations/service.py:383-424 | an uninterrupted relay finishes every claimed row, published or put back, and touches no other |
| OperationsService.OutboxRelay.PublishOne | railone_operations/service.py:394-423 | a row still held is finished as published or rescheduled with its back-off |
| Projection.InMemoryProviderOutcomeProjectionStore.ApplyEvent | railone_projection/store.py:35-54 | duplicate events are recognised by hash, a conflicting hash is refused, only a newer version replaces the view |
| Projection.ProjectExactly | railone_projection/service.py:35-84 | every branch of project: refusals in order, repeats recognised, and a consumed event becomes the view of its submission exactly if there is none or an older one, field by field |
| Projection.ProjectKeeps | railone_projection/service.py:35-84 | a stored event is consumed exactly when its signature verifies, then never moves a view backwards, and is otherwise an error |
| Projection.ReadModelMirrorsRecord | railone_projection/service.py:35-84 | after any run and any delivery sequence, reordered, duplicated and rejected at will, a submission has a view exactly when some event of it verified, at the highest version that did, so the view equals the record if and only if some delivery of the newest event verified |
| Projection.RejectedNewestStaysOlder | railone_projection/service.py:38-42 | an older event that verifies followed by the newest that does not leaves the older view |
| PaymentRuns.RunKeepsInv | railone_operations/service.py:86-300 | every interleaving of execution with checkers and dispatchers, each read and commit a step, keeps both stores consistent, and what is submitted names an attempt of the transaction it is submitted for |
| PaymentRuns.UninterruptedCheckerIsGate | railone_operations/service.py:86-131 | a checker nobody interrupts passes exactly what prepare's checks let through |
| PaymentTheorems.EarlierCalledHasFailed | railone_operations/service.py:86-244 | if two RTTs of one transaction reached a provider the earlier is recorded as failed, in every run |
| PaymentTheorems.NeverPaidTwice | railone_operations/service.py:86-244 | whatever RTTs moved money: if none of them is recorded as failed and dispatches give unpadded identifiers, the calls that moved money for one transaction are for one RTT with one key and one hash, at most one of them by an adapter without idempotency |
| PaymentTheorems.AnotherCallIffActive | railone_execution/service.py:283-293 | when the newest attempt of a plan failed, some continuation calls a provider for a later RTT of the transaction if and only if the plan is still active |
| PaymentTheorems.PaddedDispatchCallsAgain | railone_operations/service.py:90-106 | after any run an undecided RTT can be dispatched and called under a padded spelling with another key |
| PaymentTheorems.FinishableIffUndecided | railone_operations/service.py:90-98 | after any run a submission without final state that nobody works on can still be finished if and only if its attempt has no outcome, the next dispatch doing it under an unpadded identifier; otherwise it stays as it is in every continuation |
| Callbacks.InMemoryCallbackInboxStore.IngestRecord | railone_callbacks/store.py:36-63 | the first delivery under an identifier is kept, a repeat is recognised, another body is refused |
| Callbacks.InMemoryCallbackInboxStore.Mark | railone_callbacks/store.py:65-77 | marks once, refuses an unknown identifier |
| Callbacks.EvidenceIsTheDispatchedAmount | railone_callbacks/mpesa.py:277-298 | a success with receipt is believed exactly when the dispatched minor amount is a hundred times the reported one, as number or as text |
| CallbackAnswers.RefusedExactly | railone_callbacks/mpesa.py:124-139 | a callback enters the inbox exactly when its conversation is the submission's, its originator the one on record and, for a success, transaction id, amount and receipt prove it |
| CallbackRuns.RunKeepsInv | railone_callbacks/mpesa.py:97-213 | every order, repetition and interleaving of one attempt's callbacks with crashes keeps inbox, plan, attempt and handlers consistent |
| CallbackTheorems.CreatedIsInFlight | railone_execution/store.py:89-119 | in every reachable execution state an attempt without outcome is the one its active plan has in flight |
| CallbackTheorems.ResultDecides | railone_callbacks/mpesa.py:143-209 | after any run nothing, or only time-outs, or exactly one RESULT as the last outcome was recorded, and attempt state and plan status are those of the first RESULT body |
| CallbackTheorems.SameResultSameEnd | railone_callbacks/mpesa.py:143-209 | two runs that kept the same RESULT body end in the same attempt state and plan status |
| CallbackTheorems.ResultIsFinal | railone_callbacks/mpesa.py:150-163 | once the RESULT is recorded no callback changes plan or attempt |
| CallbackTheorems.DeliveryCloses | railone_callbacks/mpesa.py:97-213 | after any run, crash or replay a RESULT delivery with the kept body closes the attempt as that body says |
| CallbackTheorems.LateOrForgedChangesNothing | railone_callbacks/mpesa.py:138-163 | a TIMEOUT after the RESULT and another body under a kept identifier change neither plan nor attempt |
| CallbackAnswers.FailedResultEnds | railone_callbacks/mpesa.py:183-209 | after any run a failed RESULT fails the attempt under its code; a code outside the retryable ones fails the plan, one among them leaves it active exactly while attempts and an affordable route are left; the answer names the same disposition |
| CallbackAnswers.SuccessEnds | railone_callbacks/mpesa.py:164-182 | after any run a success finalizes the plan on the attempt's route and is answered as confirmed, or as not settled |
| CallbackAnswers.TimeoutEnds | railone_callbacks/mpesa.py:150-163 | after any run a TIMEOUT makes an attempt without outcome unresolved and its plan wait for evidence, leaves an unresolved one, and conflicts with an outcome |
| CallbackService.MpesaCallbackProcessor.ProcessCallback | railone_callbacks/mpesa.py:97-213 | new inbox, new execution store and answer, in every branch; what they are is CallbackAnswers.FailedResultEnds, SuccessEnds and TimeoutEnds |
| CallbackService.MpesaCallbackProcessor.RejectForged | railone_callbacks/mpesa.py:111-121 | an unauthenticated delivery leaves a rejected inbox record and nothing else |
| CallbackService.UninterruptedHandlerProcesses | railone_callbacks/mpesa.py:97-213 | a handler nobody interrupts does exactly what the processor does |
| Notifications.InMemorySettlementNotificationStore.Commit | railone_notifications/store.py:34-54 | one evidence per UTT with both messages, replay answered from the store, conflicts refused |
| Notifications.InMemorySettlementNotificationStore.Transition | railone_notifications/store.py:63-72 | existence and version checks in order, then the row is written |
| Notifications.SettlementNotificationService.ConfirmProviderSettlement | railone_notifications/service.py:74-134 | the new store and answer in every branch; what they hold is NotificationTexts.ConfirmStoresBothSides |
| Notifications.SmsOutboxRelay.Deliver | railone_notifications/service.py:190-232 | the new store, the answer and whether the gateway was reached |
| Notifications.SmsOutboxRelay.Finish | railone_notifications/service.py:234-243 | one version on from the row it was decided on, or a refusal |
| NotificationRuns.RunKeepsInv | railone_notifications/service.py:74-243 | every interleaving of execution, confirmers and SMS relays with crashes keeps evidence, messages and send rights consistent |
| NotificationTheorems.SettledOnce | railone_notifications/service.py:74-134 | stored evidence belongs to a finalized plan, names its only successful RTT and has exactly one sender and one receiver message |
| NotificationTheorems.SettlementsStay | railone_notifications/store.py:34-54 | evidence never changes, its plan stays finalized with the same winner, and SENT, REJECTED and UNKNOWN are absorbing |
| NotificationTexts.EachSideGetsItsText | railone_notifications/service.py:136-188 | in every run evidence carries the identity and instant of the request that was confirmed, the row of each side that side's contact and text, and the gateway is only handed a side's own text for its own contact |
| NotificationTexts.TextsStay | railone_notifications/store.py:63-72 | contact, text, role and transaction of a stored message never change in any continuation |
| NotificationTexts.ConfirmStoresBothSides | railone_notifications/service.py:74-188 | after any run an accepted confirmation stores the evidence of its request naming the attempt on record and exactly two fresh messages, sender's contact and text for the sender, receiver's for the receiver |
| NotificationTexts.SmsStatesAreReplies | railone_notifications/service.py:190-243 | in every run a message is SENT or REJECTED only in the gateway's own words about it, with code and reference, and UNKNOWN says why |
| NotificationTexts.DeliverRecordsTheReply | railone_notifications/service.py:190-243 | every branch of deliver by the row's state and the gateway's reply: new state, code, reference, and whether it was handed over |
| NotificationTheorems.ReplayAnswersStored | railone_notifications/store.py:36-45 | a second confirmation is answered from the store exactly when its request is proper and its identity matches, and never changes anything |
| NotificationTheorems.SettlesIffUnpadded | railone_notifications/service.py:93-103 | a finalized plan without evidence is settled if and only if the request is proper and the identifier its success was reported under had no surrounding blanks |
| NotificationTheorems.SentAtMostOnce | railone_notifications/service.py:190-243 | the gateway is handed each notification at most once, and no row claims an answer it did not get |
| NotificationTheorems.UninterruptedRelayDelivers | railone_notifications/service.py:190-243 | a relay nobody interrupts does exactly what deliver does, sends included |
| NotificationTheorems.UninterruptedConfirmerConfirms | railone_notifications/service.py:74-134 | a confirmer nobody interrupts does exactly what confirmation does |
| CallbackSettlement.RunKeepsInv | railone_callbacks/mpesa.py:97-213 | every interleaving of handlers for any RTTs with execution, other confirmers and SMS relays keeps what handlers hold and what is marked applied consistent |
| CallbackSettlement.AppliedSuccessIsSettled | railone_callbacks/mpesa.py:164-213 | a success RESULT marked applied belongs to an RTT that succeeded, and with a settlement service configured its transaction has evidence that this callback brought, naming the only winner, with exactly one message to each side |
| CallbackProgress.DeliverySettlesIffMarked | railone_callbacks/mpesa.py:97-213 | after any run a believed success for an RTT without final outcome closes it and is marked, and settles it exactly with a settlement service configured, if the plan's in-flight marker is the RTT's own identifier; if not nothing is recorded, settled or marked |
| History.CursorRoundTrip | railone_history/service.py:334-349 | a cursor read back is its key exactly when the identifier starts with UTT-, and is refused otherwise |
| HistoryTheorems.RunKeepsOk | railone_history/store.py:44-67 | after any index calls index and links agree, every link has its own subject and at least one role, and nothing stored is lost or rewritten |
| HistoryTheorems.LinksAreAggregated | railone_history/service.py:80-130 | the indexer makes one link per subject, in order, with at least one role |
| HistoryRoles.RolesExactly | railone_history/service.py:80-150 | the indexer gives each subject exactly the roles it plays in the transaction |
| HistoryRoles.EveryLinkTellsItsRoles | railone_history/service.py:56-130 | after any index calls what is stored is the transaction's own hash, details and acceptance, and its links give each subject exactly its roles, once each, in order |
| HistoryRoles.IndexAcceptsExactly | railone_history/service.py:56-130 | an index call is accepted exactly when its transaction is found, verifies, names no blank and no unknown party and is stored with the same content or has a subject |
| HistoryRoles.IndexStoresExactly | railone_history/store.py:44-67 | an accepted call stores what its transaction tells, once; a second time changes nothing |
| HistoryTheorems.ListingIsExact | railone_history/store.py:83-102 | a listing misses no linked row, fails no lookup, shows each stored identifier once, strictly newest first |
| HistoryPaging.NextCursorIsHonoured | railone_history/service.py:242-260 | the cursor of a page is honoured by any later store exactly when the page ends on a transaction identifier |
| HistoryPaging.PagingIsComplete | railone_history/service.py:242-260 | following the cursors while more is indexed gives strictly descending rows, never breaks, finishes within a bounded number of pages and shows every row present at the start exactly once |
| HistoryAccess.ListedIsReadable | railone_history/service.py:162-193 | a listed row opens through get_by_utt with the same context, transaction and at least the same roles if and only if its identifier was indexed without surrounding blanks |
| HistoryAccess.PaddedIdentifierDoesNotOpen | railone_history/service.py:56-67 | indexing a padded identifier succeeds and lists a row that its own identifier does not open |
| HistoryAccess.ListsOnceIffOneSpelling | railone_history/store.py:83-102 | after any index calls every listing shows each transaction once if and only if none was indexed under two spellings |
| HistoryAccess.ReindexListsOnceIffUnpadded | railone_history/service.py:56-67 | indexing an indexed transaction again keeps one row per transaction if and only if the identifier is given without surrounding blanks |
| HistoryRoles.GetExactly | railone_history/service.py:162-193 | after any index calls a stored transaction is shown exactly to a privileged reader with a reason and to a holder of a linked subject, with exactly the roles of the links the reader may see |
| HistoryRoles.ListExactly | railone_history/service.py:213-260 | blank subject, limit, missing reason, foreign subject and unreadable cursor are refused in this order; otherwise the first rows of the listing from the cursor on, and the cursor of the last |
| HistoryService.InMemoryTransactionHistoryStore.CommitProjection | railone_history/store.py:44-67 | replay, conflict and malformed links as the function on values says; otherwise projection, links and index are written together |
| HistoryService.InMemoryTransactionHistoryStore.ListForSubject | railone_history/store.py:83-102 | the sorted listing, whatever order the set is walked in |
| HistoryService.TransactionHistoryService.GetTransaction | railone_history/service.py:162-193 | the answer of get_by_utt in every branch |
| HistoryService.TransactionHistoryService.ListTransactions | railone_history/service.py:213-260 | the page of list_by_subject in every branch |
| HistoryService.UttTransactionIndexer.IndexTransaction | railone_history/service.py:56-130 | refusals in order, then the projection and its links are committed |
| HistoryService.UttTransactionIndexer.LinkSubjects | railone_history/service.py:117-129 | the links of a role table, whatever order it is walked in |
| RateLimit.InMemoryRateLimitStore.ConsumeOne | railone_api/guard.py:71-88 | the new window and decision, or the policy error and nothing changed |
| RateLimit.LimitHolds | railone_api/guard.py:71-88 | a window admits at most the limit, a closed stretch of one window length at most twice the limit, and a call at or after the announced reset is admitted however many were refused |
| RateLimit.EveryCallIsDecided | railone_api/guard.py:71-88 | every call of the scope is decided, the first admitted, and each admitted exactly while its window has not counted beyond the limit, with what remains and when it resets |
| RateLimit.PoliciesAreBounded | railone_api/guard.py:242-250 | a policy is refused exactly outside 1 to 10000 calls and 1 to 3600 seconds, and a call never touches another scope |
| Contracts.InMemoryContractStore.ResolveIdempotency | railone_contracts/store.py:66-77 | the stored contract of a key, nothing, or a refusal for other request material |
| Contracts.InMemoryContractStore.Commit | railone_contracts/store.py:79-105 | the three maps are written together or not at all, races answered with the winner |
| Contracts.QuoteAcceptanceService.AcceptQuote | railone_contracts/acceptance_service.py:49-180 | the new store and answer in every branch, the refusals of the authority service and the signer included |
| Contracts.AcceptedExactlyOnce | railone_contracts/acceptance_service.py:72-180 | over every interleaving the three maps correspond one to one, all answers for a key are one contract, a quote has one UTT, and each contract was accepted while its quote was live |
| Contracts.ContractsStay | railone_contracts/store.py:79-105 | a stored contract is never changed or removed |
| ContractTheorems.AcceptExactly | railone_contracts/acceptance_service.py:49-180 | every branch of accept, written out: refusals in order, the key's earlier contract, or the contract of the trimmed request under key, quote and UTT |
| ContractTheorems.ContractsAreAsAccepted | railone_contracts/acceptance_service.py:72-180 | in every interleaving a stored contract has the quote, origin, instant and lifetime of its request, accepted while its quote verified, was live and fitted its origin |
| Contracts.UninterruptedCallerAccepts | railone_contracts/acceptance_service.py:49-180 | a caller nobody interrupts does exactly what accept does |
| Identity.InMemoryIdentityRepository.SaveBundle | railone_identity/continuity.py:119-129 | refuses a known fingerprint or identifier, otherwise starts both maps and the history |
| Identity.InMemoryIdentityRepository.Append | railone_identity/continuity.py:131-183 | the checks in order, then history and both maps advance together |
| Identity.IdentityContinuityService.OnboardIdentity | railone_identity/continuity.py:208-288 | the stored bundle if the fingerprint is known, otherwise the first bundle |
| Identity.IdentityContinuityService.ReviseIdentity | railone_identity/continuity.py:301-369 | the next revision of an identity that is known and not revoked |
| Identity.EveryIdentityIsWhole | railone_identity/continuity.py:119-183 | under concurrent revisions each history is exactly revisions 1 to n with distinct attestations, both maps hold one bundle whose active revision is the last, and nothing follows a revocation |
| Identity.IdentitiesContinue | railone_identity/continuity.py:336-369 | the genesis anchor never changes, histories only grow, REVOKED is absorbing |
| IdentityTheorems.OnboardExactly | railone_identity/continuity.py:208-288 | every branch of onboard after any run, the first bundle written out |
| IdentityTheorems.ReviseExactly | railone_identity/continuity.py:301-369 | every branch of revise after any run: the next revision, written out, of an identity that is known, not revoked and not yet attested so |
| Identity.UninterruptedCallerWrites | railone_identity/continuity.py:208-369 | a caller nobody interrupts does exactly what onboard or revise does |

## Left out

- PostgreSQL stores and migrations: they state the in-memory stores' compare-and-swap and uniqueness rules in SQL.
- HTTP, OAuth and broker transports, the API facade, the development server: they carry requests to the modelled services and answers back.
- Ed25519, SHA-256, HMAC and AES-GCM: signatures are an abstract pair, a digest stands for its material; digest collisions do not occur in the model.
- Sandbox broker: a simulator of partner institutions driven by ticks, with a lease store like the outbox's.
- Certification: tables of expected outcomes and reports over them. Institution registries, partners and authority issuing: lookups of registered endpoints, manifests and signed grants by field.
- Earlier snapshots of the code (`step_01` to `step_10`): only the root packages are modelled.
- ExecutionService.ExecutionPlanningService.BuildPlan: the contract store and the signature verdict enter as a table, the plan identifier as a parameter.
- ExecutionService.RttAttemptService.StartNext: the contract store, the endpoint validator and the signer enter as their answers, the generated identifier as a parameter.
- OperationsService.ProviderSubmissionCoordinator.Dispatch: the dispatch after prepare's checks; DispatchRtt adds them. Provider, idempotency key and request digest are parameters, the signer enters as its answer for each event, and the runs let any request be prepared, which allows more than the program does.
- OperationsService.ProviderSubmissionCoordinator.DispatchRtt: the signer enters as its answer for each event.
- OperationsService.ProviderSubmissionCoordinator.Complete: the signer enters as its answer for the event.
- Projection.ReadModelMirrorsRecord: the verdict on a delivered signature enters with the delivery; takes as given that no two RTTs share a submission identifier and that event identifiers are not empty, both being content digests.
- OperationsService.DispatchFinishes: takes as given that different events have different content identifiers; so do the PaymentTheorems that exhibit a continuation.
- PaymentTheorems.AnotherCallIffActive: the unused identifier and key of the next RTT are parameters.
- OperationsService.OutboxRelay.PublishOne: the name of the exception a publisher raises is one fixed text.
- `find_by_external_reference` returns the first match; the callback models start from the submission it returned.
- CallbackService.MpesaCallbackProcessor.ProcessCallback: a body enters as its normalized record, and the settlement step as whether it accepts; CallbackSettlement has the settlement step itself.
- CallbackRuns and CallbackTheorems follow the callbacks of one RTT while nothing else reports on it; CallbackSettlement interleaves them with everything.
- ExecutionBudget.CommitsAreBounded: stated over whole operations, because a stale report can be committed again.
- Notifications.SettlementNotificationService.ConfirmProviderSettlement: the UTT, its signature verdict, the signer's answer for the evidence and the rendered texts enter with the request.
- Contracts.QuoteAcceptanceService.AcceptQuote: the authority service and the signer enter as their answers; a contract carries the quote it came from.
- Identity.IdentityContinuityService.OnboardIdentity: the attestation verifier enters as its verdict, key derivation as a function; Unicode normalisation is not modelled.
- Identity.IdentityContinuityService.ReviseIdentity: the attestation verifier enters as its verdict, key derivation as a function; Unicode normalisation is not modelled.
- Text: `strip` removes every Unicode white space; `upper` and `isdigit` are modelled on ASCII; lone surrogates and CPython's limit on very long decimal literals are not modelled.
- Cursors that another party wrote with unusual integer spellings (`+5`, `1_000`, spaces): only plain decimals are read.
- SMS wording, ISO 20022 building, access and API audits, wall-clock defaults: message texts and instants are parameters; audits are not stored.
- RateLimit.LimitHolds: for a scope that keeps one policy; a policy change in the middle of a window is outside the theorem.
- Threads and locks: one locked block is one step.
