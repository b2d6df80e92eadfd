# A writing studio's generation, storage and export core, modelled in Dafny

The repository is a writing studio: drafts are generated by language models, reviewed, and kept as chapters; context
is selected for prompts; audio queues, chapter identities and exports live in files that several processes share. This
project models the parts of it whose correctness depends on interleavings, crashes, budgets or exact transformations,
and proves what they promise.

`dafny verify dfyconfig.toml` checks the whole project.

## How it is organised

- `Wrappers.dfy`, `Json.dfy`, `Text.dfy`, `Sorting.dfy`: results, JSON values with Python's equality and hashing,
  decimal text and line splitting, stable sorting and sorted sets.
- `GenerationJob.dfy`, `ReviewProtocol.dfy`, `ReviewSafety.dfy`, `JobManager.dfy`: one generation job. Each atomic block
  of the manager is a function on a copy of the job and the durable record. `ReviewProtocol` interleaves these blocks
  for any number of managers, with crashes and lost writes; `JobManager` has the methods themselves, updating objects,
  proved equal to compositions of the same blocks; `ReviewRuns` connects the two. `ReviewOutcomes.dfy` says, status by
  status, what each call leaves in copy and record.
- `Admission.dfy`: the idempotency store, its keys, keyed admission as a step system, and the endpoint as a method.
- `GenerationRun.dfy`, `EventStream.dfy`: the worker's route and event loops, and an observer following the output.
- `AudioStore.dfy`, `AudioRuns.dfy`: the audio file, its two kinds of save, and `mutate` under any interleaving.
- `ChapterIdentity.dfy`: the chapter ledger.
- `ContextPack.dfy`, `ContextPackLaws.dfy`, `ContextPackExact.dfy`, `ContextPackBuilder.dfy`, `ContextPolicy.dfy`,
  `SourceControls.dfy`, `SourceControlOutcomes.dfy`: context selection under a budget, by authority, and by the author's
  own exclusions.
- `Document.dfy`, `DocumentGrammar.dfy`, `DocumentCopy.dfy`, `Markdown.dfy`, `MarkdownExact.dfy`: the document
  validator, the schema a second time as a grammar, the projections, duplication, and the Markdown layout with readers
  that undo it.
- `Resources.dfy`, `JsonCompare.dfy`: export resources and the comparison of two storage backends.

A component that updates state has its functions first, then the laws about them, then the methods with the loops of
the source, each proved to compute its function. A projection of a document is a function whose precondition is what
the validator establishes; every lookup in it is shown to be defined, except the start of a list, whose failure is part
of the result. What a thread, a callback, a provider, a
clock or a disk decides is a parameter of the step in which it matters.

## Where the code does not do what its comments promise

Each of these is proved: the exact condition, and where the code fails it, an input.

- A durable review decision can be replaced. A manager that starts while another manager's worker is running marks its
  own copy failed; a refused accept refreshes that copy to GENERATING; after the first manager has accepted, cancelling
  through the second one saves CANCELLED over the claim. It happens exactly by a saved cancel from such a copy, and
  never when managers do not list the store beside a running worker (`app/jobs.py:444-456`, `app/jobs.py:1436-1447`).
- `reserve` accepts a number that is not positive under any typed token, and a number under another number's numeral.
  Both make the loader refuse the project's ledger from then on (`app/chapter_identity.py:155-164`).
- The policy drops items by source, id and version, so an item without any disagreement goes with an overruled
  neighbour of the same version; and a contradiction under the empty fact key is never reported
  (`app/context_policy.py:56`, `app/context_policy.py:64-65`).
- Slicing never brings a text within the chunk limit: its pieces are within it exactly when the text was before, because
  the width is taken of the text and the cost of its quoted form (`app/context_pack_v2.py:115-122`).
- A listed resource row that carries its own true "unreferenced" field is left out of the referenced list although the
  document refers to it (`app/industry_export_formats.py:417`).
- `differences` does not tell a truth value from the number it equals, nor an integer from a decimal that rounds to it,
  and normalising twice can give another value (`app/compare_context_backends.py:19-49`).
- The start of a bullet list is read and not validated: an accepted document in which it is neither absent, nor an
  integer, nor a truth value makes the Markdown conversion raise a TypeError (`app/document.py:105`, `app/document.py:180`).
- The rendered code fence is not read back as it was for a language with a backtick, a line end, or a blank at either
  side (" py" comes back trimmed), nor for a text with a carriage return anywhere (`app/document.py:171-174`).
- A caller's idempotency key can spell another request's authority digest and key; once that request has a receipt, the
  unscoped lookup finds it and turns the caller away (`app/api.py:1511-1517`).
- The strict read of receipts takes damage for damage, but a write by another endpoint replaces a text that is not JSON
  by its own record, and from then on the lost receipts read as free (`app/idempotency.py:35-37`).

## What is assumed

- A lock shared by processes excludes them, replacing a file is atomic, JSON text round-trips, canonical JSON tells
  different values apart, digests have a fixed length, and fresh identifiers are arbitrary but used as the code checks
  them. Where two digests must differ the theorem says which, and asks for no more than that. In the runs of the
  admission nothing outside the program damages the document.
- Authority, ownership and privacy checks answer yes or no at each place they are consulted. Expiry is decided anew at
  every look.
- Strings are sequences of Unicode scalar values; numbers are exact, and the rounding of decimals to floats is arbitrary.
- The reader of a code fence follows section 4.5 of CommonMark 0.31.2 for fences and lines; backslash escapes and
  entities in an info string are outside it, so a language that holds them counts as read back when its text is.

## Model

| member | source | states |
|---|---|---|
| ReviewProtocol.StepInv | app/jobs.py:760-1093 | One step of any manager, worker, recovery or crash keeps the invariant that ties every in-memory copy, the durable record and the lock holder to what has happened so far |
| ReviewSafety.ReachableInv | app/jobs.py:760-1818 | The invariant holds in every state any run can reach |
| ReviewSafety.AtMostOneDecision | app/jobs.py:1536-1603 | Over every interleaving of managers, workers, accepts, rejects, recoveries and crashes, the chapter-writing body of accept is entered at most once, at most one claim or rejection is ever saved, and a durable decision is the one that was saved |
| ReviewSafety.DecisionMeansWhatItSays | app/jobs.py:1594-1755 | In every reachable state a stored ACCEPTED means that the body of accept ran once and to its end, a stored ACCEPTANCE_UNCERTAIN that it was entered, and any claim or rejection that a completion had been stored |
| ReviewSafety.DecisionsNeverMix | app/jobs.py:1785-1818 | After a durable rejection no later run enters the accept body; after the accept body ran once it never runs again and no rejection becomes durable; a decided record never reads completed again |
| ReviewSafety.DecisionOverwrittenExactly | app/jobs.py:1436-1456 | A step changes a durable decision if and only if it is a cancel, saved by a manager other than the worker's own, from a copy that still reads as executing |
| ReviewSafety.DecisionCanBeOverwritten | app/jobs.py:1436-1456 | Such a step is reachable: a run in which the chapter is written and the accept claim is then replaced by CANCELLED |
| ReviewSafety.CopiesStayFresh | app/jobs.py:444-498 | If no manager lists the store while a worker runs, no copy outside the worker's manager ever reads as executing |
| ReviewSafety.DecisionPermanentWhenLoadsWait | app/jobs.py:1536-1603 | In every run of that kind a durable decision is never replaced, whatever comes later |
| ReviewSafety.DecisionPermanentFromStart | app/jobs.py:1536-1603 | From the start of a job: in such a run the decision held at any point is the one held at the end |
| ReviewSafety.AccountedBeforeReview | app/jobs.py:1021-1093 | The terminal hook runs at most once under racing finalizers, and a durable completion or decision of a job with hooks carries the result of a hook that ran and returned |
| ReviewSafety.RecoveryRewritesOnlyExecuting | app/jobs.py:460-498 | Recovery changes the store only by a record it read as executing, which it saves as failed, and only while nothing completed or decided is stored; once something was completed it does not begin |
| ReviewSafety.InterruptedSettlementIsFinal | app/jobs.py:477-486 | A settlement interrupted by a restart fails for good: no later run claims or rejects it |
| JobManager.Manager.CancelExecution | app/jobs.py:1436-1447 | Sets and saves CANCELLED exactly when the job is not in a terminal status; otherwise copy and record are untouched |
| JobManager.Manager.Cancel | app/jobs.py:1448-1457 | Raises the signal first, then cancels; a terminal job keeps its status and its record |
| JobManager.Manager.CallTerminalHook | app/jobs.py:1021-1093 | Calls the hook only if it was never called and nothing was reported, and leaves the copy with its result |
| JobManager.Manager.FinishTerminalHook | app/jobs.py:1021-1093 | The call and the saving of its result together |
| JobManager.Manager.Publish | app/jobs.py:1242-1343 | The worker's block under the review lock equals its specification: settling, hook, last authorization check, completion, and the uncertain ending when a save fails |
| ReviewOutcomes.PublishedExactly | app/jobs.py:1242-1343 | The draft is COMPLETED in copy and record, with its accounting, exactly when neither the signal, nor an authorization check, nor the hook, nor one of the three saves stops it |
| ReviewOutcomes.PublicationEnds | app/jobs.py:1242-1343 | The status in which every publication ends: CANCELLED by the signal or a hook that cancels, untouched when authorization is gone at entry, else COMPLETED undisturbed and FAILED disturbed |
| ReviewOutcomes.UnconfirmedCompletion | app/jobs.py:1324-1338 | A completion whose last save raised leaves a FAILED copy marked as of uncertain persistence, the same in the record when the save after it committed, and no accept takes it up |
| ReviewOutcomes.RefusedPublication | app/jobs.py:1261-1323 | Authorization gone during the hook or at the last look leaves the job FAILED in copy and record, and not as of uncertain persistence |
| ReviewOutcomes.HookReported | app/jobs.py:1021-1093 | What the copy and the record report of the accounting after the hook had its chance: nothing, MISSING, COMPLETED, FAILED or UNCERTAIN, by what is required, what ran and what was saved |
| ReviewOutcomes.WorkerGoesOn | app/jobs.py:1119-1126 | The worker goes on exactly while the job is live, not cancelled and its saves succeed; the status it leaves in copy and record otherwise |
| ReviewOutcomes.StartReads | app/jobs.py:816-835 | A job starts with its record saved as QUEUED or not at all; a thread that does not start leaves it FAILED with its hook and one more save to come |
| ReviewOutcomes.CancelNeedsSignal | app/jobs.py:1436-1457 | No copy is cancelled without the signal, and then only a live one |
| ReviewOutcomes.FailureSettles | app/jobs.py:1344-1358 | A failure ends a live job as FAILED, unless the signal and not a bound ended it, and no other job |
| ReviewOutcomes.RecoveredReads | app/jobs.py:460-498 | A live record is FAILED after recovery, an interrupted settlement with its accounting MISSING; any other record stays as it is |
| JobManager.Manager.Restore | app/jobs.py:460-498 | The copy built from a record and the record left behind, for every status found |
| JobManager.Manager.ReadForAccept | app/jobs.py:1550-1586 | The gates before and after the durable re-read, and when the claim may be written |
| JobManager.Manager.Accept | app/jobs.py:1536-1603 | The whole accept equals its specification; the chapter-writing body is entered exactly when the call reports done or uncertain; done leaves ACCEPTED in copy and record, uncertain ACCEPTANCE_UNCERTAIN in the copy and, if its save committed, in the record |
| ReviewOutcomes.AcceptedExactly | app/jobs.py:1550-1603 | An accept is refused, or stopped at its claim, or done, exactly under the conditions named: gates, base version, the status and the accounting of record and copy, and each save |
| ReviewOutcomes.AcceptOutcome | app/jobs.py:1588-1755 | The status each of the four endings leaves in copy and record, whatever was saved |
| ReviewOutcomes.RefusedAcceptRefreshes | app/jobs.py:1560-1586 | An accept that gets as far as the record takes it over into the copy even when it then refuses |
| JobManager.Manager.Reject | app/jobs.py:1785-1818 | The whole reject equals its specification, with every refusal, and a done one leaves REJECTED in copy and record |
| ReviewOutcomes.RejectOutcome | app/jobs.py:1785-1818 | A rejection is done exactly when the gates are open, copy and record are completed and accounted, and the save succeeds; REJECTED is then stored, and a refusal changes nothing |
| ReviewRuns.AcceptIsARun | app/jobs.py:1536-1603 | An uninterrupted accept is a run of the step system and ends with the lock free, so the theorems on runs speak about the method |
| ReviewRuns.RejectIsARun | app/jobs.py:1785-1818 | The same for reject |
| ReviewRuns.PublishIsARun | app/jobs.py:1242-1343 | The same for the worker's publication |
| GenerationRun.AtMostOneStream | app/jobs.py:1142-1236 | In every ordinary run at most one event stream is opened, it is that of the last route tried, every earlier route failed before dispatch, locally, unrefused and not chosen by name, and partial drafts are never combined |
| GenerationRun.HandedExactly | app/jobs.py:1117-1270 | For every run: the draft goes to publication exactly when nobody interfered, every route before one was passed over, that one's events were all authorized, in order, within the bounds and completed, and the last look under the lock found the request authorized; and the draft is then that stream's deltas |
| GenerationRun.RefusedAtLockDiscards | app/jobs.py:1242-1355 | A run refused only at the last look is not handed over and its output is gone |
| GenerationRun.RefusedEventDiscards | app/jobs.py:1182-1355 | The first event whose authorization is refused ends the run and discards what came before it |
| GenerationRun.BrokenStreamKeepsDraft | app/jobs.py:1182-1356 | A stream that breaks, ends without a completion, or is failed by its provider leaves what came before it to be looked at |
| GenerationRun.UnsavedDeltaKeepsDraft | app/jobs.py:837-841 | So does a delta that could not be saved, that delta included |
| GenerationRun.BoundBrokenInStream | app/jobs.py:332-378 | The first event that breaks a bound ends the run and discards the draft, unless it is the bound itself that cannot be read |
| GenerationRun.LateFailure | app/jobs.py:1237-1240 | After a good stream, a snapshot or a review that raises leaves the draft, and a bound that no longer holds takes it away |
| GenerationRun.UnreadyRouteStops | app/jobs.py:1142-1181 | A route that is not ready and may not be passed over is the last one tried: nothing was sent and the job failed |
| GenerationRun.NoRouteLeft | app/jobs.py:1142-1236 | A signal before a route leaves it untried, and a list of routes all passed over leaves a failed job without a stream |
| GenerationRun.BoundsCheckedExactly | app/jobs.py:332-378 | The check raises exactly when a bound is not kept, and what it discards |
| GenerationRun.BytesAreUtf8 | app/jobs.py:369-374 | The size a bound counts is the number of bytes of the UTF-8 encoding, as in section 3 of RFC 3629 |
| GenerationRun.CompletedIsOneStream | app/jobs.py:1142-1270 | What goes to publication is exactly the concatenation of that one stream's deltas, within the UTF-8 byte bound when one is set, with no bound broken |
| GenerationRun.EveryRunEnds | app/jobs.py:1117-1361 | No run is left hanging: whatever is raised, refused or cancelled before, between or inside the streams or at the last look under the lock, the job is terminal when the worker leaves it, or else its draft goes to publication |
| GenerationRun.StreamHoldsPrefix | app/jobs.py:1181-1226 | However a stream ends, the draft is empty or a prefix of its deltas |
| GenerationRun.BrokenBoundDiscards | app/jobs.py:332-378 | Once a bound is broken the draft is empty, the signal is set and the stream is over |
| GenerationWorker.Job.CheckGenerationBounds | app/jobs.py:332-378 | The bound check on the live job equals its specification, including what it discards |
| GenerationWorker.Job.EmitDelta | app/jobs.py:837-841 | A delta is appended only to a job that is neither cancelled nor terminal |
| GenerationWorker.Job.HandleEvent | app/jobs.py:1182-1225 | One event under the job's condition equals its specification, with what other threads do in between |
| GenerationWorker.Job.ReadStream | app/jobs.py:1181-1226 | The event loop computes the stream's outcome |
| GenerationWorker.Job.RunRoutes | app/jobs.py:1142-1236 | The route loop computes which routes are tried, which stream is opened, and how it ends |
| GenerationWorker.Job.Work | app/jobs.py:1117-1361 | A whole worker run up to publication, with the handler around it, equals the specification of which `HandedExactly` says when it hands over |
| EventStream.ReceivedIsPrefix | app/jobs.py:1505-1535 | For every schedule of appends, discards, cancellations, endings and polls, what an observer received is a prefix of the longest output: nothing twice, nothing skipped |
| EventStream.CompletedStreamIsWhole | app/jobs.py:1505-1535 | A stream that ends on COMPLETED has delivered the whole output |
| EventStream.OffsetIsExact | app/jobs.py:1505-1535 | While the stream is live and the output was not dropped, the observer has exactly the output up to its offset |
| EventStream.Stream.Turn | app/jobs.py:1513-1535 | One turn of the generator's loop equals its specification, with all four availability checks |
| EventStream.TurnExactly | app/jobs.py:1513-1535 | After any run, a turn sends the whole rest of the output exactly when the observer listens, something is due and all four looks find it available, and it ends the stream exactly when a look that is made fails or a terminal status was sent |
| EventStream.FollowedToTheEnd | app/jobs.py:1513-1535 | A draft in two parts followed to its end: the observer gets both and COMPLETED once the account is settled |
| EventStream.DiscardedForGood | app/jobs.py:837-841 | Nothing follows a discarded draft or a terminal status, and a failure that keeps its draft is shown with it |
| Admission.AtMostOneDispatch | app/api.py:1507-1623 | Over every run with crashes, lost or committed-then-raised writes, expiry and other endpoints writing: a key starts at most one job, all its successful responses name that job, and no request with another digest starts or receives anything |
| Admission.NothingWithoutAuthority | app/api.py:1518-1623 | A step adds a start only if the authority was confirmed for it, and a reply only if authority and, for a held receipt, owner, date, expiry, digest and completeness were |
| Admission.StartFollowsReservation | app/api.py:1597-1607 | Every start finds its own reservation, with its job id and digest, already durable |
| Admission.ReceiptKept | app/api.py:1598-1618 | A receipt is never lost and never comes to name another job or digest, in any continuation |
| Admission.ReservedKeyNeverStartsAgain | app/api.py:1518-1582 | A key whose admission died with a receipt written never starts a job again |
| Admission.StepInv | app/api.py:1505-1624 | One step of the admission protocol, a crash, or a foreign write keeps the receipts consistent with the starts and replies so far |
| AdmissionKeys.ScopedKeyInjective | app/api.py:1463-1464 | Two requests share a receipt exactly when operation, authority digest and key all agree |
| AdmissionKeys.ForeignKeysApart | app/api.py:74-79 | The keys of the other endpoints never meet a generation receipt |
| AdmissionKeys.LegacyHitsScopeExactly | app/api.py:1464-1511 | A caller's unscoped key is another request's receipt key exactly when the operations agree and the caller's key spells that request's authority digest and key |
| Admission.LegacyRefusesExactly | app/api.py:1507-1517 | In any run, a request that nothing else refuses and that finds no receipt of its own is turned away exactly when its unscoped key was stored from the start or it spells a request whose receipt is held |
| Admission.LegacyLookupRefusesAStranger | app/api.py:1507-1517 | A run in which this happens: a second caller's key spells the first request's scope and is turned away although it never had a receipt |
| IdempotencyStore.Store.Retained | app/idempotency.py:38-54 | The strict observation returns what is kept, raises on every damaged file or misshapen record, and evicts nothing |
| IdempotencyStore.Store.Get | app/idempotency.py:55-63 | The ordinary read evicts a stale item and touches no other key; damage it takes for a miss or raises on |
| IdempotencyStore.GetEvictsExactly | app/idempotency.py:55-63 | The read removes exactly the stale item of the key read |
| IdempotencyStore.Store.Put | app/idempotency.py:64-67 | A write touches one key of a readable file, starts anew from text that is not JSON, raises on the other damage, and raising does not tell whether it was committed |
| IdempotencyStore.DamageBecomesMissExactly | app/idempotency.py:35-67 | A write of another key turns what the strict read refused into a miss exactly when the whole text was not JSON |
| GenerateEndpoint.Endpoint.Generate | app/api.py:1505-1624 | A whole keyed request equals the composition of its steps on what the strict reads make of the file, refuses unread what they refuse, gives for each failed check its own refusal, and a successful reply is one more event for that request and job |
| GenerateEndpoint.FreshCallExactly | app/api.py:1583-1623 | For a request that finds its key free: when its job is started, when it is answered with the prepared job, and which receipt it leaves, for every outcome of its three effects and two authority checks |
| GenerateEndpoint.HeldCallExactly | app/api.py:1518-1582 | A request whose key is held starts and writes nothing, and is answered with the recorded job exactly when the receipt is complete, of its digest, dated, not expired, and owner and authority hold |
| GenerateEndpoint.TurnedAwayUnchanged | app/api.py:1505-1590 | A request that finds the store unreadable, its unscoped key held, or its key free but is not itself let pass, changes nothing |
| GenerateEndpoint.Endpoint.Replay | app/api.py:1518-1582 | A held key is answered from the receipt or refused, with the refusal of the check that failed, and nothing is started |
| GenerateEndpoint.Endpoint.Dispatch | app/api.py:1583-1623 | A free key is reserved, started, recorded and answered in that order, with each early exit and the refusal it gives |
| GenerateEndpoint.CallIsARun | app/api.py:1505-1624 | An uninterrupted request is a run of the step system |
| AudioRuns.Linearizable | app/audio_production_store.py:125-140 | Under every interleaving of processes calling mutate and legacy save, the stored state is the committed operations performed one after another in commit order, every committed call got the answer it gets there, and none commits twice |
| AudioRuns.CallsAccounted | app/audio_production_store.py:125-140 | A callback runs at most once per call; an answered call is committed with that answer; a conflicted call ran its callback once and committed nothing |
| AudioRuns.MutateAlone | app/audio_production_store.py:125-140 | What a call that nothing interrupts stores, logs and is answered: its callback's state and result on what it loaded, or the error of the load, the callback or the write |
| AudioRuns.ConflictExactly | app/audio_production_store.py:134-139 | A call ends in a conflict exactly when the file no longer holds what it first loaded, and that step changes nothing |
| AudioRuns.CorruptStays | app/audio_production_store.py:76-84 | A corrupt file is never written by mutate or a legacy save, and no callback runs on it |
| AudioState.LegacySaveKeepsStudio | app/audio_production_store.py:103-123 | Whatever a legacy caller sends, the ordered Studio rows of both lists stay as they were, and afterwards no ordinary row carries a Studio job's identity |
| AudioState.LegacyRunsKeepStudio | app/audio_production_store.py:103-123 | The same for any sequence of legacy saves, failing ones included |
| AudioState.LegacySaveSucceedsExactly | app/audio_production_store.py:103-120 | A legacy save goes through exactly when every Studio job on file has a hashable id and every ordinary row sent has a hashable identifier; a failed one writes nothing |
| AudioState.LegacySaveStores | app/audio_production_store.py:103-123 | On every outcome of the write: a legacy save stores the voices and the dictionary sent and, in both lists, the ordinary rows sent that no Studio job owns, in order, followed by the Studio rows on file; it answers with the same less the Studio rows |
| AudioState.LegacySaveExample | app/audio_production_store.py:103-123 | A payload with a row under a Studio job's identity, a row that claims to be a Studio row, and a row of its own: only the last is written, before the Studio job |
| AudioStore.AudioFile.Save | app/audio_production_store.py:103-123 | The loops of save compute what is stored and what is answered, and leave the file as specified on every failure |
| AudioStore.AudioFile.CollectJobIds | app/audio_production_store.py:111-112 | The set of Studio identities, or the error of the first row without a usable one |
| AudioStore.AudioFile.FilterRows | app/audio_production_store.py:113-117 | The rows of a legacy payload that may be written, in order |
| AudioStore.AudioFile.CommitIfUnchanged | app/audio_production_store.py:134-139 | Compare with the snapshot, then write: the second fenced half of mutate |
| ChapterIdentity.IdentityPermanent | app/chapter_identity.py:209-230 | A public identity that ever resolved to n can later only resolve to n or fail, whatever operations came in between |
| ChapterIdentity.ActiveIdentityStays | app/chapter_identity.py:209-230 | It keeps resolving exactly as long as the ledger loads and its entry is active |
| ChapterIdentity.ResolveExactly | app/chapter_identity.py:209-230 | A token resolves to n exactly when the ledger loads, n is active and n carries the token; a typed token never builds a ledger |
| ChapterIdentity.PublicIdResolves | app/chapter_identity.py:233-236 | The public id of n resolves to n exactly for active n, and never to another number |
| ChapterIdentity.NumbersNeverReissued | app/chapter_identity.py:138-164 | A number once allocated is never offered or reserved again, in any continuation |
| ChapterIdentity.NextNumberIsNew | app/chapter_identity.py:138-152 | A default number lies above every number ever allocated; an offered number is positive and unused |
| ChapterIdentity.NextNumberExactly | app/chapter_identity.py:138-152 | The number offered is the one asked for or the one after the high-water mark, and it is refused exactly when it is not positive, was ever allocated, or has files |
| ChapterIdentity.FirstLookup | app/chapter_identity.py:80-135 | In a project without a ledger: which numbers resolve, which are gone, which were never registered and which are ambiguous |
| ChapterIdentity.AllocationTokenIsFree | app/chapter_identity.py:239-244 | With a complete allocation history the numeral is always free; otherwise a typed token is free exactly when nobody carries it |
| ChapterIdentity.ReserveKeepsValidExactly | app/chapter_identity.py:155-164 | A reservation leaves a ledger the loader accepts exactly for a positive number under its own numeral or a typed token |
| ChapterIdentity.ReserveCanLockTheLedger | app/chapter_identity.py:155-164 | Two reservations that succeed and after which nothing loads any more: number 0 under any typed token, and number 1 under the numeral 2 |
| ChapterIdentity.TransitionKeepsValidExactly | app/chapter_identity.py:167-170 | A transition keeps the ledger loadable exactly for the four states the loader knows |
| ChapterIdentity.DisciplinedRunKeepsValid | app/chapter_identity.py:55-78 | Every run of calls of the kind create and delete make keeps the loader's validity check |
| ChapterIdentity.RunKeeps | app/chapter_identity.py:155-170 | Over every run numbers and tokens are only added, the high-water mark never falls, and a refused ledger is never written again |
| ChapterIdentity.CreateIssuesFreshIdentity | app/repository.py:103-119 | A creation issues an identity nobody ever had, resolvable at once; cut off after the reservation it leaves a valid ledger with the number spent |
| ChapterIdentity.LegacyValid | app/chapter_identity.py:80-122 | The ledger built from legacy evidence passes the loader's check |
| ChapterLedgerFile.LedgerFile.Check | app/chapter_identity.py:65-77 | The loader's loop over the entries decides validity |
| ChapterLedgerFile.LedgerFile.BuildLegacy | app/chapter_identity.py:80-122 | The loop over the evidence builds the legacy ledger |
| ChapterLedgerFile.LedgerFile.LoadLedger | app/chapter_identity.py:55-122 | Loading returns or refuses the ledger, and writes only when none exists |
| ChapterLedgerFile.LedgerFile.RequireActive | app/chapter_identity.py:125-135 | The three ways a number is refused, and no other |
| ChapterLedgerFile.LedgerFile.NextNumber | app/chapter_identity.py:138-152 | Offers or refuses a number without reserving it |
| ChapterLedgerFile.LedgerFile.AllocationToken | app/chapter_identity.py:239-244 | Offers or refuses a token without reserving it |
| ChapterLedgerFile.LedgerFile.Reserve | app/chapter_identity.py:155-164 | Writes exactly one reserved entry, or refuses and writes nothing |
| ChapterLedgerFile.LedgerFile.Transition | app/chapter_identity.py:167-170 | Changes one entry's state and nothing else |
| ChapterLedgerFile.LedgerFile.Resolve | app/chapter_identity.py:209-230 | The imperative resolution equals its specification on every file |
| ChapterLedgerFile.LedgerFile.Create | app/repository.py:103-119 | A whole creation keeps a loadable ledger loadable; its number and token were unused before |
| ContextPackLaws.BuildForgetsOrder | app/context_pack_v2.py:145-188 | For candidates told apart by source, type and canonical content, every permutation gives the same result: winners, chunk order, truncated sources |
| ContextPackLaws.LocalOnlyStaysLocal | app/context_pack_v2.py:141-143 | In a cloud request a local-only candidate influences nothing but the list of omitted ids |
| ContextPackLaws.ChunkHasSource | app/context_pack_v2.py:115-166 | Every returned chunk is a piece of a candidate that was given and, in a cloud request, is not local-only |
| ContextPackExact.PieceReturnedOrTooDear | app/context_pack_v2.py:115-182 | Every piece of every admitted candidate is returned under its text, or costs more than the budget that remains |
| ContextPackExact.AmpleBudgetKeepsAll | app/context_pack_v2.py:168-188 | With room for the whole pool all of it is returned and no source is reported truncated |
| ContextPackExact.DuplicatesExactly | app/context_pack_v2.py:150-166 | The duplicates reported are the pieces of all admitted candidates beyond one for each text |
| ContextPackExact.ScoreExactly | app/context_pack_v2.py:151-155 | The score in points: 1000 for each place of its kind, 100 for each shared term, 500 for a requested character, and the nearness of its chapter |
| ContextPackExact.PriorityExactly | app/context_pack_v2.py:49-56 | The priority is the candidate's own, or the place of its kind in the list of kinds |
| ContextPackExact.ReasonsExactly | app/context_pack_v2.py:156-159 | Each reason is given exactly when the score counts it |
| ContextPackExact.TextsApart | app/context_pack_v2.py:75-76 | Deduplication confuses no two texts: the canonical form of a text reads back as it |
| ContextPackExact.TokensExactly | app/context_pack_v2.py:78-80 | A token for every four characters of the canonical form, begun ones included, and at least one |
| ContextPackLaws.BuildWithinBudget | app/context_pack_v2.py:168-188 | The reported tokens are the sum over the returned chunks and at most the budget |
| ContextPackLaws.PackedMaximal | app/context_pack_v2.py:168-182 | Packing loses and repeats nothing, and every chunk left out costs more than the budget that remains |
| ContextPackLaws.FirstPassOk | app/context_pack_v2.py:168-178 | The first pass stays in budget and every category stays under its floored percentage |
| ContextPackExact.FirstPassTakesExactly | app/context_pack_v2.py:57-178 | Chunk by chunk: one is taken in the first pass exactly when it fits the budget and its category's 35, 25, 20, 15 or 5 hundredths of it |
| ContextPackLaws.TruncatedExactly | app/context_pack_v2.py:183-188 | A source is reported truncated exactly when the id of one of its chunks is borne by no returned chunk, which is, when ids tell chunks apart, when one of its chunks is missing; each missing chunk exceeds the remaining budget |
| ContextPackLaws.PresentedInRankOrder | app/context_pack_v2.py:167-185 | With chunk ids that tell chunks apart, the chunks come back as the ranking with the left-out ones removed |
| ContextPackLaws.LabelsTellChunksApart | app/context_pack_v2.py:115-122 | Ids tell chunks apart whenever no two different admitted candidates have the same upper-cased type and source |
| ContextPackLaws.SharedIdMisplaces | app/context_pack_v2.py:185-185 | Without that the order breaks: a chunk sharing its id with a better one comes back before one that scores higher |
| ContextPackLaws.EarlierScoresHigher | app/context_pack_v2.py:155-185 | With such ids an earlier chunk scores at least as high as a later one |
| ContextPackLaws.BetterKindFirst | app/context_pack_v2.py:49-185 | Of two returned chunks the earlier is of an equal or better kind by default priorities, unless its candidate shares at least four more query terms; at equal priority and overlap a requested character comes before any recency |
| ContextPackLaws.RankingDistinct | app/context_pack_v2.py:158-167 | The pool that is packed is sorted by rank and holds each canonical text once |
| ContextPackLaws.FirstsDistinct | app/context_pack_v2.py:158-162 | Deduplication keeps every text that occurs, once |
| ContextPackLaws.FirstsAreFirst | app/context_pack_v2.py:158-162 | The copy kept is the first one |
| ContextPackLaws.SlicesJoin | app/context_pack_v2.py:115-122 | Joining the slices of a text reconstructs it, and none is wider than asked |
| ContextPackLaws.PiecesWithinLimitExactly | app/context_pack_v2.py:115-122 | The pieces of a candidate are all within the chunk limit exactly when the candidate was before slicing: slicing never brings an oversized text under it |
| ContextPackLaws.SmallTextOverLimit | app/context_pack_v2.py:115-122 | Three characters under a limit of one token stay one piece of two tokens |
| ContextPackBuilder.Rank | app/context_pack_v2.py:150-166 | The nested loops over candidates and slices compute the deduplicated pool and the duplicate count |
| ContextPackBuilder.PackShares | app/context_pack_v2.py:168-178 | The loop of the first pass, with its counter for each category |
| ContextPackBuilder.PackRanked | app/context_pack_v2.py:168-182 | Both passes |
| ContextPackBuilder.BuildPack | app/context_pack_v2.py:124-188 | The whole build, the disabled one included |
| ContextPolicyLaws.BucketsWithinBudget | app/context_policy.py:67-75 | Each bucket reports what its items cost; together they never exceed the budget, and a budget that is not positive emits nothing |
| ContextPolicyLaws.SharesUsedUp | app/context_policy.py:67-75 | The shares are 40, 25, 25 and 10 percent rounded down, and an item is truncated only if it costs more than what is left of its share |
| ContextPolicyLaws.EveryItemAccounted | app/context_policy.py:46-75 | Every given item the request may see is accounted for: the deduplicated items hold its key once, as a multiset they are the omitted (those with an overruled triple), the truncated and the emitted, and the rest are counted as duplicates; a request that is not for the cloud sees all |
| ContextPolicyLaws.NothingLocalLeaves | app/context_policy.py:46-75 | In a cloud request everything emitted or truncated, and every source a conflict names, has the key of a given item that is not LOCAL_ONLY |
| ContextPolicyLaws.OutcomeOfShareable | app/context_policy.py:46-75 | Two lists that agree once their LOCAL_ONLY items are taken out give a cloud request the same outcome |
| ContextPolicyLaws.NoSilentContradiction | app/context_policy.py:53-65 | Two emitted items with the same fact key and different values are reported as an unresolved conflict of that key if and only if the key is not empty |
| ContextPolicyLaws.EmptyKeyIsSilent | app/context_policy.py:56-56 | Two items that give the empty fact key two values are both emitted with no conflict reported, under any policy whose shares hold them |
| ContextPolicyLaws.HigherAuthorityWins | app/context_policy.py:60-65 | Where the higher authority wins, every emitted item of the key has that authority and its one value |
| ContextPolicyLaws.ConflictExactly | app/context_policy.py:53-65 | A key is reported exactly when its items disagree, and as unresolved exactly when the most authoritative disagree |
| ContextPolicyLaws.ConflictNamesSides | app/context_policy.py:60-64 | A conflict names, in order, the sources of the highest authority among the items of its key on one side and the sources of the rest on the other |
| ContextPolicyLaws.OmittedExactly | app/context_policy.py:64-65 | An item is omitted exactly when it shares source, id and version with an overruled item |
| ContextPolicyLaws.CollateralOmission | app/context_policy.py:64-65 | A concrete list in which an item without any disagreement of its own is dropped |
| ContextPolicyLaws.DedupMerges | app/context_policy.py:48-52 | Deduplication leaves one item for each key that occurs, with exactly the reasons given for that key |
| ContextPolicyLaws.DedupKeepsHighest | app/context_policy.py:48-52 | The copy that survives has the highest authority of its key |
| ContextPolicyRun.Deduplicate | app/context_policy.py:48-52 | The loop over the sorted items, with the dictionary of keys |
| ContextPolicyRun.Resolve | app/context_policy.py:56-65 | The loop over the fact keys |
| ContextPolicyRun.FillBucket | app/context_policy.py:68-73 | The loop that fills one bucket |
| ContextPolicyRun.ApplyPolicy | app/context_policy.py:46-75 | The whole application |
| Document.Validate | app/document.py:67-118 | The stack of nodes terminates and accepts exactly the documents in which every node meets the schema |
| DocumentGrammar.DocumentsExactly | app/document.py:21-118 | The accepted documents are exactly those of a grammar that says, kind by kind, which children, attributes and fields a node may have |
| Document.ExpandNode | app/document.py:78-118 | Replacing a checked node by its children keeps the verdict and shrinks the work left |
| Document.PlainTextAddsSeparators | app/document.py:121-154 | Plain text is the document's whole text in order, with one line feed between text blocks and nothing else added |
| Document.BlocksLoseNothing | app/document.py:121-138 | The text blocks of a block, one after another, are all the text inside it |
| DocumentTextLaws.LeavesRead | app/document.py:34-138 | The text of a node is that of its leaves in reading order: texts, line feeds for hard breaks, and for media nothing or the line that says what is not embedded with its descriptions |
| DocumentCopy.DuplicateValid | app/document.py:199-236 | A duplicate of an accepted document is accepted; only its first node is new and every other field stays |
| DocumentCopy.DuplicateMarksHeading | app/document.py:212-236 | The duplicate's heading reads as the original with " Copy" at the end of its first display line and nothing else changed; an empty one reads as the title |
| DocumentCopy.NewHeadingExactly | app/document.py:199-216 | The copy gets a heading of its own, of level one with the title as its text, exactly when the document does not start with a heading whose level is one or is not given |
| DocumentCopy.DuplicateTouchesOneRun | app/document.py:218-236 | At most one text of the heading changes; its other runs are the same nodes with the same marks in the same order |
| CopyMark.EditMarksText | app/document.py:218-236 | The single edit chosen by the scan over the runs marks the heading's whole text |
| CopyMark.FirstLineExactly | app/document.py:228-230 | The first display line ends at the first line boundary, if there is one |
| DocumentCopy.CopyHeadingRun | app/document.py:218-236 | The loop over the runs makes exactly that edit |
| DocumentCopy.DuplicateDocument | app/document.py:199-236 | Refuses exactly the documents that are not accepted, and duplicates the others |
| MarkdownLayout.UnquoteQuote | app/document.py:186-187 | Taking the prefixes off a rendered block quote gives back its content, blank lines included |
| MarkdownLayout.ReadListText | app/document.py:178-184 | Splitting a rendered list and taking off the indents gives back every item's text, whatever nests inside |
| DocumentMarkdown.RendersExactly | app/document.py:88-199 | Conversion succeeds exactly for accepted documents in which every bullet list's start is absent, an integer or a truth value |
| MarkdownExact.DocumentReads | app/document.py:192-196 | A document that has blocks is their renderings set apart by empty lines and two line feeds at the end; of the two refusals the validator's comes first |
| MarkdownExact.BlocksRead | app/document.py:163-178 | A heading is as many number signs as its level, a space and its text; a paragraph its text; a rule three hyphens; media their placeholder |
| MarkdownExact.MarkedLines | app/document.py:179-185 | The lines of each item of a list: its first behind its number from the start, or a hyphen, the others as far to the right |
| MarkdownExact.ItemsNumbered | app/document.py:179-185 | An ordered list counts from its start, or from one where none is given, and each child's rendering is behind its number |
| MarkdownExact.QuotedLines | app/document.py:186-188 | Line by line a quote is what it quotes behind an angle bracket and, unless the line is empty, a space |
| DocumentMarkdown.AcceptedButNotRendered | app/document.py:105-180 | Accepted documents whose conversion raises: a bullet list with any other start, such as a text, which an ordered list is refused for |
| DocumentMarkdown.ListRecovered | app/document.py:163-188 | For every list node of an accepted document with such starts, each child's rendering is recovered exactly |
| DocumentMarkdown.QuoteRecovered | app/document.py:163-188 | For every such block quote, the joined renderings of its children are recovered exactly |
| CodeFence.FenceRoundTrip | app/document.py:171-174 | With a language the first line can carry, the text is recovered exactly when it holds no carriage return, whatever backticks it holds |
| CodeFence.NoLineCloses | app/document.py:171-174 | No line of the text closes the fence |
| MarkdownExact.FenceWidthExactly | app/document.py:171-174 | A fence is of at least three backticks, longer than any run of them in the text, and by one only if longer than three |
| CodeFence.LanguageExactly | app/document.py:171-174 | The language is recovered exactly when it holds no line end, no backtick, and no blank at either side |
| DocumentMarkdown.CodeRecovered | app/document.py:171-174 | Every code block of an accepted document converts, and language and text both come back exactly under those conditions |
| DocumentMarkdown.CodeNotRecovered | app/document.py:171-174 | Accepted code blocks for which they do not: a blank before the language, a backtick or a line feed in it, a carriage return inside the text or at its end |
| ResourceLaws.NormalizePartitions | app/industry_export_formats.py:373-421 | Every referenced or listed identity appears exactly once across available and missing, and nothing else does |
| ResourceLaws.AvailableExactly | app/industry_export_formats.py:384-403 | An identity is available exactly when it is listed once overall, and as available |
| ResourceLaws.ReferencedExactly | app/industry_export_formats.py:393-417 | An identity is reported as referenced exactly when it is referenced and is not listed by one row alone that brings its own "unreferenced" mark |
| ResourceLaws.ListedCounts | app/industry_export_formats.py:373-392 | How often an identity is listed is how often it stands among the available and the missing rows |
| ResourceLaws.OwnMarkHides | app/industry_export_formats.py:384-417 | A listed and referenced row with such a mark: available, and not reported as referenced |
| ResourceLaws.ResolutionSound | app/industry_export_formats.py:465-534 | After resolution the partition still holds, the packaged identities are the keys of the binaries, and each has the captured digest, its size and the byte limit |
| ResourceLaws.PacksExactly | app/industry_export_formats.py:466-517 | An available row is packaged exactly when a loader is there, its identity is safe as a file name, and the asset is the one captured, of this project, with its digest and size, within both limits |
| ResourceLaws.ResolvedAt | app/industry_export_formats.py:466-520 | Row by row: one that may be packaged gets the asset's name and size and its bytes, and every other becomes missing |
| ResourceLaws.PackageWithinLimit | app/industry_export_formats.py:500-517 | All packaged bytes together stay within the package limit |
| ResourceLaws.PolicyExactly | app/industry_export_formats.py:521-526 | Under require_all the call fails exactly when something is missing; under allow_missing never |
| ResourceLaws.PathsDiffer | app/industry_export_formats.py:1095-1105 | Members of different rows have different paths, whatever their file names |
| ResourceLaws.PathStaysInside | app/industry_export_formats.py:1099-1101 | A member lies directly in its directory: its name holds no separator and no control character |
| ResourceLaws.NameKept | app/industry_export_formats.py:1099-1101 | A file name that needs no cleaning is kept; an empty one, or one of spaces and full stops alone, gives way to a numbered name |
| ResourceLaws.ManifestListsMembers | app/industry_export_formats.py:1127-1131 | The archive's members are exactly the manifest's file list |
| ResourceLaws.PackageSound | app/industry_export_formats.py:1090-1189 | A whole package of each of the three kinds, in the order its members are put in: its own files by name and one member for each packaged row, all under different paths, and its manifest lists them all |
| ResourceExport.ClassifyRows | app/industry_export_formats.py:380-392 | The two dictionaries the loop fills stay disjoint and say of each identity what the listing says |
| ResourceExport.ResolveRows | app/industry_export_formats.py:466-520 | The loop over the rows with its running total computes the resolution |
| ResourceExport.StageFiles | app/industry_export_formats.py:1093-1105 | The loop over the available rows stages the members |
| SourceControlLaws.ExclusionDoesNotInterfere | app/author_context_sources.py:67-77 | When anything is excluded or dependents are omitted, two contexts with the same chapter number and the same included identified rows give the same filtered context, whatever else they hold, unless a record with an empty identity collides with an identified one |
| SourceControlLaws.ExcludedRowsAreGone | app/author_context_sources.py:67-77 | The filtered context holds in each section exactly the rows that bear the key of an identified row not excluded (the identified rows not excluded, short of such a collision), and no key besides the chapter and the four sections |
| SourceControlLaws.ChoicesAcceptedExactly | app/author_context_sources.py:52-65 | The choices are accepted exactly when each is well formed, its key is chosen once and it names a cataloged record by its current content; accepting changes no identity |
| SourceControlOutcomes.AppliedExactly | app/author_context_sources.py:25-84 | Which error comes first, of the number of choices, the catalog and the choices, and otherwise what the answer says |
| SourceControlOutcomes.ChosenReads | app/author_context_sources.py:59-65 | Exactly the chosen entries are pinned and exactly the excluded ones no longer included; nothing else of an entry changes |
| SourceControlOutcomes.ChoiceRefused | app/author_context_sources.py:53-62 | The first wrong choice decides the error: malformed, repeated, or naming no record with this content |
| SourceControlLaws.CatalogExactly | app/author_context_sources.py:35-50 | A catalog that is built holds the keys of the identified rows of all sections, and no other |
| SourceControlOutcomes.CatalogIs | app/author_context_sources.py:30-51 | The catalog lists the identified records of the sections in order, one entry each, or is the first fault met |
| SourceControlOutcomes.FaultExactly | app/author_context_sources.py:44-51 | A repeated key is the fault exactly when it is met among the first 257 keys, and there is none exactly when no key repeats among at most 256 |
| SourceControlOutcomes.EntryReads | app/author_context_sources.py:47-50 | A fresh entry is included and not pinned, with the kind of its section, its record's digest and a version that is a positive integer |
| SourceControlRun.BuildCatalog | app/author_context_sources.py:35-50 | The loops over sections and rows, with both early errors |
| SourceControlRun.ApplyChoices | app/author_context_sources.py:51-65 | The loop over the choices, with every early error, and the set of excluded keys |
| JsonCompareLaws.EmptyExactly | app/compare_context_backends.py:31-49 | No difference is reported exactly when the two normal forms are equal in Python's sense |
| JsonCompareLaws.DifferencesHonest | app/compare_context_backends.py:31-49 | Every reported difference shows unequal values, each found on its own side, or a value only one side has |
| JsonCompareLaws.DifferencesExactly | app/compare_context_backends.py:31-49 | A difference is reported exactly when the values at some place differ, with the path that leads there and the values met there |
| JsonCompareLaws.PathReads | app/compare_context_backends.py:35-43 | How a path reads: names joined by dots, positions in brackets |
| JsonCompareLaws.TruthValuePassesAsNumber | app/compare_context_backends.py:49-49 | A truth value and the number it equals are not reported although their normal forms differ |
| JsonCompareLaws.NoDifferenceMeansSameExactly | app/compare_context_backends.py:31-49 | No difference from any other value means the same normal form exactly when the normal form holds no truth value, no integral float, and no integer that equals a truth value or the rounding of a decimal |
| JsonCompareLaws.CleanNoDifferenceMeansSame | app/compare_context_backends.py:31-49 | Among values whose decimals round to no integral float, exactly when it holds no truth value, no 0 and no 1 |
| JsonCompareLaws.NormalizeTwice | app/compare_context_backends.py:19-28 | Normalising twice gives a value equal to normalising once |
| JsonCompareLaws.NumbersNormalised | app/compare_context_backends.py:19-28 | A decimal or float becomes the integer it equals, or else a float; other scalars stay |
| JsonCompareLaws.NormalizeIdempotentExactly | app/compare_context_backends.py:19-28 | It gives the very same value exactly when no decimal rounds to an integral float |
| JsonCompareLaws.RoundedTwice | app/compare_context_backends.py:24-27 | A decimal one part in ten to the twentieth above one, which binary64 rounds to one: a float after one normalisation, an integer after two |
| JsonCompareRun.Compare | app/compare_context_backends.py:31-49 | The recursive comparison computes the list of differences |
| JsonCompareRun.CompareFields | app/compare_context_backends.py:33-40 | The loop over the united keys |
| JsonCompareRun.CompareItems | app/compare_context_backends.py:41-48 | The loop over the indices |

## Left out

- ReviewSafety.DecisionPermanentWhenLoadsWait: promises less than permanence in every run, because the code does not keep it; the two lemmas before it say exactly when a decision changes.
- ContextPackLaws.PresentedInRankOrder: asks for chunk ids that tell chunks apart; `LabelsTellChunksApart` gives them whenever no two different candidates share type and source, and `SharedIdMisplaces` shows what happens otherwise.
- ContextPackLaws.EarlierScoresHigher: asks for the same, for the same reason.
- ContextPackLaws.BetterKindFirst: asks for the same, for the same reason.
- EventStream.CompletedStreamIsWhole: follows the manager that runs the worker; a copy in another manager has no output of its own to follow.
- GenerationRun.CompletedIsOneStream: ends where publication begins; the publication block is `JobManager.Manager.Publish`.
- SourceControlLaws.ExclusionDoesNotInterfere: asks that no record with an empty identity has the digest of an identified record of the same context, because the code would then let it through.
- IdempotencyStore.Store.Get: does not model the TypeError on a record that is text or a number, because no writer leaves one.
- Image, OCR, creative, graph, adaptation and file-bound generation jobs: their capability classes and services are not part of this model; the ordinary unbound path is.
- Generation requests without an idempotency key: they start a job directly and keep no receipt.
- The bodies behind the accept claim (chapter writing, canon proposals): one step that succeeds or raises, counted.
- Usage, latency, provider and model names, and log lines of a run.
- The in-process lock of the audio store: it forbids some of the interleavings covered here, and none of the proofs needs it.
- Writing back into caller-owned policy items: `apply` merges reasons into the objects it was given; here items are values.
- The warning of `plain_text` about media, `markdown_to_document`, and the exporters of HTML, DOCX, EPUB, Fountain and CSV.
- The scan of legacy directories in `load_ledger`: what it found is an input, and the ledger built from it is proved valid.
- The check of chapter histories against legacy revisions, and `current_summaries`.
- Filtering by experimental flags in `AudioProductionStore.load`.
- A type that is not text where the validator or the controls expect text: the code raises one of two exceptions, here both are refusals.
- Message texts of errors; only which refusal it is.
- Fields of a resource record beyond identity, digest, size and file name.
