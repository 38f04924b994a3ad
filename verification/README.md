# Verified model of Piki

Piki answers BuenPick customers over WhatsApp. This project models, in Dafny, the parts of it whose correctness is
spread over several files, and proves what they promise:

- **The durable protocol from webhook to delivery** (`Messages`, `Deliveries`, `Leases`, `Protocol`,
  `ProtocolInvariants`, `ProtocolTheorems`, `Counterexamples`, `Divergences`, `LeaseRuns`, `Pacing`, `Reasons`): any number
  of workers, a shared message table, a leased lock per conversation, delivery attempts under unique keys, status callbacks,
  and crashes between any two transactions, as one transition system. The theorems hold in every reachable state or over
  every run.
- **The same steps as code over mutable tables** (`Stores`, `Following`, `Worker`, `Ingress`): each store method is one
  transaction. Between any two transactions of a worker everybody else may interfere, and any transaction may fail; a
  pass is shown to be a run of the protocol all the same. Left alone, a pass completes its message under an exact
  condition, and the worker's loop drains the outbox. Storing a batch and applying callbacks are runs of the protocol, too.
- **Delivery callbacks** (`Callbacks`, `DeliveryRuns`) as a fold with a closed form, also inside the runs of the protocol.
- **Text safety** (`Texts`, `Numbers`, `Grounding`, `FixedTexts`, `Fallback`, `Engine`): what an accepted reply, and any
  reply of the engine, can contain.
- **Printers with inverses**: the evidence prompt (`Json`, `Evidence`, `EvidenceReader`), whose strings follow section 7 of
  RFC 8259, and amounts in pesos (`Ars`).
- **Handoffs** (`Handoffs`) and **scoped state in Redis** (`ScopeKeys`, `ScopedState`, `SharedRedis`).

`dafny verify dfyconfig.toml` checks everything. No lemma relies on automatic induction: those that Dafny would try it on
carry `{:induction false}`.

## Premises

- Every database session is one atomic step with a known outcome; `SKIP LOCKED` is the parameter `locked` of the claim.
  A delivery callback is one atomic step too, although the code reads the attempt without a row lock
  (src/piki/delivery/service.py:172-179).
- A lock token is never handed out twice, and the provider never reuses a message id. Redis commands and the release script
  are atomic; a command either takes effect or raises, and the release answers a Redis error with a result
  (src/piki/state/coordination.py:89-103). The digest of a scope is injective where a theorem says so.
- No inbound message id starts with `piki-reply:`.
- Composing a reply never yields the empty text. `Engine.RepliesNeverLeak` proves this of the engine's outcomes.
- Row ids are identified with the unique external keys beside them (message id, idempotency key).
- Time is a natural number. The provider, the composer, the catalogue and failures of transactions are parameters or labels,
  free to take any value their types and the contracts in src/piki/domain/contracts.py allow.
- Characters come with a table of what Python's `upper`, `casefold`, `isspace`, `\d` and `\w` say about them, mapped one character
  at a time. Theorems hold for every table that satisfies `Texts.Lawful`; `Texts.AsciiIsLawful` gives one.

## What turned out not to hold

- *The text given to the provider is the stored reply.* False when a lease runs out between look-up and recording
  (`Counterexamples.PostedTextCanDifferFromStored`); it holds exactly for the sends whose recording was not overtaken, and in every run
  whose recordings beat their leases.
- *A message whose reply was accepted is not failed.* False, since a transition has no owner fence
  (`Counterexamples.FailedMessageCanBeDelivered`). It fails exactly by three late steps: an accepted answer stored for a
  row already failed, and a row in progress failed, by a result that is no success or for want of attempts, after its
  reply was accepted (`Divergences.DeliveredIsNotFailedUnlessTooLate`).
- *Every reply is eventually sent.* At most once is not exactly once (`Counterexamples.CrashCanLoseReply`). A reply whose
  attempt was created is lost exactly if its worker crashes before it calls the provider (`Divergences.SentOnceUnlessCrashed`).
- *Every delivered reply is reported.* False when the process dies between commit and report
  (`Counterexamples.DeliveredCanGoUnreported`); `ProtocolTheorems.ReportedAtMostOnce` has the exact condition.
- *`format_ars_cents` writes every amount.* Division keeps 28 significant digits (`Ars.OneCentTooMany`); the amount is written
  exactly if and only if the digits after the 28th are zeros (`Ars.FormatParses`).
- *The joined identity determines the scope.* Two accounts of a channel have conversations that collide if and only if one
  continues the other after U+001F (`ScopeKeys.AccountsCollide`).
- *A conversation that waits for a person has an open handoff.* It has, unless the request repeats a key while
  nothing is open (`Handoffs.WaitingForSomeone`, `Handoffs.RepeatedAfterResolution`).

## Model

| member | source | states |
|---|---|---|
| ProtocolTheorems.ProviderCalledAtMostOnce | src/piki/delivery/service.py:255-267 | In every run the provider is called at most once per idempotency key, exactly once if the attempt left pending, and never without an attempt |
| ProtocolTheorems.FinalizeFindsPending | src/piki/delivery/service.py:110-129 | In every run whoever stores the provider's answer finds its attempt pending: the "no longer pending" error is unreachable |
| ProtocolTheorems.FinalizeStoresAnswer | src/piki/delivery/service.py:110-140 | In every run it stores the whole answer, in the attempt and as an event, and nothing else |
| ProtocolTheorems.ReplayNeverRaises | src/piki/delivery/service.py:289-305 | In every run failed and unknown attempts carry a code and the others none, sent ones a provider id; so every attempt can be replayed, with its own state, id and code, or as in progress while it is pending |
| ProtocolTheorems.CallbackLookupIsSound | src/piki/delivery/service.py:172-181 | In every run a provider id belongs to at most one attempt, and never to a pending one |
| ProtocolTheorems.TerminalRowsStay | src/piki/db/processing.py:120-145 | Completed and failed rows never change in any run, under late workers, stale reclaims or redelivered webhooks |
| ProtocolTheorems.CompletedWasSentOnce | src/piki/conversation/worker.py:62-79 | A completed message has exactly one provider call behind it, and an attempt with a provider id that is neither pending nor unknown |
| ProtocolTheorems.AttemptsAreBounded | src/piki/db/processing.py:48-72 | Attempts never exceed the configured maximum plus the stale reclaims of the row, and fewer than the maximum of its jobs were put back |
| ProtocolTheorems.ReportedAtMostOnce | src/piki/delivery/service.py:142-165 | Callbacks report each attempt at most once, as a success or as a failure, in agreement with its state; a delivered attempt, and one that failed after it was accepted, was reported exactly if its report is neither still to be made nor lost with a process that crashed after its commit |
| ProtocolTheorems.PostedTextIsStoredUnlessOvertaken | src/piki/conversation/service.py:197-246 | A text given to the provider is the stored reply if and only if no different reply was stored when it was recorded |
| ProtocolTheorems.PostedTextIsStored | src/piki/conversation/service.py:197-246 | If no lease runs out between its holder's look-up and recording, every text given to the provider under `reply:<id>` is the stored reply `piki-reply:<id>` |
| ProtocolTheorems.OneLeaseHolder | src/piki/state/coordination.py:77-87 | Two workers never hold live leases of one conversation |
| ProtocolTheorems.ReleaseSparesOthers | src/piki/state/coordination.py:15-20 | A release, however late, leaves every other worker's live lease in place |
| ProtocolTheorems.InvStep | src/piki/conversation/worker.py:43-100 | Every step of every worker, of the webhook and of the environment keeps the invariant of the whole system |
| ProtocolInvariants.BudgetOkStep | src/piki/db/processing.py:68-73 | Every step keeps the account of attempts, reclaims, distinct job snapshots and retries |
| ProtocolInvariants.StoredStays | src/piki/db/conversations.py:174-208 | The reply that was stored first under its id is what every later look-up finds: no step rewrites it |
| ProtocolInvariants.TextsOkStep | src/piki/db/conversations.py:155-188 | Every step keeps carried and posted texts equal to the stored reply unless they were overtaken |
| ProtocolInvariants.EmissionsOkStep | src/piki/delivery/service.py:142-210 | Every step, and every crash between commit and report, keeps one report per attempt at most, made, owed or lost |
| ProtocolInvariants.FirstReplyStep | src/piki/conversation/service.py:205-238 | While leases outlast recordings, the holder that found no reply stays the first to store one |
| Counterexamples.PostedTextCanDifferFromStored | src/piki/conversation/service.py:231-244 | A run in which the text given to the provider differs from the stored reply |
| Counterexamples.FailedMessageCanBeDelivered | src/piki/db/processing.py:128-133 | A run in which a message ends failed although its reply was accepted |
| Counterexamples.CrashCanLoseReply | src/piki/delivery/service.py:259-265 | A run in which a crash leaves a message finished and its reply never sent |
| Counterexamples.DeliveredCanGoUnreported | src/piki/delivery/service.py:144-155 | A run in which a delivered reply is never reported |
| Divergences.FailedYetDeliveredStep | src/piki/db/processing.py:128-133 | A step makes a message failed although its reply was accepted exactly if it stores an accepted answer for a failed row, or fails a row in progress whose reply was accepted, by a result that is no success or for want of attempts |
| Divergences.DeliveredIsNotFailedUnlessTooLate | src/piki/conversation/worker.py:73-100 | In every run a message is failed yet delivered at some point exactly if one of these three steps happened |
| Divergences.InTimeIsConsistent | src/piki/conversation/worker.py:73-100 | A run without these steps ends with no delivered message failed |
| Divergences.LostStep | src/piki/delivery/service.py:259-265 | A step loses a reply exactly if it is the crash of the worker that created its attempt and has not called the provider |
| Divergences.LostStays | src/piki/delivery/service.py:259-263 | A lost reply stays lost under every step |
| Divergences.SentOnceUnlessCrashed | src/piki/delivery/service.py:255-267 | At the end of every run a reply that nobody is sending was sent once exactly if its attempt exists and no worker crashed at that point; otherwise it was never sent |
| Divergences.SentUnlessLost | src/piki/delivery/service.py:255-267 | In every state a reply that nobody is sending was sent once exactly if its attempt exists and is not lost |
| LeaseRuns.LeaseLastsUntilReleased | src/piki/state/coordination.py:77-103 | In every run a lease taken on a free conversation is held exactly until its time comes or a release of its own gets through |
| LeaseRuns.LiveLeaseIsUsedOrAbandoned | src/piki/conversation/service.py:245-246 | In every run a worker is inside the section of a live lease exactly unless it crashed there or its release did not get through: an exception inside leaves no lease behind |
| LeaseRuns.ReleaseFrees | src/piki/conversation/service.py:245-246 | Leaving the locked section, with a reply or an exception, frees the conversation if Redis can be reached |
| LeaseRuns.LiveLeaseIsBusy | src/piki/conversation/service.py:197-199 | Who finds a live lease goes to the handler as busy and leaves the lease alone |
| Pacing.StaleAfterTimeout | src/piki/db/processing.py:37-60 | In every run a message still in processing can be claimed again exactly once the claim timeout has passed since its claim |
| Pacing.ClaimsAreApart | src/piki/db/processing.py:37-60 | In every run two claims of a message in a row are a claim timeout apart if it stayed in processing, else at least a retry delay |
| Pacing.NewIsDueAtOnce | src/piki/db/conversations.py:92-97 | In every run a new message can be claimed at once, by any idle worker until one does |
| Pacing.PutBackWaits | src/piki/db/processing.py:99-118 | In every run a message put back keeps the reason and can be claimed again exactly once the retry delay has passed |
| Pacing.FinishedIsNeverClaimed | src/piki/db/processing.py:45-60 | In every run a completed or failed message is never claimed again |
| Reasons.FailuresHaveReasons | src/piki/db/processing.py:68-71 | In every run exactly the messages that failed or wait for another try carry a reason |
| Reasons.SettledForItsReason | src/piki/conversation/worker.py:73-86 | In every run settling completes a message after a success, and otherwise fails it for the very code of the result: the substitute code is never used |
| Stores.MessageProcessingStore.ClaimNext | src/piki/db/processing.py:37-90 | Takes the first row, by due time and creation, that is pending and due or in processing for the claim timeout, with one more attempt, its claim time and no code; nothing exactly if no unlocked row is; all other rows stay |
| Stores.MessageProcessingStore.Complete | src/piki/db/processing.py:92-97 | Completes a row in processing, without code or times, or raises and changes nothing |
| Stores.MessageProcessingStore.Fail | src/piki/db/processing.py:99-118 | Fails a row in processing, or makes it pending and due after the delay, with the code; or raises and changes nothing |
| Stores.MessageProcessingStore.Move | src/piki/db/processing.py:120-145 | Moves the row exactly if it is in progress, whoever claimed it and however often; sets status, code and due time, clears the claim time, and leaves everything else of the row and all other rows; otherwise raises and changes nothing |
| Stores.ConversationRepository.RecordInbound | src/piki/db/conversations.py:78-109 | Inserts a pending row unless the external id exists |
| Stores.ConversationRepository.RecordOutbound | src/piki/db/conversations.py:155-188 | Inserts the reply unless the external id exists, and says which |
| Stores.DeliveryStore.Claim | src/piki/delivery/service.py:81-108 | Creates a pending attempt unless the key has one, and returns the key's attempt |
| Stores.DeliveryStore.Finalize | src/piki/delivery/service.py:110-140 | Stores the answer and its event in a pending attempt, or raises and changes nothing |
| Stores.DeliveryStore.ApplyCallback | src/piki/delivery/service.py:167-210 | Finds the attempt, logs the event once, and moves the attempt if the move is allowed |
| Stores.ConversationLock.Acquire | src/piki/state/coordination.py:77-87 | Takes the lock under a new token unless a live lease is there or Redis is not |
| Stores.ConversationLock.Release | src/piki/state/coordination.py:89-103 | Deletes the lease only while it is the caller's own |
| Worker.IdempotentDeliveryService.Send | src/piki/delivery/service.py:255-267 | Sending, with anybody interfering between its transactions and any of them failing, is a run of the protocol from the delivery claim to a result or an exception; alone it comes to the replay, the provider's answer or the exception that `SendResult` and `SendProblem` say |
| Worker.ConversationOrchestrator.RespondPersisted | src/piki/conversation/service.py:197-246 | Responding, under interference and failing transactions, is a run of the protocol; when it ends the lock is not the worker's, after a reply and after an exception, if Redis could be reached; alone it answers what `Response` says and adds at most the reply row |
| Worker.ConversationOrchestrator.LeaveLock | src/piki/conversation/service.py:245-246 | Leaving the lock ends the worker's lease for both verdicts if Redis can be reached |
| Worker.CompletesExactly | src/piki/conversation/worker.py:43-86 | A pass completes its message exactly if the conversation is free, the reply is stored or composed and recorded, it was accepted before or is now, and every transaction on that way succeeds |
| Worker.ConversationProcessingWorker.ProcessOnce | src/piki/conversation/worker.py:43-100 | Whatever others do between its transactions, and whichever of them fail, a pass is a run of the protocol that leaves the worker idle; alone it does nothing only if nothing is claimable, raises only if claiming or the handler failed, and otherwise disposes of one claimable row: completed exactly under the condition of `CompletesExactly`, else failed, or back with attempts left, with the reason |
| Worker.ConversationProcessingWorker.SettleMessage | src/piki/conversation/worker.py:73-86 | Settling a row in hand completes it after a success and fails it with the code otherwise, exactly unless the transaction fails or the claim is lost, which go to the exception handler |
| Worker.ConversationProcessingWorker.HandleFailure | src/piki/conversation/worker.py:87-100 | The handler puts the row back after the delay while the snapshot has attempts left, and fails it otherwise, with the code; its own exception escapes |
| Worker.ConversationProcessingWorker.Drain | src/piki/conversation/worker.py:43-100 | Left alone, repeated passes end with every message completed or failed, after at most as many working passes as attempts are left |
| Worker.ProcessedLowersWork | src/piki/db/processing.py:68-73 | Each working pass strictly lowers the attempts left in the outbox |
| Following.WorkersStayReachable | src/piki/conversation/worker.py:43-100 | What the code of a worker leads to from a reachable state, alone or among others, is reachable, so every theorem above holds of it |
| Callbacks.ClosedForm | src/piki/delivery/service.py:183-241 | After any callbacks an accepted attempt is failed if a failure came before any delivery or reading, else at the furthest status reported; its events are the statuses reported |
| Callbacks.OutcomeSnoc | src/piki/delivery/service.py:223-241 | One more callback moves the closed form as the transition table does, and a repeated status does not move it |
| Callbacks.OrderDoesNotMatter | src/piki/delivery/service.py:183-241 | Without failures only the set of reported statuses matters |
| Callbacks.DuplicatesDoNotMatter | src/piki/delivery/service.py:198-200 | Repeated callbacks never change the final state |
| Callbacks.FailureKeepsItsCode | src/piki/delivery/service.py:202-209 | A failed attempt has the code of the first failure reported, and every other accepted one none |
| Callbacks.FinalStatesStay | src/piki/delivery/service.py:227-241 | Failed and read attempts never change again |
| Callbacks.AcceptedAnswerStartsHere | src/piki/delivery/service.py:110-140 | Storing an accepted answer under a new provider id is where the closed form starts |
| DeliveryRuns.AcceptedFollowsCallbacks | src/piki/delivery/service.py:110-210 | In every run, an attempt whose accepted answer was stored is afterwards at the closed form of the callbacks received since, with exactly their events, whatever workers did in between |
| Ingress.MetaWebhookIngress.Ingest | src/piki/integrations/meta/ingress.py:29-82 | All messages of a batch or none, and none exactly of a batch with a missing phone number id unless a transaction fails; each new row has the phone number as account, the sender as conversation and the text of its first event, and is due at once; then a prefix of the callbacks; accepted statuses count the callbacks that moved an attempt, and the counters add up to the batch and to the rows and events added; each exception has its cause |
| Ingress.MetaWebhookIngress.StoreBatch | src/piki/integrations/meta/ingress.py:34-52 | The first transaction stores the whole batch or nothing, refuses it for a phone number id exactly if one is missing, and counts what it created |
| Ingress.MetaWebhookIngress.ApplyStatuses | src/piki/integrations/meta/ingress.py:60-74 | Callbacks are applied one by one until one finds no attempt |
| Ingress.StoreAllAddsMissing | src/piki/db/conversations.py:78-109 | Redelivery adds the missing messages as new pending rows, due at once, each with the account, conversation and text of its first event in the batch, and leaves every stored row, whatever its progress, alone |
| Ingress.IngestedIdentityStays | src/piki/integrations/meta/ingress.py:42-47 | In every run an ingested message keeps the phone number, conversation and text of its event, and every job for it carries them |
| Ingress.BatchIsRun | src/piki/integrations/meta/ingress.py:34-52 | Storing a batch is a run of the protocol |
| Ingress.CallbacksAreRun | src/piki/integrations/meta/ingress.py:60-74 | Applying callbacks is a run of the protocol, up to the reports it owes |
| Ingress.RedeliveryConverges | src/piki/integrations/meta/ingress.py:29-82 | Any partly failed tries of a batch, between any transactions of workers on attempts and messages, and then a complete one leave the attempts and events of the workers and one complete call, the messages of one complete call with their conversation and text, and besides them only the replies stored meanwhile |
| Ingress.TrialKeepsContents | src/piki/integrations/meta/ingress.py:34-52 | A failed try, a claim, a transition or a stored reply changes nothing in what a complete call leaves but the reply |
| Ingress.TriesArePrefixes | src/piki/integrations/meta/ingress.py:63-68 | Whatever tries and workers do, the tables are the workers' own with a prefix of the callbacks applied |
| Ingress.CallbackCommutes | src/piki/delivery/service.py:167-210 | A matched callback and a worker's transaction on the attempts can be swapped |
| Ingress.Reapply | src/piki/delivery/service.py:183-200 | Applying callbacks again changes nothing, and a longer prefix adds just its new part |
| Ingress.ReachableIsRegular | src/piki/delivery/service.py:110-129 | The tables of every run of the protocol meet what convergence needs |
| Numbers.MatchIsLongest | src/piki/composition/grounding.py:52 | The greedy matcher with backtracking finds the longest number that starts at a position, or none if there is none |
| Numbers.EveryRunIsFound | src/piki/composition/grounding.py:98 | The scanner misses no standalone run of digits |
| Numbers.MatchesAreApart | src/piki/composition/grounding.py:98 | The matches are in order and do not overlap |
| Numbers.MatchesAreLongest | src/piki/composition/grounding.py:98 | Each match is the longest number that starts where it does |
| Numbers.EveryNumberIsCovered | src/piki/composition/grounding.py:98 | Wherever a number starts, a match starts there or covers it |
| Numbers.ShapeMeans | src/piki/composition/grounding.py:52 | The pattern's texts are the digits and marks with a digit at both ends and no two marks in a row |
| Grounding.GroundingValidator.Validate | src/piki/composition/grounding.py:79-121 | A reply is safe, and returned trimmed, exactly if no check fails on it; otherwise it is blocked with exactly the checks that do; the check for facts fails exactly if some high-risk match or number, cut at its punctuation, is in no confirmed value up to case and white space |
| Grounding.UnsupportedExactly | src/piki/composition/grounding.py:97-101 | An unsupported fact is reported exactly if some high-risk match, or some number, of the text is not grounded in the confirmed values |
| Grounding.BlockedExactly | src/piki/composition/grounding.py:81-87 | Exactly a blank text is reported as empty, and exactly a text with an internal marker as a leak |
| Grounding.ReferencesExactly | src/piki/composition/grounding.py:107-114 | Exactly a text that shows a reference which is in no confirmed value is reported as revealing one |
| Grounding.ClaimsExactly | src/piki/composition/grounding.py:90-105 | A claim of availability is reported exactly without evidence of the internal API, and a claim of content exactly if content is listed as unavailable |
| Grounding.AcceptedIsGrounded | src/piki/composition/grounding.py:97-101 | Every high-risk match and every number of an accepted reply is grounded in the confirmed values |
| Grounding.AcceptedMatchIsEvidence | src/piki/composition/grounding.py:66-67 | A high-risk match of an accepted reply without white space stands in a single confirmed value, up to case |
| Grounding.GroundingValidator.FindUnsupported | src/piki/composition/grounding.py:97-101 | The nested loops find a match without evidence exactly if there is one |
| Grounding.GroundingValidator.FindReference | src/piki/composition/grounding.py:107-114 | The loop finds a revealed reference exactly if there is one |
| Grounding.AcceptedNumberIsEvidence | src/piki/composition/grounding.py:97-101 | Every number of an accepted reply stands, as it is, in one confirmed value |
| Grounding.AcceptedDigitsAreEvidence | src/piki/composition/grounding.py:89-101 | Every standalone run of digits of an accepted reply stands in one confirmed value, never stitched from two |
| Texts.NumberComesFromOneLine | src/piki/composition/grounding.py:66-67 | A number found in the folded and collapsed lines is in one of the lines as it stands |
| Texts.CompactAddsNothing | src/piki/composition/grounding.py:66-67 | Collapsing white space creates no text without white space |
| Texts.CompactJoins | src/piki/composition/grounding.py:67 | White space between two texts collapses to one blank, or to nothing beside a blank text; with `OneWord` this settles every collapsed text |
| Texts.NormalizedParts | src/piki/composition/grounding.py:66-67 | Normalizing folds a word and collapses the white space between what it folds |
| Texts.StripTrims | src/piki/composition/grounding.py:81 | Trimming cuts the white space at both ends and nothing else |
| Texts.TrailingPunctuation | src/piki/composition/grounding.py:99 | What is cut off a match is its trailing punctuation, of seven kinds |
| Fallback.FactualFallback | src/piki/composition/grounding.py:124-148 | The loop over the evidence computes the fallback text |
| Fallback.FallbackNeverLeaks | src/piki/composition/grounding.py:124-148 | Whatever the evidence holds, the upper-cased fallback contains none of the nine internal markers |
| Fallback.FallbackDigitsAreEvidence | src/piki/composition/grounding.py:141-148 | Digits of the fallback are digits of one confirmed item of the internal API |
| Fallback.FallbackShowsEvidence | src/piki/composition/grounding.py:141-148 | Unless it is cut, the fallback shows each of the first eight items of the internal API with its caption and its value, white space collapsed; exactly the parts that hold an internal marker are replaced |
| Fallback.FallbackIsItsLines | src/piki/composition/grounding.py:141-148 | With evidence of the internal API the fallback is the heading, one line for each of its first eight items, and the line for missing data if there is some, cut at 4096 characters |
| Fallback.FallbackWithoutEvidence | src/piki/composition/grounding.py:130-139 | Without evidence of the internal API the fallback introduces Piki exactly in small talk, and apologizes otherwise |
| Fallback.ApiEvidenceInOrder | src/piki/composition/grounding.py:125-129 | The evidence of the internal API keeps its order, and none of it is lost or repeated |
| Fallback.FallbackSaysPending | src/piki/composition/grounding.py:146-148 | Unless it is cut, the fallback says when data is missing |
| Fallback.OtherEvidenceDoesNotShow | src/piki/composition/grounding.py:125-129 | Evidence from anywhere but the internal API makes no difference to the fallback |
| Fallback.CleanJoint | src/piki/composition/grounding.py:142-148 | No marker straddles a newline, a dash or a colon |
| Fallback.CleanPrefix | src/piki/composition/grounding.py:148 | Cutting a text keeps it free of markers |
| Engine.OutcomeIsSafeOrFallback | src/piki/composition/engine.py:56-116 | An outcome is a text the validator accepted or the fallback of its packet |
| Engine.WhenFallback | src/piki/composition/engine.py:70-116 | The outcome of each mode: the fallback for the template and for a failed adapter; otherwise the offered text if it passes validation, else the fallback with just the failed checks |
| Engine.OutcomeUnless | src/piki/composition/engine.py:56-116 | The engine raises exactly without deterministic text, on an accepted text over 4096 characters, or when the composer raises |
| Engine.RepliesNeverLeak | src/piki/composition/engine.py:70-116 | Whatever the packet holds and the model writes, no reply shows an internal marker, and every reply has a sendable length |
| Engine.ReplyDigitsAreEvidence | src/piki/composition/engine.py:70-116 | Every standalone run of digits of a reply stands in one confirmed item |
| Json.QuoteReadsBack | src/piki/prompts/renderer.py:9-10 | A JSON reader gets every string back from its quoted form, whatever follows |
| Json.QuotesArePrintable | src/piki/prompts/renderer.py:9-10 | No quoted string holds a control character or a newline |
| Json.PlainIsKept | src/piki/prompts/renderer.py:9-10 | Exactly the strings without quotes, backslashes and control characters are quoted as they stand |
| Json.QuoteIsShortest | src/piki/prompts/renderer.py:9-10 | No JSON writing of a string is shorter than its quoted form |
| Evidence.TemplateIsLines | src/piki/prompts/templates/evidence.txt.j2:1-26 | The template's text is its lines, each with its newline |
| Evidence.RenderIsLines | src/piki/prompts/renderer.py:40-42 | Trimming takes only the last newline, and no field adds a line |
| Evidence.HeadingsStandOnce | src/piki/prompts/templates/evidence.txt.j2:1-26 | Whatever its fields hold, the prompt has the seven headings once each, in order, on lines of their own, and no other line begins like one |
| Evidence.SplitInvertsJoin | src/piki/prompts/templates/evidence.txt.j2:1-26 | Lines without newlines come back from their joined text |
| EvidenceReader.UnrenderInvertsRender | src/piki/prompts/renderer.py:40-42 | A reader recovers every field of the packet from the prompt, empty and absent references and active picks alike taken as none |
| EvidenceReader.SamePromptSamePacket | src/piki/prompts/templates/evidence.txt.j2:1-26 | Two packets have one prompt exactly if they agree up to empty references and an empty active pick |
| EvidenceReader.SectionReadsBack | src/piki/prompts/templates/evidence.txt.j2:7-22 | A section's items come back from its bullets, and its line for none from no item |
| Ars.FormatParses | src/piki/integrations/buenpick/models.py:159-165 | Exactly negative amounts are refused; every other is written in groups of three with two decimals and no leading zero, and reads back as the amount to 28 digits, exactly if and only if the rest is zeros |
| Ars.FormatIsInjective | src/piki/integrations/buenpick/models.py:159-165 | Amounts share a text exactly if they agree to 28 significant digits; below 10^28 only equal ones do |
| Ars.ParseIsFormatted | src/piki/integrations/buenpick/models.py:163-165 | Every amount text below the bound is what its value is formatted as |
| Ars.ParsedIsWritten | src/piki/integrations/buenpick/models.py:163-165 | Every text of the grammar is the one way its value is written |
| Ars.RoundedIsNearest | src/piki/integrations/buenpick/models.py:162 | The division rounds to the nearest amount with 28 significant digits |
| Ars.RoundedTiesAreEven | src/piki/integrations/buenpick/models.py:162 | Halves go to the even neighbour |
| Ars.RoundedIsExact | src/piki/integrations/buenpick/models.py:162 | The division changes nothing exactly if no digit after the 28th counts |
| Ars.UnitIs | src/piki/integrations/buenpick/models.py:162 | The last digit kept weighs what the number of digits beyond the 28th says |
| Ars.OneCentTooMany | src/piki/integrations/buenpick/models.py:162 | 10^28 + 1 cents are written like 10^28 cents |
| Handoffs.HandoffRepository.RequestHandoff | src/piki/db/handoffs.py:49-100 | Inserts the handoff or selects the earliest one in the way, and flags the conversation |
| Handoffs.ConflictFindsEarliest | src/piki/db/handoffs.py:67-81 | A row the constraints refuse always clashes with a row that the conflict path selects |
| Handoffs.OneOpenHandoff | src/piki/db/models.py:89-101 | In every run a conversation has at most one open handoff and one row per key |
| Handoffs.InvStep | src/piki/db/handoffs.py:49-100 | Requests, claims and resolutions keep the constraints, and an open handoff is the latest of its conversation |
| Handoffs.RequestIsAnswered | src/piki/db/handoffs.py:49-100 | A request for an existing conversation gets a stored row of it that is open or has its key; the row is new, requested, with the request's key, reason and trace, exactly if the key is new and nothing was open, and otherwise no row changes |
| Handoffs.OldAnswerIsEarliest | src/piki/db/handoffs.py:67-81 | An old row in the answer is the earliest that is open or has the key, and of several the one with the least id |
| Handoffs.OtherConversationsStay | src/piki/db/handoffs.py:49-100 | A request touches its own conversation alone, and nothing if that does not exist |
| Handoffs.NewKeyConverges | src/piki/db/handoffs.py:65-81 | In every run a request with a new key gets the one open handoff of the conversation |
| Handoffs.NewKeysAgree | src/piki/db/handoffs.py:65-81 | Two requests in a row with new keys get the same handoff |
| Handoffs.RepeatedKeyAnswersItsRow | src/piki/db/handoffs.py:67-81 | In every run a repeated key gets its own row, resolved or not, unless the open one was created at the same instant |
| Handoffs.WaitingForSomeone | src/piki/db/handoffs.py:83-90 | A request leaves the conversation waiting for a person; nothing is open then exactly if the key was used and nothing was open before |
| Handoffs.RepeatedAfterResolution | src/piki/db/handoffs.py:83-90 | A run that ends waiting for a person with nothing open |
| ScopeKeys.IdentityIsInjective | src/piki/state/active_pick.py:109-113 | The joined identity determines the scope when the accounts have no U+001F |
| ScopeKeys.AccountsCollide | src/piki/state/active_pick.py:109-113 | Two accounts of a channel have conversations with one identity exactly if one continues the other after U+001F |
| ScopeKeys.KeysApart | src/piki/state/pending_actions.py:95-97 | Keys of different kinds never coincide, and keys of one kind coincide exactly with the digests |
| ScopedState.RedisActivePickStore.Set | src/piki/state/active_pick.py:132-141 | Stores the reference under the scope's own key until it expires, or reports that Redis is away |
| ScopedState.RedisActivePickStore.Get | src/piki/state/active_pick.py:143-155 | Reads the unexpired reference; a corrupt one is reported unavailable and cleared |
| ScopedState.RedisActivePickStore.Clear | src/piki/state/active_pick.py:157-162 | Removes the scope's own entry |
| ScopedState.RedisPendingActionStore.Set | src/piki/state/pending_actions.py:102-111 | Stores the action under the scope's own key until it expires |
| ScopedState.RedisPendingActionStore.Get | src/piki/state/pending_actions.py:113-118 | Reads the unexpired action and leaves it; a corrupt one is cleared |
| ScopedState.RedisPendingActionStore.Consume | src/piki/state/pending_actions.py:120-125 | Reads the unexpired action and leaves nothing |
| ScopedState.RedisPendingActionStore.Parse | src/piki/state/pending_actions.py:134-149 | A corrupt payload is unavailable, and cleared unless it was consumed |
| ScopedState.ActivePickService.ResolvePick | src/piki/state/active_pick.py:181-228 | The service's code computes the resolution and the entries it leaves |
| ScopedState.ConfirmedIsCurrent | src/piki/state/active_pick.py:181-228 | A confirmed pick is the catalogue's answer for the id just named or remembered under this scope |
| ScopedState.ResolutionExactly | src/piki/state/active_pick.py:181-228 | When a resolution has each of its answers: state unavailable, nothing picked, confirmed with its source, stale, and upstream unavailable |
| ScopedState.ResolutionLeaves | src/piki/state/active_pick.py:181-228 | A pick confirmed by name is written, a remembered one is forgotten when it is corrupt or the catalogue dropped it, and nothing else changes |
| ScopedState.NamedIsRemembered | src/piki/state/active_pick.py:170-228 | A pick confirmed by name is the one resolved from memory until it expires, and is forgotten once the catalogue drops it |
| SharedRedis.OthersLeaveItAlone | src/piki/state/active_pick.py:116-162 | No run of commands for other scopes or of other kinds changes a scope's lock, active pick or pending action |
| SharedRedis.LastStoredIsRead | src/piki/state/pending_actions.py:102-118 | In every run what was stored for a conversation is what is read, whatever is done for others or of other kinds, exactly until its own time has passed |
| SharedRedis.GoneIsGone | src/piki/state/pending_actions.py:120-132 | In every run a consumed or cleared action, or a cleared pick, is not read again until another is stored |
| SharedRedis.StoresUseTheirKeys | src/piki/state/pending_actions.py:95-97 | The stores use the keys of their commands, and picks, actions and locks of any conversations share none |
| SharedRedis.ConsumedAtMostOnce | src/piki/state/pending_actions.py:120-125 | In every run actions are consumed at most as often as they were stored |
| SharedRedis.LocksStayLeases | src/piki/state/coordination.py:64-103 | In every run the lock entries of Redis are the scope-keyed leases of the protocol |
| SharedRedis.SeparatorBreaksIsolation | src/piki/state/active_pick.py:109-113 | With U+001F in an account, one conversation reads what was stored for another |

## Left out

- HTTP clients, the Meta, BuenPick and model adapters, routers, health checks, the console, configuration, migrations and deployment.
- The web console's `respond` path (src/piki/conversation/service.py:125-158, 248-306): the worker's path has the same lock and more hazards.
- Error messages, trace ids, latency, log events other than the callback reports, `recent_messages` and the customer service window of a delivery request.
- Intent resolution, the policies' wording and the order of the tools behind a reply: a composition is any non-empty text or an exception.
- The price, URL, time, availability and content expressions: each is a parameter that yields texts or a truth value. Only the number expression is modelled.
- Full Unicode case mapping: letters map one by one, so a final sigma is not special, and strings hold no lone surrogates.
- Lines of the evidence prompt end at `\n`; other separators such as U+2028 and U+0085, which `json.dumps` leaves as they are, are ordinary characters here.
- Length limits of packets, and the prompt's own limit, which the engine sees as a composer that raises.
- The order in which blocked checks are listed: failures are a set.
- Decimal overflow beyond about 10^1000000 pesos.
- The inbound deduplicator's cache entries, which no outcome depends on; only its refusal of blank identities is modelled.
- Reopening a handoff: people claim and resolve handoffs, in atomic steps.
- ProtocolTheorems.PostedTextIsStored: assumes that no lease runs out before its holder records, because the code gives no such guarantee; the exact condition per send is ProtocolTheorems.PostedTextIsStoredUnlessOvertaken.
- Worker.ConversationProcessingWorker.Drain: one worker, no crash, no new messages while it runs, and no failure of the claiming or the handler's transaction, because otherwise the outbox need not empty.
- Following.Interfere: others never use the worker's lock token or provider id, because tokens and ids are unique by premise.
- Texts.AsciiIsLawful: shows that the laws can be met; that Python's own tables meet them is a premise.
