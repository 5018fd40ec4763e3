# Verification of wagw-shimmy

wagw-shimmy sits between a WhatsApp gateway (GOWA) and an agent. It acknowledges a webhook before the
agent has seen the message, and from then on it owns the delivery. This project models that obligation
end to end and proves what it is worth: the webhook handlers, the queue on disk, the drain worker, the
dedup set, the receiving adapter, and the text and configuration cores they rest on.

## How the model is laid out

| file | module | what it models |
|---|---|---|
| `Delivery.dfy` | `Delivery` | the delivery protocol as a transition system: handlers, directory, worker, forward tasks, process |
| `DeliverySafety.dfy`, `DeliveryRuns.dfy` | same names | its invariants, and the safety theorems over all runs |
| `DeliveryHistory.dfy` | `DeliveryHistory` | the counters and ledgers of these theorems, read off the steps |
| `DeliveryStability.dfy` | `DeliveryStability` | what stays the same over stretches of a run |
| `DeliveryIntake.dfy`, `DeliveryFates.dfy` | same names | what an enqueue has been through and what a process remembers; how a forward task can end |
| `DeliveryWire.dfy`, `DeliveryTurns.dfy` | same names | where each message on the wire comes from; how many turns of the agent a run can cause |
| `DeliveryProgress.dfy`, `DeliveryFairness.dfy`, `DeliveryRestart.dfy`, `DeliveryShutdown.dfy` | same names | shutdown and draining by measures, draining in every fair run, start-up recovery, the final drain |
| `DeliveryWakeup.dfy`, `DeliveryRaces.dfy` | same names | notifications: what is always covered and when not; the two races between deliveries of one id, as runs |
| `DeliveryMethods.dfy` | `DeliveryMethods` | the sequential methods below are runs of the transition system |
| `Server.dfy` | `Server` | `webhook_gowa` as a method over the shared objects |
| `Queue.dfy` | `Queues` | the queue directory, `enqueue`, `process_file`, `drain_pending`, reaping |
| `TtlSet.dfy` | `TtlSets` | the bounded, expiring set behind dedup and behind the ids of own sends |
| `Adapter.dfy`, `EndToEnd.dfy`, `Sessions.dfy` | `Adapters`, `EndToEnd`, `Sessions` | the receiving end: dedup window, single turn, session locks and file |
| `Transcription.dfy`, `Backoff.dfy` | `Transcription`, `Backoffs` | transcript folding and retry delays |
| `Inbound.dfy`, `Mention.dfy`, `Quote.dfy`, `Policy.dfy` | `InboundModel`, `Mentions`, `Quotes`, `Policies` | the message model, mention scan, quote composition, admission policy |
| `Routing.dfy`, `MediaToken.dfy`, `PathSegment.dfy` | `Routing`, `MediaTokens`, `PathSegments` | group map and channels, media token, percent-encoding |
| `Encodings.dfy`, `Text.dfy`, `Wrappers.dfy` | same names | UTF-8, hexadecimal, base64url, strings, `Option` and `Result` |
| `Induction.dfy` | `Inductions` | induction along the indices of a run |

A step of the delivery protocol is one action that others can interleave with: each of the handler's
steps 3 to 9, create, write, rename and notify of an enqueue, a directory listing, each insertion into
the in-flight set, and for every forward task taking a permit, reading, transcribing with the start of
the first attempt, each attempt's outcome, the start of each further one, each file operation, leaving
the in-flight set and dropping the permit. Crash, cancellation, exit and restart are steps too. The
history part of the state counts enqueues, runs, deliveries, failed removals and crashes and is read by
no step. Every theorem over runs holds for each faithful file naming, each way of folding
transcripts that keeps the id, each concurrency and each retry bound; `Deployed` names the ones in use.

The concurrent parts are modelled on values, because their point is interleaving. The code that runs
them one at a time is modelled as classes and methods with loops, and `DeliveryMethods` connects the two:
an uninterrupted drain, `process_file` or webhook is a path of the transition system with the same effect.

## Assumptions

- A crash is a process crash, and a completed rename survives it.
- Two enqueues of one id do not overlap between creating and renaming the temporary file they share.
  Enqueues of one id that follow each other, also while the worker holds that name, are allowed.
- A message is delivered when `forward` returned Ok; the debug sink, where Ok means discarded, is off.
- Serialising and parsing a message is the identity on complete files and fails on incomplete ones.
- Handlers have finished when cancellation is issued, as `axum::serve` with graceful shutdown arranges
  (src/main.rs:46-53). If the worker's shutdown wait times out, the process ends as in a crash.
- A select entered after the cancellation is ready at once, long before the fresh timer that it makes
  (src/forward.rs:215-221), so the safety tick can win once at most after the cancellation: in a select
  entered before it.
- The bounds on turns assume ideal scheduling: an attempt lasts at most the client timeout, a request
  reaches the adapter while the attempt that sent it runs, and a wait lasts exactly its backoff (in
  `DeliveryTurns`, at most). `DeliveryTurns` also assumes that requests take effect at the adapter in the
  order of their instants and that the adapter is not restarted meanwhile.

## Where the code and its documentation disagree

The model follows the code.

- `src/forward.rs:18-22` says that the worker wakes on a notification per enqueue. A notification can be
  consumed without effect: if the id's earlier forward task has already removed its file but not yet left
  the in-flight set, the drain lists the new file and passes it over. `DeliveryWakeup.ClaimIsIneffectiveIff`
  gives the exact condition, `DeliveryRaces.WakeUpCanBeLost` a run without crash or failure for every
  forwardable message, and `DeliveryWakeup.TickRepairs` the repair by the 30-second tick.
- `src/forward.rs:15-17` calls enqueue idempotent because one id has one file. Two deliveries of one id may still
  differ in content. If the second is renamed between the Read and the removal of the first one's forward task, the
  second record is deleted without ever being sent; the id counts as delivered all the same.
  `DeliveryWire.RemovedUnreadIffOverwritten` says exactly when, `DeliveryRaces.RecordCanBeDeletedUnread` gives a
  run without crash or failure for any two admissible deliveries of one id.
- `deploy/hermes-adapter/adapter.py:44` promises that conversations survive restarts. `_load_sessions` takes every
  OSError for an empty file, so an update whose load fails writes back a file without all other sessions.
  `Sessions.NothingIsForgottenIff` says exactly when the file still has everything, and
  `Sessions.SessionsCanBeForgotten` gives a run in which it has not.
- `src/sent_ids.rs:5-7` says that a fresh mention does not summon the bot; `src/server.rs:217-237` counts
  a tag of the bot's number.
- `src/agent.rs:169-171` says that a failed forward is never retried; the worker retries it.

## Model

| member | source | states |
|---|---|---|
| DeliveryRuns.NoAcknowledgedLoss | src/server.rs:252-285 | in every state of every run, an id acknowledged as enqueued or as a duplicate is in `pending`, in `dead`, or was delivered |
| DeliveryRuns.DuplicatesAreAccountedFor | src/forward.rs:330-344 | for every id and run, deliveries are at most its enqueues plus its failed removals plus all crashes |
| DeliveryRuns.WorkersExclude | src/forward.rs:232-285 | the in-flight set is exactly the names of the forward tasks that answer for one, no name twice, and at most `concurrency` are past the semaphore |
| DeliveryStability.StaleTasksAreInert | src/forward.rs:300-304 | from when a task spawned off a stale listing finds its file gone, unless its id is enqueued again, none of its steps changes a directory or sends anything |
| DeliveryRuns.DirectoryIsCrashConsistent | src/forward.rs:55-90 | every final file is the complete record of its own name and was admitted; reopening keeps exactly the final files |
| DeliveryStability.RecordsAreStable | src/forward.rs:291-364 | over any stretch of a run, crashes and restarts included, a final file holds what it held or is gone, until its id is enqueued again |
| DeliveryStability.FilesWereEnqueued | src/forward.rs:76-90 | in every state of every run, each final file has a last enqueue under its name in that run |
| DeliveryWire.EveryAttemptSendsTheSame | src/forward.rs:330-363 | over any stretch of a run, every attempt of one `process_file` puts the same message on the wire |
| DeliveryWire.TranscriptsNeverCompound | src/forward.rs:309-332 | over all runs, whatever an attempt puts on the wire is exactly the queued record that its forward task read, admitted before, with the texts of the usable clips of that one Read in front, in order, one per line and once |
| DeliveryWire.EveryMessageIsOneFold | src/forward.rs:309-332 | so every message ever on the wire was put there by an attempt and is such a fold |
| DeliveryWire.RemovedUnreadIffOverwritten | src/forward.rs:330-334 | every removal deletes the record enqueued last under its name, and that record was read by the removing task if and only if it was renamed before that task's own Read; otherwise nobody read it |
| DeliveryTurns.RunsAreAccountedFor | src/forward.rs:330-363 | in every run, `process_file` begins to send an id at most as often as it was enqueued, failed to be removed, was given back, or a crash happened |
| DeliveryTurns.TurnsAreAccountedFor | deploy/hermes-adapter/adapter.py:310-316 | from webhook to turn: over any timed run whose retries fit the adapter's window, whatever acks are lost and whatever else reaches the adapter, the turns for an id are at most those beginnings, hence bounded by the same counts |
| DeliveryTurns.DefaultTurns | src/config.rs:20-22 | with the default five retries and one-second base the bound holds |
| DeliveryRuns.OnlyAddressedMessagesEnter | src/server.rs:217-265 | where the mention gate applies, whatever was enqueued is a call, tags the bot, or refers to a send of the same process less than six hours old |
| DeliveryRuns.AdmittedMeetsTheSettings | src/policy.rs:35-84 | in every run, whatever was enqueued meets the operator's settings: its sender may write, or its group is listened to and, where mentions are required, addressed the bot |
| DeliveryRuns.AdmittedReachesItsAgent | src/channel.rs:78-99 | in every run, whatever was enqueued from a mapped group carries the label of its mapping, everything else the default label, and that label has its own client |
| DeliveryIntake.EveryEnqueueWasJudged | src/server.rs:208-270 | in every run, an enqueue goes back within its process to an accepted event, a dedup check that found the id not live, and a message that meets the settings, in this order, and writes that message with the router's label |
| DeliveryIntake.EveryRefusalIsDue | src/server.rs:260-264 | in every run, a delivery is refused only if the message, with the addressing verdict of its arrival, does not meet the settings |
| DeliveryIntake.AddressedMessagesAreHeard | src/server.rs:217-237 | the converse of the gate: calls, tags of the bot's number, and replies or reactions to a send of the same process that its log still knows (clock read in order, younger than the time-to-live, fewer than `capacity` others since) arrive as addressed |
| DeliveryIntake.SecondEnqueueIsExplained | src/server.rs:252-282 | within one process an id already marked is enqueued again only if the later delivery was checked before the mark, or after it had expired or been outnumbered |
| DeliveryIntake.DuplicatesWereMarked | src/server.rs:252-257 | a delivery is answered as a duplicate only if this process marked its id less than the dedup window before |
| DeliveryFates.EveryRunEndsByItsFate | src/forward.rs:330-363 | in every run, a forward task sets its file aside only after `max_retries + 1` attempts that all failed, removes it only after exactly one success, and leaves it only on shutdown, after a failed attempt that was not the last; between attempts its backoff timer expired |
| DeliveryRuns.InvReachable | src/server.rs:252-285 | the joint invariant holds in every reachable state, among it: an id in dedup was enqueued by this process |
| DeliveryRuns.DeployedIsOk | src/forward.rs:76-90 | the deployed naming and folding meet what the protocol theorems require |
| DeliveryHistory.CountersAreExact | src/forward.rs:330-344 | in every run, the counters that the theorems speak of are the numbers of enqueues, deliveries, failed removals, begun and handed-back runs, sent messages, starts and crashes |
| DeliveryHistory.LedgersAreExact | src/server.rs:252-285 | in every run, a record, an own send or an acknowledged id is in its ledger exactly if a step put it there |
| DeliverySafety.RemovalsForward | src/forward.rs:330-344 | how each step of a forward task changes which delivered ids still have their file to be removed |
| DeliverySafety.CountForward | src/forward.rs:330-344 | each step of a forward task keeps the potential behind the duplicate count |
| DeliverySafety.TasksForward | src/forward.rs:260-285 | every step of a forward task keeps exclusion and the permit count |
| DeliveryProgress.GoodReachable | src/forward.rs:213-226 | in every run, what the shutdown and progress results start from: the invariant, bounded attempts, and that only a cancelled worker leaves its loop |
| DeliveryProgress.AttemptsAreBounded | src/forward.rs:330-363 | in every run, no forward task makes more than `max_retries + 1` attempts |
| DeliveryProgress.ShutdownAdvances | src/forward.rs:213-226 | every step of a cancelled process, the safety tick and expiring backoff timers included, lowers a lexicographic measure |
| DeliveryProgress.ShutdownIsNeverStuck | src/forward.rs:213-226 | a cancelled process that has not ended can always take such a step |
| DeliveryShutdown.JoinFollowsTheFinalDrain | src/forward.rs:215-226 | in every run, before the worker joins its tasks it has seen the cancellation and listed the directory once more while nothing arrives any more; unless that listing fails, the drain considers every file it met, and a file that was there at the cancellation is among them or was removed or set aside meanwhile |
| DeliveryShutdown.ShutdownTriesEveryFile | src/forward.rs:223-226 | by the join each file met by the final listing is gone, was given back by a forward task after the drain had considered it, or was raced |
| DeliveryProgress.EveryShutdownEnds | src/forward.rs:213-226 | however the steps are chosen and timers expire, the final drain and the wait come to an end |
| DeliveryProgress.AtMostOneFurtherAttempt | src/forward.rs:350-360 | after cancellation each forward task begins at most one attempt more than its backoff timers expire; so at most one if none does, and none if it was in an attempt or waiting; a task still reading or transcribing has its first attempt before it |
| DeliveryProgress.AfterShutdownNothingIsLost | src/forward.rs:223-226 | after shutdown every undelivered message is in `pending` or `dead` and nothing is in flight |
| DeliveryRestart.NextStartPicksUpEverything | src/forward.rs:213-214 | when the first drain after a restart ends, whoever else moved meanwhile, every final file left on disk and every one its listing met has been given a forward task |
| DeliveryProgress.SmoothStepsUseUpPotential | src/forward.rs:232-364 | without enqueues, crashes and file errors no step adds work and each productive one uses some up |
| DeliveryProgress.ProductiveStepsAreBounded | src/forward.rs:330-363 | so the number of productive steps is bounded, whatever the forwards do |
| DeliveryProgress.WorkIsNeverStuck | src/forward.rs:213-285 | while something is pending or under way, some step is productive or brings the next listing closer |
| DeliveryFairness.FairRunsEmptyTheQueue | src/forward.rs:213-364 | in every fair run without enqueues, crashes and file errors, whatever the forwards do, from some moment on nothing is pending and every forward task has ended |
| DeliveryFairness.FairRunsExist | src/forward.rs:213-364 | from every state of regular operation there is such a fair run |
| DeliveryProgress.QueueCanEmpty | src/forward.rs:213-364 | from every state of regular operation the worker alone has a path that empties `pending` and finishes every forward task |
| DeliveryWakeup.PendingFilesAreCovered | src/forward.rs:86-88 | in every run, a pending file is about to be notified, listed, considered or attended, unless it was passed over since the last listing |
| DeliveryWakeup.MissedWasPassedOver | src/forward.rs:232-256 | in every run, a file that was passed over was passed over since the last listing by a failed listing, by a forward task that left it, or by the race on its name |
| DeliveryWakeup.ClaimIsIneffectiveIff | src/forward.rs:251-256 | considering a listed name leaves it unattended if and only if a returned forward task still holds that name |
| DeliveryWakeup.EnqueueIsSeenOrRaced | src/forward.rs:86-88 | after an enqueue, over any stretch of ordinary operation, its file is gone, covered, or was passed over in a race; and a race needs its name to have been in flight when the enqueue renamed, and does leave the file unattended and passed over |
| DeliveryWakeup.FreeEnqueueIsNoticed | src/forward.rs:213-221 | an enqueue whose name is not in flight is noticed: once the worker rests with no notification stored, its file is gone or attended to |
| DeliveryWakeup.ListedIsConsidered | src/forward.rs:232-285 | in every run, a drain that ends has considered every file its listing met, and each has got a forward task unless it was raced |
| DeliveryWakeup.TickRepairs | src/forward.rs:215-221 | in every run, when the drain started by a tick ends, a file stranded before has got a forward task, unless it was gone before the listing or was raced again |
| DeliveryWakeup.TickRelistsEverything | src/forward.rs:215-221 | from idle, the tick makes the worker list every pending file again |
| DeliveryRaces.WakeUpCanBeLost | src/forward.rs:251-284 | for every forwardable message there is a run, without crash or failure, that ends with it acknowledged, pending and unattended |
| DeliveryRaces.RecordCanBeDeletedUnread | src/forward.rs:330-334 | for any two admissible deliveries of one id there is a run, without crash or failure, that acknowledges both, leaves nothing on disk, and has sent only the first record |
| DeliveryMethods.DrainIsAPath | src/forward.rs:232-285 | an uninterrupted drain of the transition system spawns what `Drainer.DrainPending` spawns, in that order |
| DeliveryMethods.ProcessFileIsAPath | src/forward.rs:291-364 | every fate of the retry loop is a path with the messages and directory effects `ForwardQueue.ProcessFile` promises |
| DeliveryMethods.RetryIsAPath | src/forward.rs:330-363 | the same from any attempt on |
| DeliveryMethods.VerdictsAgree | src/server.rs:217-237 | the addressing verdict of the transition system is the one of `AppState` |
| DeliveryMethods.WebhookIsAPath | src/server.rs:208-285 | an uninterrupted delivery is a path with the effect `AppState.WebhookGowa` promises |
| Server.AppState.WebhookGowa | src/server.rs:208-285 | which answer is given when, a refusal exactly for a fresh message that does not meet the settings and with the cause they name, that only a queued message is marked seen and only after its file exists, and what the directory then holds |
| Server.AppState.IsMentioned | src/server.rs:217-237 | the addressing verdict: a call, an exact tag, or a reply or reaction to a live recorded send |
| Server.AppState.constructor | src/server.rs:49-50 | an empty dedup set of ten minutes and 50,000 ids, no recorded sends, and a self number that meets the scan's conditions |
| Queues.NamesAreFaithful | src/forward.rs:76-90 | distinct ids own distinct files, temporary and final names never meet, and each is recognised by its extension test |
| Queues.HexNamingIsFaithful | src/forward.rs:242-244 | so a non-empty id is always seen by the drain and a temporary file always by the reaper |
| Queues.ForwardQueue.Enqueue | src/forward.rs:76-90 | success leaves exactly the complete record under its name and wakes the worker; failure leaves at most the temporary file |
| Queues.ForwardQueue.ReapTmpFiles | src/forward.rs:455-469 | exactly the temporary files go, except those whose removal fails |
| Queues.ForwardQueue.MoveToDead | src/forward.rs:441-451 | the file moves under its own name, or everything stays: when it is gone already or the rename fails |
| Queues.ForwardQueue.ProcessFile | src/forward.rs:291-364 | the outcome, every message sent, when the agent saw a request, and both directories, for every fate of attempts, waits and the last file operation |
| Queues.FateIsFirstStop | src/forward.rs:330-363 | a run stops at the first attempt that succeeds, is the last, or is followed by a wait cut short, and ends as that attempt says; so `LeftPending` needs a cancelled wait and `Exhausted` all attempts |
| Queues.FateIsDetermined | src/forward.rs:330-363 | the fates of attempts and waits leave one outcome and one number of attempts |
| Queues.Retry | src/forward.rs:330-363 | the loop's outcome and timing for every fate of its attempts |
| Queues.ClaimedIsExact | src/forward.rs:232-256 | the names a drain spawns tasks for are exactly the listed final names that are not in flight, each once |
| Queues.Drainer.DrainPending | src/forward.rs:232-286 | one forward task per final name that is not claimed yet; all listed final names are claimed afterwards |
| TtlSets.EntriesAreLastStamps | src/dedup.rs:36-82 | over any operations with instants in any order, entries are latest stamps and the capacity holds |
| TtlSets.ContainsIsSound | src/dedup.rs:60-65 | a positive answer has an insertion or recording less than the TTL ago behind it |
| TtlSets.RunAgreesWithLog | src/dedup.rs:36-82 | with nondecreasing instants the set agrees with the plain log of stamps |
| TtlSets.PresenceIsDecidedByTheLog | src/dedup.rs:69-82 | an unexpired key is absent only if `capacity` others were stamped at or after it, and surely absent if that many were stamped after it |
| TtlSets.StrictTimesDecideExactly | src/dedup.rs:36-82 | without equal instants the log decides membership exactly |
| TtlSets.TtlSet.constructor | src/dedup.rs:25-31 | starts empty, with room for at least one entry |
| TtlSets.TtlSet.InsertNew | src/dedup.rs:36-48 | adds exactly when no live entry exists, never refreshes a live one, and sweeps |
| TtlSets.TtlSet.Record | src/dedup.rs:52-57 | always stamps, and sweeps |
| TtlSets.TtlSet.Contains | src/dedup.rs:60-65 | answers whether a live entry exists and changes no entry |
| TtlSets.TtlSet.Sweep | src/dedup.rs:69-82 | only live entries stay, within capacity, and no evicted live entry is newer than a kept one |
| TtlSets.SentIds.Record | src/sent_ids.rs:35-41 | an empty id is ignored, any other is recorded |
| TtlSets.SentIds.IsReplyToBot | src/sent_ids.rs:43-49 | yes only for a live id, which was recorded less than six hours ago |
| Adapters.Dedup.Seen | deploy/hermes-adapter/adapter.py:78-86 | purges what is older than the window, answers whether the id is left, and stamps it otherwise |
| Adapters.AnswersAreExact | deploy/hermes-adapter/adapter.py:303-316 | a turn starts exactly for a request of a conversation that is neither the bot's own nor a reaction, and whose id was not stamped in the last fifteen minutes; every other early answer leaves the stamps alone |
| Adapters.StampHolds | deploy/hermes-adapter/adapter.py:78-86 | a stamped id starts no turn within the window, in whatever order instants arrive |
| Adapters.AtMostOneTurn | deploy/hermes-adapter/adapter.py:310-316 | from any state and among any traffic, requests for one id within one window start at most one turn |
| Adapters.TurnsWithinWindows | deploy/hermes-adapter/adapter.py:310-316 | from any state and among any traffic in time order, requests for one id that lie in `n` windows start at most `n` turns |
| Adapters.TwoTurnsWhenApart | deploy/hermes-adapter/adapter.py:78-86 | two requests start two turns exactly when they are more than the window apart |
| EndToEnd.ArrivalsWithinSpan | src/forward.rs:330-363 | every request of one run reaches the adapter within the run's longest duration |
| EndToEnd.SingleTurnIffSpanFits | deploy/hermes-adapter/adapter.py:310-316 | one run never starts a second turn, whatever acks are lost, if and only if its longest duration fits the adapter's window |
| EndToEnd.DefaultsFit | src/config.rs:20-22 | the defaults last 751 s at most and fit in 900 s; one more retry would not |
| Sessions.OneTurnPerSession | deploy/hermes-adapter/adapter.py:207-235 | over all interleavings and restarts, two turns of one session never overlap |
| Sessions.LockIdentityIsStable | deploy/hermes-adapter/adapter.py:89-91 | the lock of a key is the same object for as long as the process lives |
| Sessions.FileIsTheFoldOfFinishedUpdates | deploy/hermes-adapter/adapter.py:51-71 | at every moment, crashes included, the session file is complete and is the fold of the finished updates from the last one whose load failed onward |
| Sessions.NothingIsForgottenIff | deploy/hermes-adapter/adapter.py:51-71 | every finished update is still in the file if and only if each key updated before the last failed load has been updated since; in particular if no load failed |
| Sessions.SessionsCanBeForgotten | deploy/hermes-adapter/adapter.py:51-56 | one failed load can make the file lose the finished update of another conversation |
| Transcription.TranscribeAudio | src/forward.rs:370-428 | the answer is the message with the text of every clip that was fetched, small enough and understood in front of its body |
| Transcription.VoicesReachTheBody | src/forward.rs:370-428 | those texts stand at the start of the body, in clip order, each once, one line break between each two, then an empty line and the message's own text unless that is blank; nothing else changes, and without such a clip nothing at all |
| Transcription.EveryVoiceNoteIsHeard | src/forward.rs:376-386 | there is one clip for each audio attachment, in order, and for nothing else |
| Backoffs.BackoffIsExact | src/forward.rs:431-437 | the clamped shift and the saturation never show: the delay is `min(60 s, base * 2^attempt)` for every base and attempt |
| Backoffs.BackoffNeverShrinks | src/forward.rs:431-437 | delays are nondecreasing |
| Backoffs.TotalBackoffClosedForm | src/forward.rs:123-133 | the total over any number of retries in closed form |
| InboundModel.FirstFaultRefuses | src/model.rs:268-277 | messages and reactions are refused exactly for their first fault: own, no conversation, a status or newsletter, no id |
| InboundModel.MessageFollowsPayload | src/model.rs:268-321 | each field of an accepted message comes from its own payload field, trimmed; an own text is kept to the letter, and captions stand in for a missing one |
| InboundModel.ReactionFollowsPayload | src/model.rs:327-357 | the same for reactions; an empty emoji is kept |
| InboundModel.CallFollowsPayload | src/model.rs:363-391 | the same for calls, which belong to the group or else to the caller; and when they are refused |
| InboundModel.KindFollowsEvent | src/model.rs:255-262 | the kind of an accepted event is the one its name says |
| InboundModel.OtherEventsAreRefused | src/model.rs:255-262 | an event is refused as none of these exactly when it has another name |
| InboundModel.OnlySlashesGo | src/model.rs:397-423 | a media path loses its leading slashes and nothing else |
| InboundModel.AcceptedIsWellFormed | src/model.rs:255-262 | every accepted event has a non-empty trimmed id and conversation, is not addressed yet, and is not from the bot unless a call |
| InboundModel.MessageIsWellFormed | src/model.rs:268-321 | the same for messages, with no blank quote |
| InboundModel.ReactionIsWellFormed | src/model.rs:327-357 | the same for reactions, which carry no body, media or quote |
| InboundModel.CallIsWellFormed | src/model.rs:363-391 | the same for calls |
| InboundModel.CollectMedia | src/model.rs:397-423 | attachments and captions in field order |
| Policies.PolicyIsExact | src/policy.rs:35-84 | a message passes exactly when it meets the settings, and each cause of refusal is read off the settings |
| Mentions.BodyMentionsNumber | src/model.rs:485-500 | true if and only if some `@` is followed by a maximal digit run equal to the number; jumping past a rejected match loses nothing |
| Mentions.CleanMatchIsTag | src/model.rs:485-500 | the scan's local test is the meaning of a tag |
| Mentions.SpellingsAgree | src/config.rs:493-497 | bare, plus-signed and JID spellings of one number normalise to it |
| Mentions.NumberIsGivenIff | src/config.rs:493-497 | a number is kept exactly when a digit stands in the setting before any `@` |
| Mentions.DigitsOfOneMore | src/config.rs:493-497 | exactly the digits are kept, in order |
| Mentions.SelfNumber | src/config.rs:249-251 | a configured number is non-empty and all digits, as the exact scan requires |
| Quotes.UnquotedIsUnchanged | src/model.rs:229-245 | a message that quotes nothing is presented as it is |
| Quotes.QuotedTextIsKept | src/model.rs:229-245 | what can be read back from a reply is the trimmed quoted text, line breaks normalised |
| Quotes.QuoteRoundTrip | src/model.rs:229-245 | the quoted lines and any non-blank body are recovered from the text the agent gets |
| Quotes.QuoteIsUnambiguous | src/model.rs:229-245 | equal texts come from equal quoted lines and equal, or both blank, bodies |
| Routing.ColonIsRequired | src/config.rs:367-377 | a blank entry is skipped, and one is rejected for lack of a colon exactly when it has none |
| Routing.EntryIsExact | src/config.rs:374-390 | an entry is cut at its last colon; which parts are accepted and what each error is |
| Routing.FaultlessMapIsKept | src/config.rs:364-399 | a setting in which every entry can be read and no group is mapped twice is accepted whole, in order |
| Routing.FirstFaultIsReported | src/config.rs:364-399 | otherwise the error is that of the first faulty entry |
| Routing.AcceptEntries | src/config.rs:364-399 | the loop with its `seen` set computes the specified pairs or first error |
| Routing.ParsedIsWellFormed | src/config.rs:364-399 | accepted pairs are distinct group JIDs with non-empty labels |
| Routing.PrintGroupChannels | deploy/channels-env.awk:47-55 | the `END` block prints the specified map |
| Routing.MapRoundTrip | deploy/channels-env.awk:47-55 | parsing the printed map gives back the pairs, for all well-formed ones |
| Routing.ParseIsCanonical | src/config.rs:364-399 | every accepted setting can be printed and parsed again to the same pairs |
| Routing.LabelIsAcceptedIff | src/config.rs:342-357 | a label is accepted exactly when it is not `default` and consists of one or more small letters, digits and underscores |
| Routing.LabelsReadTheirOwnVariables | src/config.rs:204-235 | two accepted labels never read the same variable |
| Routing.UpperIsLetterwise | src/config.rs:204-235 | uppercasing turns each small letter into its capital and keeps the rest |
| Routing.UpperInjective | src/config.rs:204-235 | uppercasing keeps different labels apart |
| Routing.BuildChannels | src/config.rs:204-235 | succeeds if and only if no label is faulty, with one channel per label, in order, from the label's own variables; otherwise reports the error of the first faulty label |
| Routing.ValidateGroupChannelLabels | src/config.rs:403-415 | passes if and only if every mapped label is configured, and otherwise reports the first that is not |
| Routing.ExtendAllowlist | src/config.rs:256-260 | the allowlist grows by exactly the mapped groups |
| Routing.FromConfig | src/channel.rs:54-74 | every channel has its own client and every mapping its entry |
| Routing.Load | src/config.rs:204-260 | start-up succeeds if and only if labels, map and mapped labels are in order, and then into a consistent configuration; otherwise which error is reported |
| Routing.LabelsFollowTheMap | src/channel.rs:78-85 | under a consistent configuration a mapped group's messages carry the label of its mapping, and all others the default one |
| Routing.RoutingIsClosed | src/channel.rs:78-99 | every label stamped under a consistent configuration has its own client without fallback, and no mapped group is refused as unlisted |
| MediaTokens.AcceptedPathsStayInside | src/media.rs:48-57 | an accepted path starts with the media directory and holds neither two dots in a row nor a percent sign |
| Encodings.Base64IsUrlSafe | src/media.rs:26-33 | the encoded path holds letters, digits, `-` and `_` only |
| MediaTokens.SignedPathVerifies | src/media.rs:26-57 | a signed path verifies to itself exactly when it meets the path rules |
| MediaTokens.AcceptedTokensAreSigned | src/media.rs:39-57 | a token verifies to a path if and only if the path is allowed and the token is its encoding with its MAC |
| PathSegments.EncodePathSegment | src/gowa.rs:420-431 | the loop computes the byte-wise encoding |
| PathSegments.SegmentRoundTrip | src/gowa.rs:420-431 | percent-decoding recovers every input |
| PathSegments.SegmentHasNoDelimiters | src/gowa.rs:420-431 | the output holds letters, digits, `-._~` and `%` only, so no slash, question mark or number sign |
| PathSegments.PlainIsKept | src/gowa.rs:420-431 | a byte stays as it is exactly when it stands for such a letter, digit or mark |
| PathSegments.SegmentIsSafe | src/gowa.rs:420-431 | the output holds unreserved characters and `%XX` only, hence no slash |

## Left out

- HTTP, axum and reqwest plumbing, TLS, bearer checks, readiness probes and tracing: no state to reason about.
- Signature verification and the media MAC: the MAC is an arbitrary function, with no claim about its strength.
- JSON: taken as stated under the assumptions; the webhook's own parse failure (src/server.rs:198-205) is answered before the model begins.
- The outbound handlers, except that a successful send records its id; the rate limiter lives in the `governor` crate.
- Whisper, Opus and Ogg decoding: a clip's transcript is an arbitrary optional block, so the transcriber's block format is not modelled.
- MIME types and file names of attachments, URL syntax, `_FILE` secrets and reading of the environment.
- Overlapping enqueues of one id at the level of inodes, power loss, and replay from `dead` by an operator.
- Errors of single directory entries while listing: a listing fails as a whole or succeeds.
- Time in the transition system: timers may fire at any moment there; the timing of retries is in `Queues.Retry` and `EndToEnd`.
- Reads of the clock are natural numbers of milliseconds, also in the adapter, where the source uses floating-point seconds.
- The adapter's command line, its output parsing, typing threads and reply sending.
- `fleetview`, the shell scripts, the systemd units, and the YAML reading part of `deploy/channels-env.awk`.
