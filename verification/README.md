# Verified model of the run driver, its outbox, its flow locks and its shell guard

The repository runs flows of agents in tmux panes. A driver process owns one run. It keeps everything it
must not lose in append-only logs and small durable files, rebuilds its memory from them after a crash, and
types into panes at most once per input. Flows are authored as drafts, checked, canonicalised and locked.
Commands that agents want to run are inspected for tmux calls hidden in wrappers.

The modules follow that structure:

| part | modules | what is proved |
|---|---|---|
| Driver | `Delivery`, `DriverLog`, `DriverSteps`, `DriverInvariants`, `DriverPreservation`, `DriverBarriers`, `DriverAllocations`, `DriverRuns`, `DriverTheorems`, `DriverCleanups`, `DriverGates`, `DriverWorlds`, `DriverService`, `DriverRequests` | The live object and the replay interpreter agree after every run of operations, failed appends and restarts, except in two places that are stated exactly; at most one input per key; nothing is filed as submitted that is not known to have been; unique barriers, which a release reopens and an operator settles; increasing generations. |
| Outbox | `Outbox`, `OutboxService` | Every interleaving of commits and crashes followed by recovery leaves each batch whole, once and in order, published and acknowledged; the manifest is the one accepted last. |
| Logs | `JsonLines` | Wherever a log is cut, recovery keeps exactly the whole records; an append to a torn log that was not recovered spoils it. |
| Pane cleanup | `Cleanup`, `CleanupRuns`, `CleanupTheorems`, `CleanupOutcomes`, `CleanupService` | Exactly when a cleanup interrupted after any effect reaches the state of the uninterrupted one; in which runs an attempt succeeds, is refused or fails, and which failures are final. |
| Flows | `Ordering`, `FlowData`, `Paths`, `FlowCanonical`, `FlowCheck`, `FlowWellFormed`, `FlowReports`, `FlowChecker`, `FlowLocks`, `FlowSuggest` | The canonical form is a normal form; the checker reports each code exactly when its rule is broken; locks read back exactly when one QoS condition holds; suggested flows have no diagnostics. |
| Shell and frames | `ShellWords`, `ShellOptions`, `ShellCommands`, `ShellWrappers`, `ShellVerdicts`, `Frames` | Quoting and decoding are inverse; the option parser accepts exactly its grammar; every command line is a stack of wrappers around a target that decides what it runs, tmux, a script or another command; frames do not depend on chunking. |

How the code is represented:

- Objects that the code updates in place are classes (`RuntimeDriverService`, `PublicationService`,
  `PaneCleanup`, `LogFile`). Their methods append first and change memory afterwards, as the code does, and
  each is proved to take the object's view through steps of a specification on values. Whether an append, a
  write, a kill or a send succeeds is a parameter, so every schedule of failures is covered.
- Restarting the driver replays the log with an interpreter that is written separately from the live
  operations (`DriverLog.Apply` against `DriverSteps.Effect`), as in the code.
- Integers are unbounded except where the code's width matters: event counters and allocation generations
  saturate at the largest 64-bit value, and an append fails when the log has that many events.
- Strings are sequences of Unicode scalar values. Comparing them by code point is comparing their UTF-8
  bytes. JSON and SHA-256 appear as parameters: a faithful line codec, a parser of QoS payloads, a digest.

Some results differ from what one would expect of the code. Each is a lemma with its exact condition:

- A binding that follows a moved tmux window keeps its panes in memory, but its event empties the pane map
  on replay (`DriverTheorems.RebindReplaysIffNoPanes`, `DriverTheorems.RebindCanLosePanes`).
- Human nodes are settled without an event, so replay forgets them (`DriverTheorems.LiveEqualsReplay`).
- An allocation does not look at pending cleanups. When a pane is released but its receipt is not logged, and
  the activation is given another pane, the old cleanup is refused for a different allocation from then on,
  and loading the driver fails with it (`CleanupOutcomes.RefusedIffReallocated`,
  `CleanupOutcomes.RefusedForever`, `DriverCleanups.CleanupIsStrandedIff`,
  `DriverCleanups.CleanupCanBeStranded`).
- A pane that is dropped with the pane map before its cleanup is recorded leaves incomplete assets that no
  attempt completes (`CleanupOutcomes.IncompleteIffLost`).
- A cleanup whose capture was recorded as failed before the helper published its completion, or whose pane
  died before any snapshot was taken, cannot be resumed after a crash between recording the failure and
  recording the cleanup: every later attempt fails without any effect, and loading the driver fails with it
  (`CleanupOutcomes.LateCompletionBlocks`, `CleanupOutcomes.MissingSnapshotBlocks`,
  `CleanupOutcomes.BlockedForever`).
- An append that breaks off without a crash leaves a torn line that the next append completes: the log can
  no longer be read (`JsonLines.GluedReadsBackIff`).
- Sorting extensions can put a different QoS extension first, so a lock that was written can fail to read
  back (`FlowLocks.LockRoundTripsIff`, `FlowLocks.TwoQosCanBreakALock`).

## Model

| member | source | states |
|---|---|---|
| Delivery.DeliveryKeyInjective | src/driver/delivery.rs:452-463 | Two deliveries in known roles with the same key agree in activation, role, message id and generation, whatever the ids contain. |
| Delivery.RoleKeyInjective | src/driver/delivery.rs:452-463 | The role part of a key can be taken apart for every role name without `:` or `@`, whatever the message ids hold. |
| DriverLog.ReplayDriverEvents | src/driver/persistence.rs:142-526 | The loop over the log computes the fold of the interpreter over its events, from empty maps. |
| DriverLog.ReplayEvent | src/driver/persistence.rs:304-464 | One event changes the rebuilt maps as specified, in each of its kinds, and nothing else. |
| DriverLog.ReinstallBarriers | src/driver/persistence.rs:328-342 | The barriers of a release event overwrite what replay has under their keys and leave the submitted map. |
| DriverPreservation.StepAgrees | src/driver/persistence.rs:142-526 | For every enabled operation, replaying its event on agreeing maps gives maps that agree with the operation's live effect. |
| DriverTheorems.LiveEqualsReplay | src/driver/persistence.rs:304-464 | After every run, replaying the log gives the ambiguous, submitted and launched deliveries, generations, pending intents and the tmux binding that are in memory; the settled set differs by the human nodes and the pane map by panes carried over a re-binding, and by nothing else. |
| DriverTheorems.RestartChangesNothing | src/driver/mod.rs:493-566 | Without human nodes and without re-binding over owned panes, restarting leaves the whole state as it was. |
| DriverTheorems.RebindReplaysIffNoPanes | src/driver/tmux_ownership.rs:291-317 | A re-binding that keeps the pane map replays faithfully if and only if no pane was owned. |
| DriverTheorems.RebindCanLosePanes | src/driver/persistence.rs:217-253 | For any two activations there is a run, each with intent, binding and publication, after which both panes are owned in memory and the first is missing after replay. |
| DriverTheorems.ReleaseReplaysIffNonePending | src/driver/tmux_ownership.rs:151-181 | A release replays faithfully if and only if it names no activation with a pending allocation. |
| DriverTheorems.AtMostOneInput | src/driver/actuation.rs:49-406 | In every run, two started launches or prompts with the same key, or two started messages with the same id, have the withdrawal of the first between them. |
| DriverTheorems.NoBarrierIsLost | src/driver/delivery.rs:298-345 | In every run, a started input that was not withdrawn is still filed under its key with its own sequence. |
| DriverTheorems.SequencesAreUnique | src/driver/delivery.rs:228-254 | A started sequence belongs to at most one filed delivery over both maps. |
| DriverTheorems.BarriersResolveUniquely | src/driver/delivery.rs:228-254 | In every run, the sequence of an active barrier identifies that barrier alone, and no submitted delivery has its key or its sequence. |
| DriverTheorems.AllocationsIncrease | src/driver/tmux_ownership.rs:239-322 | In every run, successive allocations of an activation carry strictly increasing generations below the largest 64-bit value. |
| DriverTheorems.PendingAllocationIsNext | src/driver/tmux_ownership.rs:459-463 | In every run, an activation with a pending allocation owns no pane, and the pending generation is the number of its allocations so far. |
| DriverRuns.RunKeepsInv | src/driver/mod.rs:1333-1345 | Every run of operations, events of other kinds, failed appends, human settlements and restarts keeps the whole driver invariant. |
| DriverCleanups.CleanupIsStrandedIff | src/driver/tmux_ownership.rs:239-322 | In every run, a pending cleanup and the owned pane of its activation differ, and its completion is refused in every world, if and only if the log allocates the activation a later pane than the one the intent names. |
| DriverCleanups.CleanupCanBeStranded | src/driver/run_lifecycle.rs:668-694 | For every activation there is such a run: release, failed receipt, new allocation. |
| DriverCleanups.MessageIsFiledOnce | src/driver/capabilities.rs:111-238 | In every run, whatever is filed under a message id, ambiguous or submitted, is one delivery. |
| DriverGates.ReleasedInputsAreReopened | src/driver/actuation.rs:408-447 | In every run, a release makes every submitted launch and prompt of the panes it names an open barrier with the same delivery and the reason, in memory and on replay, and changes no other delivery. |
| DriverGates.ResolutionDecides | src/driver/delivery.rs:175-226 | In every run, resolving a barrier of a pane that is still owned lets its input be started again if and only if the answer is "not submitted" and the gate of its role was open. |
| DriverGates.PromptFollowsLaunch | src/driver/actuation.rs:140-234 | In every run, whenever a prompt is started, the submission of a launch of the same allocation is in the log before it. |
| DriverWorlds.SendsAtMostOnce | src/driver/actuation.rs:84-404 | Two inputs of the same kind were handed to tmux only with the first one withdrawn in between. |
| DriverWorlds.PlannedIsNext | src/driver/tmux_ownership.rs:459-463 | Under the driver invariant, the next pane of an activation that owns one has the generation after that pane's. |
| DriverRequests.HandleRequest | src/driver/mod.rs:603-673 | Whatever the request and whatever fails in it, handling it is a run of protocol steps that keeps the driver's invariant and accounts for every input and submission. |
| DriverRequests.Serve | src/driver/mod.rs:215-257 | After any requests and restarts, every submission in the log names an input that tmux took, that the machine-input ledger records or that an operator vouched for, and tmux was handed only started inputs, each once and in log order. |
| DriverRequests.SubmissionIsExplained | src/driver/delivery.rs:347-412 | In such a driver, one submission names a start that is in the ledger, was resolved, or was logged, sent and taken. |
| DriverService.RuntimeDriverService.Load | src/driver/mod.rs:493-566 | A new process rebuilds the maps of the restart step from the log, forgetting what only memory held. |
| DriverService.RuntimeDriverService.AppendDriverEvent | src/driver/mod.rs:1333-1345 | The event gets the next sequence and the counter moves with the log; a failed append changes neither. |
| DriverService.RuntimeDriverService.StartInputDelivery | src/driver/delivery.rs:272-345 | The barrier is durable before memory has it; it carries the pane's generation and the sequence of its event and replaces a submitted delivery under its key. |
| DriverService.RuntimeDriverService.FinishInputDelivery | src/driver/delivery.rs:347-412 | An ambiguous delivery becomes the submitted one under its key and opens the gate of its role; a missing barrier, a malformed role and a failed append change nothing. |
| DriverService.RuntimeDriverService.ResolveInputDelivery | src/driver/delivery.rs:175-254 | A resolution takes effect exactly when its started sequence names one active barrier and the append succeeds. "Submitted" files that delivery as submitted and shuts the gates of its role; "not submitted" removes it from both maps, leaves the gates and logs its withdrawal. |
| DriverService.RuntimeDriverService.ReleasedDeliveryBarriers | src/driver/actuation.rs:408-447 | The barriers of a release are those of the submitted launches and prompts of the owned panes it names, each with its delivery and the reason, none missing and no other. |
| DriverService.RuntimeDriverService.InstallReleasedDeliveryBarriers | src/driver/delivery.rs:436-449 | Barriers are installed without replacing one that is there, and leave the submitted map. |
| DriverService.RuntimeDriverService.ReleaseTmuxPanes | src/driver/tmux_ownership.rs:151-181 | One durable event takes the panes and their gates away and reopens exactly their submitted inputs; a failed append releases nothing, and no activations mean no event. |
| DriverService.RuntimeDriverService.BindTmux | src/driver/tmux_ownership.rs:420-431 | A new binding is durable before memory has it; a replacing one drops the pane map, a following one keeps it. |
| DriverService.RuntimeDriverService.PublishTmuxPane | src/driver/tmux_ownership.rs:433-457 | The allocated pane is owned with the pending intent's generation, the intent is gone, and no other pane changes. |
| DriverService.RuntimeDriverService.EnsureAllocationIntent | src/driver/tmux_ownership.rs:244-276 | A pending intent is used again; a new one carries the next generation and is durable first. |
| DriverService.RuntimeDriverService.EnsureIdentifiedTmuxPane | src/driver/tmux_ownership.rs:239-322 | Success publishes the pane that tmux located, with the generation of the pending intent or the next one, bound to the window it is in; on failure no pane changes. |
| DriverService.RuntimeDriverService.EnsureTmuxForActivations | src/driver/tmux_ownership.rs:183-237 | Success gives every listed activation a pane: the one it owned, if the binding was not replaced and tmux has the pane, and otherwise the one located for it with its next generation. Without a replaced binding no other pane is lost. |
| DriverService.RuntimeDriverService.ReconcileStalePanes | src/driver/tmux_ownership.rs:376-409 | Success leaves exactly the owned panes that tmux still has; a failure loses no pane that is not stale. |
| DriverService.RuntimeDriverService.RecoverPaneCleanup | src/driver/run_lifecycle.rs:405-419 | The cleanup of a stale pane is a run of intent, release and receipt; a missing pane is refused, no other pane is touched, success leaves neither the pane nor the intent, and it succeeds when nothing fails. |
| DriverService.RuntimeDriverService.EnsureCleanupIntent | src/driver/run_lifecycle.rs:421-456 | The intent for the owned pane is logged once and used again; one for another allocation is refused. |
| DriverService.RuntimeDriverService.FinishCleanup | src/driver/run_lifecycle.rs:678-704 | The receipt closes exactly its intent, and is replayed as such. |
| DriverService.RuntimeDriverService.SendInput | src/driver/actuation.rs:189-404 | A launch or prompt is submitted if and only if its barrier was logged, tmux took it, and both its publication and its submission were written; in every other case behind the barrier it stays ambiguous and every gate stays as it was. |
| DriverService.RuntimeDriverService.RecoverInput | src/driver/actuation.rs:140-186 | An input whose barrier is open is submitted if and only if the ledger records it for the same pane and the append succeeds, and is never sent again. |
| DriverService.RuntimeDriverService.Launch | src/driver/actuation.rs:147-233 | The round goes on to the prompt if and only if the launch was submitted before, is recorded in the ledger for the same pane, or is started, taken, published and submitted now. |
| DriverService.RuntimeDriverService.Prompt | src/driver/actuation.rs:234-404 | A prompt is reported as sent if and only if the ledger records it for the same pane, or the agent is ready and it is started, taken, published and submitted; otherwise nothing is settled, and an agent that is not ready is sent nothing. |
| DriverService.RuntimeDriverService.ActuateActivation | src/driver/actuation.rs:84-404 | One round sends only through the gates: nothing for activations that are not running, have no pane, are settled, or are for humans or scripts, and a prompt reported as sent was taken or recorded, as its launch was; a clear activation in a willing world gets both inputs. |
| DriverService.RuntimeDriverService.ActuateActivations | src/driver/actuation.rs:49-406 | The loop is a run of protocol steps of the listed activations that accounts for every input, and the activations it reports are settled. |
| DriverService.RuntimeDriverService.SendMessage | src/driver/capabilities.rs:111-254 | A filed id is answered from what is filed, with a conflict exactly for another target or payload, and never sent again. A fresh one for a missing, stopped or unowned activation is refused unsent; otherwise it is receipted if and only if it was taken, published and submitted. |
| Outbox.RecoveryCompletesHistory | src/driver/publication.rs:91-111 | After any interleaving of commits and a crash anywhere, recovery leaves the log as all batches made pending, whole, once and in order, their records public, the outbox empty, and the manifest the one accepted last. |
| Outbox.RecoverIsIdempotent | src/driver/publication.rs:12-25 | Recovering twice is recovering once. |
| Outbox.PendingNeverFails | src/driver/publication.rs:221-250 | In every reachable state the outbox holds at most one transaction and applying it reports neither a batch that ends inside nor a conflict. |
| Outbox.BatchReconcilesExactly | src/driver/publication.rs:221-250 | A batch is appended exactly when the log ends where it starts, left alone exactly when the log holds it there, and otherwise ends inside or conflicts by the length of the log. |
| Outbox.PrivateBeforePublic | src/driver/publication.rs:39-111 | A public record belongs to a transaction all of whose events, and those of every earlier one, are in the private log, and whose manifest, if it has one, was written before. |
| Outbox.AcknowledgedIsPublic | src/driver/publication.rs:188-194 | Every acknowledged transaction has all its records public. |
| Outbox.TakeAllKeepsInv | src/driver/publication.rs:39-111 | Every sequence of the durable primitives keeps the outbox invariant. |
| Outbox.ManifestSwapIsExact | src/run_assets.rs:1440-1479 | Redone any number of times, the swap leaves exactly its candidate on its base and its candidate, and never overwrites any other manifest. |
| OutboxService.PublicationService.ReadRuntimeEvents | src/driver/persistence.rs:28-67 | The loop returns the events of all lines in order, or the mismatch of a batch that does not start where the log ends. |
| OutboxService.PublicationService.ReconcilePrivateTransaction | src/driver/publication.rs:126-154 | The pending private half ends applied once; for runtime events memory becomes the log, for a manifest it does not change. |
| OutboxService.PublicationService.ReconcilePublicationOutbox | src/driver/publication.rs:91-111 | Success completes the pending transaction as recovery does; failure leaves a prefix of its primitives. |
| OutboxService.PublicationService.PersistPending | src/run_assets/publication.rs:144-172 | A transaction becomes pending only when none is; otherwise nothing changes. |
| OutboxService.PublicationService.CommitRuntime | src/driver/publication.rs:39-89 | At most one batch joins the history, the events beyond those persisted; after success memory equals the log exactly when the new driver extends the reconciled log. |
| OutboxService.PublicationService.HandleMutation | src/driver/mod.rs:603-640 | A mutating request reconciles before it extends the driver, so after every success memory, log and count agree, and the log grew by exactly the new events. |
| OutboxService.PublicationService.Load | src/driver/mod.rs:493-570 | From any durable state and no memory, success gives a driver that equals the log, an empty outbox, all records public and the accepted manifest. |
| OutboxService.PublicationService.WriteManifestWithPublication | src/run_assets.rs:1342-1396 | Refused exactly while a transaction is pending; success makes the candidate the manifest; runtime events never change. |
| JsonLines.TornTailKeepsWholeRecords | src/driver/storage.rs:42-74 | Wherever a log of records is cut, recovery keeps exactly the lines of the records written whole, reads those records, and a second recovery changes nothing. |
| JsonLines.CutInsideLine | src/driver/storage.rs:76-80 | An append that a crash cuts short adds the whole record or nothing. |
| JsonLines.WrittenReadsBack | src/driver/storage.rs:61-73 | Any records written one per line read back as themselves. |
| JsonLines.LogFile.ReadRecoverTornTail | src/driver/storage.rs:42-74 | Reading returns the records appended so far and truncates the file to their lines. |
| JsonLines.LogFile.AppendJsonLine | src/driver/storage.rs:76-80 | The bytes that arrive are appended; a log that is not torn gains the record if and only if all of them do, even when the sync then fails. |
| JsonLines.GluedLineReads | src/run_assets/durable_fs.rs:262-320 | A record appended to a torn line reads as whatever the two together decode to, and no recovery truncates it. |
| JsonLines.GluedReadsBackIff | src/run_assets/durable_fs.rs:262-320 | After an append that broke off and no recovery, the next record reads back if and only if nothing of the first arrived; otherwise every later read fails. |
| JsonLines.TruncateTornTail | src/driver/storage.rs:51-60 | The loop finds the end of the last terminated line. |
| CleanupTheorems.ResumeReachesSameStateIff | src/driver/run_lifecycle.rs:458-704 | For an attempt that would succeed, begun in memory as replay gives it: a crash after any of its effects, taken up again in the same world, ends in exactly the state of the uninterrupted run with the same preservation error, if and only if there is a text to record or the wait for the helper fails. |
| CleanupTheorems.RetryReachesSameState | src/driver/run_lifecycle.rs:458-704 | The same for a retry in the same process, as long as the capture has not been forgotten. |
| CleanupTheorems.RetryWithoutCapture | src/driver/run_lifecycle.rs:511-530 | Once it has, a retry is never blocked; it leaves the completion file, and an unfinished capture fails for want of it. |
| CleanupOutcomes.SuccessIsComplete | src/driver/run_lifecycle.rs:678-704 | After any run of interrupted attempts, crashes and other allocations, an attempt that succeeds leaves no pane owned, its binding retired, nothing pending, the cleanup and an unfinished capture recorded, the completion file gone if the pane was still owned and its capture known, and in the log the release, unless the pane was dropped with the pane map, then the receipt with the manifest's error; a pane that was released is dead. |
| CleanupOutcomes.PreservationIsExact | src/driver/run_lifecycle.rs:592-640 | From every reachable state, a capture that is recorded is complete exactly when its helper completed it, it was acknowledged and there is a text; otherwise the error is the one of the wait or names what is missing, and the file holds the text. |
| CleanupOutcomes.FailedKillIsRecorded | src/driver/run_lifecycle.rs:548-572 | A pane that cannot be killed stays owned, alive and pending; its text is saved and the manifest names the failure, and nothing else changes. |
| CleanupOutcomes.KillFollowsSnapshot | src/driver/run_lifecycle.rs:546-575 | Every pane with a manifest activation is killed only when its text is in the final capture file. |
| CleanupOutcomes.KilledTextIsReadBack | src/driver/run_lifecycle.rs:533-582 | From then on the file keeps that text in every run, and a resume that finds the pane gone reads it back. |
| CleanupOutcomes.NeverIncomplete | src/driver/run_lifecycle.rs:491-506 | As long as the pane map is not emptied under it, no run meets a released pane with incomplete assets. |
| CleanupOutcomes.IncompleteIffLost | src/driver/run_lifecycle.rs:491-506 | That error is met if and only if the pane was dropped with the pane map before its cleanup was recorded, and neither a pane nor a capture of another allocation has taken its place. |
| CleanupOutcomes.RefusedIffReallocated | src/driver/run_lifecycle.rs:464-485 | A pending cleanup is refused for a different allocation if and only if its activation was given another pane after losing or releasing its own, and still has it. |
| CleanupOutcomes.RefusedForever | src/driver/run_lifecycle.rs:393-403 | In that state no sequence of attempts, restarts and captures completes the intent. |
| CleanupOutcomes.ReallocationStrands | src/driver/tmux_ownership.rs:465-494 | For every cleanup that would succeed there is a run into that state: everything but the receipt, then another pane. |
| CleanupOutcomes.SucceedsUnlessFailureIsOnRecord | src/driver/run_lifecycle.rs:592-640 | For a pane that was capturing, an attempt in any reachable state and world succeeds if and only if no other pane or lost pane is in the way, the pane can be killed, and not: a failed capture is on record, the cleanup is not, and the helper's completion is there. |
| CleanupOutcomes.UnacknowledgedSucceeds | src/driver/run_lifecycle.rs:607-638 | For a capture that was never acknowledged, an attempt in any reachable state and world succeeds if and only if nothing of that kind is in the way, and reports why an unfinished capture failed. |
| CleanupOutcomes.LateCompletionBlocks | src/run_assets.rs:745-749 | For every such pane there is a run into that state: the wait runs out, the failure is recorded, a crash, then the helper publishes. |
| CleanupOutcomes.MissingSnapshotBlocks | src/run_assets.rs:826-843 | The same for a pane that died before a snapshot: the empty capture written for it is taken for its text. |
| CleanupOutcomes.BlockedForever | src/driver/run_lifecycle.rs:393-403 | No sequence of attempts, restarts and allocations changes anything in that state unless the pane map is emptied. |
| CleanupRuns.TakeAllKeepsInv | src/driver/run_lifecycle.rs:458-704 | Every run of cut-off attempts, crashes, dying panes, helper publications, new allocations and captures of the activation, and emptied pane maps keeps the cleanup invariant. |
| CleanupService.PaneCleanup.CompleteTmuxPaneCleanup | src/driver/run_lifecycle.rs:458-676 | The method performs exactly the effects of its plan, in order, as far as they succeed, and ends as the plan says when all of them do. |
| CleanupService.PaneCleanup.SettleCapture | src/driver/run_lifecycle.rs:592-640 | An unfinished capture is completed, recorded as failed, or refused, by the helper's completion, the text and the acknowledgement. |
| CleanupService.PaneCleanup.Close | src/driver/run_lifecycle.rs:641-676 | Mark, remove the completion file, release, retire the binding, log the receipt, in this order. |
| CleanupService.PaneCleanup.FinishCleanup | src/driver/run_lifecycle.rs:678-704 | The receipt is the last effect and follows the retired binding. |
| FlowCanonical.CanonicalFormDecidesContent | src/flow/canonical.rs:3-55 | Drafts with distinct node and contract ids have the same canonical form if and only if they say the same apart from order and repetition. |
| FlowCanonical.CanonicalizeIsIdempotent | src/flow/canonical.rs:3-55 | A canonical draft is its own canonical form, for every draft. |
| FlowCanonical.CanonicalizeDraft | src/flow/canonical.rs:3-55 | The loops over the lists compute the canonical form. |
| FlowCanonical.NodeContentDecides | src/flow/canonical.rs:6-15 | Two nodes have the same canonical form exactly when they differ in order and repetition only. |
| Ordering.SortUnique | src/flow/canonical.rs:31-46 | Sorting depends only on the multiset of elements, and determines it. |
| Ordering.SortDedupUnique | src/flow/canonical.rs:47-60 | Sorting and deduplicating depends only on the set of elements, and determines it. |
| FlowData.RoutesLawful | src/flow/canonical.rs:31-38 | The order of routes is a total order in which only equal routes compare equal. |
| FlowData.ResourcesLawful | src/flow/canonical.rs:39-44 | The order of resources is a total order in which only equal resources compare equal. |
| FlowData.ScopesLawful | src/flow/mod.rs:276-283 | The derived order of write scopes is a total order in which only equal scopes compare equal. |
| FlowCheck.RouteIdentityInjective | src/flow/mod.rs:95-113 | Routes share an identity only if they are the same route. |
| FlowReports.CheckIsExact | src/flow/check.rs:70-471 | The checker reports an error if and only if the draft is not well-formed, in either mode. |
| FlowReports.CodesAreExact | src/flow/check.rs:70-471 | Each of the twenty-three codes is reported if and only if its own rule is broken somewhere in the draft, in either mode. |
| FlowReports.SeveritiesAreExact | src/flow/check.rs:70-471 | Misused extensions are fatal, broad write scopes are warnings in the core mode, and everything else is an error. |
| FlowReports.WellFormedReportsNothing | src/flow/check.rs:70-471 | A draft that is well-formed for strict checking has an empty report in either mode. |
| FlowReports.ResourceRulesExact | src/flow/check.rs:138-198 | Each resource error is reported exactly when ids repeat, a path is `flow.json` or leaves the package, a README is not at the root, or a skill is not at `skills/<name>/SKILL.md`, said on the text of the paths. |
| FlowCheck.PackagePathIsExact | src/flow/check.rs:534-540 | A path is one of a package file if and only if it is not `flow.json` and not empty, does not begin with a separator, has no piece `..` and no first piece `.`. |
| FlowCheck.SkillPathIsExact | src/flow/check.rs:542-551 | A path is one of a skill if and only if its pieces are `skills` in front, one plain name and `SKILL.md`, and else nothing but empty pieces and dots. |
| FlowReports.RouteRulesExact | src/flow/check.rs:257-286 | Each route error is reported exactly when a route repeats or its target is missing. |
| FlowReports.NodeRulesExact | src/flow/check.rs:344-445 | Each node error is reported exactly when some node has an unresolved contract, a broken action or a foreign extension. |
| FlowReports.PackageRulesExact | src/flow/check.rs:217-239 | A README is reported missing exactly in a non-empty draft without one, and empty exactly when all of them are blank. |
| FlowChecker.FlowCheckReport | src/flow/check.rs:70-471 | The passes with their sets of ids seen so far report the diagnostics of the specification, in order. |
| FlowChecker.CheckRoutes | src/flow/check.rs:257-286 | The map of identities seen so far finds exactly the repeated routes. |
| FlowChecker.ResourceKinds | src/flow/check.rs:133-137 | The map from ids to kinds ends with the last resource of each id. |
| FlowLocks.LockRoundTripsIff | src/flow/mod.rs:427-451 | A lock reads back as itself if and only if the QoS target of its own sorted draft is not blank; otherwise reading fails validation. |
| FlowLocks.LockRoundTrips | src/flow/mod.rs:659-688 | With at most one QoS extension that parses, the canonical draft passes the checker, locks to the same lock, and the lock reads back. |
| FlowLocks.DeserializeIsExact | src/flow/mod.rs:427-451 | Whatever reads back was written exactly so, and is the lock of its own draft. |
| FlowLocks.LockIsOrderFree | src/flow/mod.rs:659-688 | Drafts that lock have the same locked draft exactly when they say the same, and then the same lock. |
| FlowLocks.LocksIffWellFormed | src/flow/mod.rs:659-688 | A draft locks if and only if it is well-formed; otherwise its report is returned. |
| FlowLocks.LockIdsIdentify | src/flow/mod.rs:659-688 | If the digest tells its inputs apart, locks with the same id or hash have drafts that say the same, and the same mode and report. |
| FlowLocks.TamperedLocksAreRefused | src/flow/mod.rs:427-451 | A lock that reads back is refused with any one part replaced, each with the error of that part. |
| FlowLocks.TwoQosCanBreakALock | src/flow/profile.rs:90-96 | Two QoS extensions, the later of which sorts first and has a blank target, lock but do not read back. |
| FlowLocks.CanonicalStaysSound | src/flow/mod.rs:659-688 | Canonicalising keeps every condition of the checker except the QoS target. |
| FlowSuggest.SuggestedFlowsCheck | src/flow/suggest.rs:3-88 | Every suggested draft passes the checker without a diagnostic in both modes. |
| FlowSuggest.SuggestedFlowsLock | src/flow/suggest.rs:3-88 | Every suggested draft locks and its lock reads back. |
| FlowSuggest.SuggestFlow | src/flow/suggest.rs:3-88 | Blank goals and then blank READMEs are refused; otherwise the draft is the suggestion for ids that are unique for the node names. |
| FlowSuggest.SuggestedNodesDeliver | src/flow/suggest.rs:24-76 | Every suggested node is for an agent, writes the one artifact its contract needs, and is prompted with its id, the goal and that artifact; there is one node for each id. |
| FlowSuggest.UniqueAsciiIds | src/flow/suggest.rs:90-114 | Each id is the first candidate of its slug that no earlier id uses; the counts only save trying. |
| FlowSuggest.FindUnused | src/flow/suggest.rs:98-110 | The search ends, at the first unused candidate. |
| FlowSuggest.UniqueIdsDiffer | src/flow/suggest.rs:90-114 | The ids are pairwise distinct slugs. |
| FlowSuggest.UniqueIdsAreUnique | src/flow/suggest.rs:90-114 | The rule determines the ids. |
| FlowSuggest.SlugAsciiId | src/flow/suggest.rs:116-139 | The loop computes the slug: lower-case words of ASCII letters and digits with single separators, or the fallback. |
| FlowSuggest.SlugIsIdempotent | src/flow/suggest.rs:116-139 | A slug is its own slug. |
| FlowSuggest.SlugJoinsWords | src/flow/suggest.rs:116-139 | The slug of one word is the word in lower case, of two parts with words their slugs with one separator, of no word the fallback; what is around the words does not matter. |
| ShellWords.QuotedDecodes | src/driver/actuation.rs:622-624 | Quoting and then decoding gives back every string. |
| ShellWords.QuotedInjective | src/driver/actuation.rs:622-624 | No two strings quote alike. |
| ShellWords.DecodeLiteralShellWord | src/tmux_guard.rs:278-313 | The loop with its buffer decodes as specified, with the first error in the word. |
| ShellWords.DecodeAppend | src/tmux_guard.rs:278-313 | Adjacent words decode on their own: after a literal word the rest decodes as from the start. |
| ShellWords.SingleQuotesPreserve | src/tmux_guard.rs:278-313 | Text between single quotes stands for itself if and only if it holds no single quote (section 2.2.2 of POSIX.1-2017 XCU). |
| ShellWords.DoubleQuotesPreserve | src/tmux_guard.rs:278-313 | Text between double quotes stands for itself if and only if it holds no double quote, backslash, dollar sign or backquote. |
| ShellWords.PlainWordsStand | src/tmux_guard.rs:278-313 | An unquoted word stands for itself if and only if it holds no quote, backslash, expansion character or white space. |
| ShellWords.BackslashPreserves | src/tmux_guard.rs:278-313 | Behind backslashes every character stands for itself, outside quotes and in double quotes. |
| ShellWords.RefusesUnquoted | src/tmux_guard.rs:278-313 | Behind any literal word, an unquoted dollar sign, backquote, `*`, `?` or `[` is refused as dynamic, and white space as such. |
| ShellWords.RefusesInDoubleQuotes | src/tmux_guard.rs:278-313 | In double quotes, a dollar sign or backquote is refused as dynamic. |
| ShellOptions.ParseAccepts | src/tmux_guard.rs:540-628 | Any legal options in any order and form, then operands, are parsed as exactly those options (Guideline 10 in section 12.2 of POSIX.1-2017 XBD for `--`). |
| ShellOptions.ParseIsRendered | src/tmux_guard.rs:540-628 | Whatever the parser accepts is a sequence of legal options followed by operands, with the flags, values and index reported. |
| ShellOptions.ErrorsAreExact | src/tmux_guard.rs:540-628 | Words are refused with an error if and only if, behind legal options, a word is wrong in the way of that error. |
| ShellOptions.ParseOptions | src/tmux_guard.rs:540-628 | The loop over words and clusters computes that parse, with the first error. |
| ShellVerdicts.NormalizeCommand | src/tmux_guard.rs:325-386 | The result is that of a target inside at most seven well-formed wrappers: tmux, the script it runs, another command, or badly written options; or there are eight wrappers. |
| ShellVerdicts.ScriptErasure | src/tmux_guard.rs:334-349 | A command line comes down to a script if and only if, inside at most seven well-formed wrappers, a shell is given that script by its last `-c` behind legal options, or `eval` is given words that join to it. |
| ShellVerdicts.OtherErasure | src/tmux_guard.rs:325-386 | A command line is taken for another command if and only if there is neither tmux nor a script nor a wrapped command in such a stack. |
| ShellVerdicts.RefusalsAreExact | src/tmux_guard.rs:325-386 | A command line is refused for its options if and only if those of the command in such a stack are not legal, and for its depth if and only if it has eight well-formed wrappers. |
| ShellVerdicts.WrapperOptions | src/tmux_guard.rs:710-744 | The flags and the options with values of each wrapper, one by one. |
| ShellVerdicts.AssignmentIs | src/tmux_guard.rs:426-430 | An assignment is a name without `=` and `/`, then `=`, then anything. |
| ShellVerdicts.JoinedWords | src/tmux_guard.rs:334-342 | The words of `eval` are joined in order with one space between any two. |
| ShellCommands.UnwrapEnv | src/tmux_guard.rs:406-416 | Behind the options of env all leading assignments are skipped and no more. |
| ShellWrappers.WrapperErasure | src/tmux_guard.rs:325-386 | A command line comes down to a tmux command if and only if it is that command inside at most seven well-formed wrappers. |
| ShellWrappers.DeepStacksAreRefused | src/tmux_guard.rs:383-386 | Eight or more wrappers are refused, whatever they wrap. |
| ShellWrappers.TmuxIsSuffix | src/tmux_guard.rs:325-386 | A tmux command that is found is a suffix of the command line that begins at a tmux program. |
| ShellWrappers.WrapperComesOff | src/tmux_guard.rs:406-424 | A well-formed wrapper in front of any command comes off whole. |
| ShellWrappers.OnlyWrappersComeOff | src/tmux_guard.rs:350-382 | Whatever comes off is a well-formed wrapper. |
| Frames.ReadFrame | src/driver/ipc.rs:111-153 | The result is that of the whole stream, whatever pieces it comes in; a stream that decides nothing is timed out exactly when a deadline comes before its end, and truncated otherwise. |
| Frames.DeliveredIs | src/driver/ipc.rs:111-135 | The bytes that count are those in front of the first deadline or empty read. |
| Frames.PayloadReads | src/driver/ipc.rs:136-148 | A newline-free payload with its newline is complete up to the limit and too large beyond it. |
| Frames.CutPayloadReads | src/driver/ipc.rs:133-148 | A stream that ends before the newline is truncated within the limit and too large beyond it. |
| Frames.WriteBytes | src/driver/ipc.rs:172-212 | The pieces written are a prefix of the bytes; success means all of them and a successful flush, and an error can also follow the last byte. |
| Frames.SendAndReceive | src/driver/ipc.rs:155-212 | Over any partial writes, any flush and any pieces read, the response, or the error put in place of one that is too large, arrives if and only if its whole frame was sent, whatever the writer reports; otherwise the frame is truncated. |
| Paths.JoinedPathComponents | src/flow/check.rs:534-551 | Plain names joined by separators come apart again, each as one component. |
| Paths.FileNameIsExact | src/tmux_guard.rs:522-524 | The program name of a path is its last piece, up to empty pieces and dots, if that is a plain name, and there is none otherwise. |
| Paths.ProgramInDirectory | src/tmux_guard.rs:522-524 | A program under any directory goes by its own name. |

## Left out

- The filesystem layer, file modes, locks, sockets, signals, threads and the tmux adapter: a write, a kill, a probe or a send is one step that may fail.
- In the driver and outbox models an append that fails leaves the log unchanged. `JsonLines` states what one that breaks off, or whose sync fails behind the last byte, leaves in the file; its effect on the protocols in the same process is not modelled. A log with as many events as the largest 64-bit number refuses further appends.
- Operation ids, run ids, ordinals and transaction digests: names that are functions of what is modelled.
- The contents of pipe capture, participant, operator pane and flow revision events: in the driver's log they are events of another kind; the cleanup model keeps the capture and the binding of its own pane. Forgetting a capture in memory has no event in the code; a restart brings the capture back.
- Records of another version or with missing fields, and unknown roles in them, are skipped on replay.
- The runtime's tick, routes and scheduling: runtime events are opaque and the next driver is any sequence of events.
- Preflight checks, public seals, obligations, snapshots and projections around a commit: they publish nothing new or only refuse earlier.
- Merging a pending transaction's ledger file that exists already: the acknowledgement is one rename.
- The cleanup outcomes collected for failed bindings.
- The control request and its resume gate, which decides which requests reach the steps modelled here.
- The message texts, hints and domains of diagnostics; repair candidates and run compatibility, which filter lists.
- Contract effects and node contracts derived from drafts; work profiles; export formats.
- Parsing shell scripts into commands: the model starts from an argument vector or a literal word.
- Matching tmux targets against owned panes, and the evidence recorded for a blocked command.
- DriverService.RuntimeDriverService.RecoverInput: whether the machine-input ledger has a submitted record for the same activation, pane and text is a parameter.
- DriverService.RuntimeDriverService.ActuateActivation: the texts and hashes of launches and prompts are parameters.
- DriverService.RuntimeDriverService.SendMessage: the size and identity checks of the arguments come before it and are not modelled.
- CleanupTheorems.RetryReachesSameState: a retry after the capture was forgotten differs; `CleanupTheorems.RetryWithoutCapture` says how.
- FlowLocks.LockRoundTrips: the premise on QoS extensions cannot be dropped, as `FlowLocks.TwoQosCanBreakALock` shows; `FlowLocks.LockRoundTripsIff` has the exact condition.
