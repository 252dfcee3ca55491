# HappyRanch end-to-end harness and client custody, in Dafny

HappyRanch drives its product through a browser, records what it saw, and keeps
private request files on the client. The parts of it that are hard to get right
are small protocols: an observation group that may only be sealed when every
expected request was observed cleanly, a document ledger that is written once and
checked again independently, nested absolute deadlines with one alarm, a first
error that must stay the first one under reentry, files that must survive a
crash, and a completion ledger published by compare-and-swap. This project models
those protocols and proves what they promise, for every input, every schedule of
events and every failure the model can express.

`dafny verify dfyconfig.toml` checks the whole project with Dafny 4.11.

## How it is organised

| files | what they model |
|---|---|
| `ObservationModel`, `ObservationInvariants`, `ObservationRuns`, `ObservationGroup`, `RootsPages`, `ObservationTheorems` | the browser's response-observation group: callbacks, owner, seal, and runs in which the two interleave |
| `ThreadLedger`, `ThreadLedgerTheorems` | the thread page's native event ledger and its independent replay |
| `Deadlines`, `DeadlineController`, `DeadlineTheorems`, `BoundSnapshot` | the controller's bounds, `phase` and `bounded`, the timer, the bit-mask snapshot of the bounds |
| `ErrorLatch`, `ErrorLatchTheorems`, `ErrorRecorder` | `record_error`, its first-error snapshot, and the failure-category publication, with reentrant calls |
| `CanonicalJson`, `Storage`, `Custody`, `CustodyPolicies` | private request files on a disk with volatile and stable views |
| `CompletedLedger`, `CompletedRuns`, `CompletedRunner` | the completion ledger: acceptance, publication, the strict reader, the join |
| `ForwardExcerpt` | quoted excerpts truncated to a UTF-8 byte budget |
| `ProcStat` | the `/proc/<pid>/stat` parser |
| `Encoding` | decimal digits and UTF-8 |
| `Prelude` | options, bytes, errors |

Code that updates fields step by step is a class whose methods are proved equal to
a pure function of the old state, or proved against a relation; the theorems are
then about those functions and relations, over whole runs. Things the code cannot
control are arbitrary: which events arrive at a wait, what a clock reads, which
call fails and whether before or after its effect, what other processes do between
two calls, and which record calls interrupt which step.

Where the code and its intent differ, the model follows the code:

- Through the team-move store a save of a bare JSON number can be read back truncated
  after a crash: 12 as 1, 0.5 as 0 (`CustodyPolicies.PartialNumbers`, `ReadAfterCrash`).
  `MoveSoundExactly` gives the exact condition: it happens exactly if the store saves an
  integer of two or more digits or a float other than minus zero point one digit. The
  release store is not affected (`ReleaseSound`).
- A first-error snapshot can end up both completed and refused
  (`ErrorLatchTheorems.CompletedThoughRefused`): a second error may arrive between
  the last check and the store. `CleanCompletionExactly` gives the exact condition. The
  sender at e2e/controller.py:1580-1593 ignores such a snapshot, since it tests the refusal again.
- `effective_end` does not read the phase stack, so the work bound inside a phase can lie
  beyond that phase, and a `bounded` scope inside it can get a later bound than the phase
  (`DeadlineTheorems.WorkEscapesPhase`). The timer never does. `CoveredExactly` and
  `PhaseWorkExactly` give the exact condition, which a caller can check on entry: the work
  bound is at most the requested end and at most every bound on the stack.
- A truncated excerpt exceeds its limit exactly when the limit is below the 28 bytes
  of the quoted bare marker (`ForwardExcerpt.Truncate`).
- Leaving `bounded` restores the value of the local bound, but a local bound that was
  absent on entry is present on exit, equal to the deadline (`DeadlineTheorems.BoundedKeeps`).

## Model

| member | source | states |
|---|---|---|
| ObservationGroup.Group.constructor | e2e/browser.py:412-430 | A new group is open and armed, with no scope, no failure and an empty record of moves. |
| ObservationGroup.Group.Fail | e2e/browser.py:432-435 | The first failure latches and later ones do not replace it. |
| ObservationGroup.Group.Guard | e2e/browser.py:437-447 | The guard first records every finished body, then passes exactly if there is no failure, time is left, the browser is not poisoned and every scope is current. |
| ObservationGroup.Group.Checkpoint | e2e/browser.py:449-462 | Success freezes an open group in which no scope is empty and every declared query has a member. On every exit a failure, a poisoning and an invalid scope are kept, and a doomed group stays doomed and is refused. |
| ObservationGroup.Group.Wait | e2e/browser.py:464-472 | Under any schedule of events: success means the awaited condition holds and the guard passes at the end. |
| ObservationGroup.Group.Finalize | e2e/browser.py:474-513 | Success implies the full seal over exactly the frozen membership. On every exit a failure, a poisoning and an invalid scope are kept, and a doomed group stays doomed and is refused. |
| ObservationGroup.Group.Consume | e2e/browser.py:588-622 | Success leaves the member with an accepted body and an unredirected status-200 GET response at its own endpoint and query; every latch and lineage only moves forward meanwhile. |
| ObservationGroup.Group.DigestBody | e2e/browser.py:588-622 | A body is accepted exactly if it decodes and its image agrees with the one already held for its query. |
| ObservationGroup.Group.ReadyScope | e2e/browser.py:644-652 | Success means every declared query of the scope has a finished body and all members are consumed. |
| ObservationGroup.Group.ObserveBody | e2e/browser.py:670-690 | The method's field updates equal the model's single recording of a finished body. |
| ObservationGroup.Group.AbortLocally | e2e/browser.py:692-712 | Aborting one scope marks it, records finished bodies and detaches its tasks, and touches no other scope. |
| ObservationGroup.Group.DetachScope | e2e/browser.py:488-491 | Finalization drops the wake callbacks of every member of the scope and changes nothing else. |
| ObservationGroup.Group.HandleClosed | e2e/browser.py:776-783 | Closing or crashing the page latches a failure and invalidates every scope of an armed group. |
| ObservationGroup.Group.PoisonWith | e2e/browser.py:785-808 | Poisoning latches the first failure, aborts every scope and sticks. |
| ObservationGroup.Group.HandleRequest | e2e/browser.py:810-855 | The request callback's loop over scopes equals the model: lineage first, then admission, a late or duplicate start as a failure, a malformed query as poison. |
| ObservationGroup.Group.HandleNavigated | e2e/browser.py:857-923 | The navigation callback equals the model for malformed, same-document and new-document payloads. |
| ObservationGroup.Group.HandleCommit | e2e/browser.py:857-923 | Only the pending unredirected main-frame GET request commits a document; anything else poisons. |
| ObservationGroup.Group.HandleResponse | e2e/browser.py:925-960 | The response callback accepts one status-200 response per member and latches every deviation. |
| ObservationGroup.Group.HandleFinished | e2e/browser.py:962-970 | The finish callback marks the member finished and latches redirected members. |
| ObservationGroup.Group.HandleFailed | e2e/browser.py:972-977 | A failed request latches exactly if the group is armed and some scope has it as a member. |
| ObservationGroup.Group.ArmScope | e2e/browser.py:1094-1106 | A new endpoint is armed exactly if the group is open and no scope has its path; the scope starts with its family's queries and no member. |
| ObservationGroup.Group.RefuseWith | e2e/browser.py:1048-1092 | An error refuses the group, keeps every latch, and leaves the browser poisoned and disarmed. |
| ObservationGroup.Group.OpenStep | e2e/browser.py:1094-1106 | Whatever a caller does with an open group, arming, waiting or consuming, keeps every latch; a doomed group stays doomed. |
| ObservationGroup.Group.Run | e2e/browser.py:1048-1092 | The group ends sealed with all guarantees or refused with a failure and poisoned. Its final state is the replay of the recorded moves; no state on the way to a seal was doomed, and the first failure of any state is the final one. |
| ObservationInvariants.ApplyStep | e2e/browser.py:776-977 | Every callback keeps the invariant: admitted members follow arm and commit, accepted responses are status 200, images agree, each outcome is noted once. |
| ObservationRuns.TakeKeeps | e2e/browser.py:412-513 | Every move of the owner, and every event, keeps the invariant and takes back no failure, poisoning, invalidity or accepted fact. |
| ObservationRuns.ReplayKeeps | e2e/browser.py:776-1106 | The same over every finite interleaving of the owner's moves and events. |
| ObservationRuns.DoomedNeverSeals | e2e/browser.py:437-513 | A group that is failed, poisoned or has an invalid scope stays so through every run, and no run seals it. |
| ObservationTheorems.FirstFailureWins | e2e/browser.py:432-435 | Whatever events and owner's moves follow, refusal included, the group's failure stays the first one. |
| ObservationTheorems.FrozenCohort | e2e/browser.py:449-513 | After the checkpoint no run adds, drops, reorders or changes the identity of a member. |
| ObservationTheorems.SealedRunClean | e2e/browser.py:474-513 | A run that ends sealed passed through no state with a failure, a poisoning or an invalid scope. |
| ObservationTheorems.LateRequestPreventsSeal | e2e/browser.py:832-846 | An eligible request start after the checkpoint latches a failure, and no continuation of events and owner's moves seals the group. |
| ObservationTheorems.NoReturn | e2e/browser.py:810-923 | For any scope, before its commit or after: once its document is left or superseded, by a navigation request other than its own first GET of its target, by another document's commit, by a same-document event it does not tolerate, by a bad payload or by the page closing, no continuation of events and owner's moves seals the group, even one that comes back. |
| ObservationTheorems.InvalidExactly | e2e/browser.py:776-977 | As long as the browser is not poisoned, an event leaves a scope invalid exactly if it was so before or the event is such a departure; no other event does. |
| ObservationTheorems.ReachedDeparts | e2e/browser.py:818-918 | From a reached target every same-document move to another address, every new document and every main-frame navigation request is a departure. |
| ObservationTheorems.PrecommitGrantsNothing | e2e/browser.py:857-923 | A same-document event before the commit grants no lineage, no reachability and no admission. |
| ObservationTheorems.LineageOrder | e2e/browser.py:516-586 | In every state of every run, for a new-document scope: arm, own navigation request and commit are strictly ordered, the lineage is that request, and every member starts after the commit. |
| ObservationTheorems.OutcomeNotedOnce | e2e/browser.py:670-712 | Across wake, guard, poison and abort each member's outcome is noted exactly once, and only if it has one. |
| ObservationTheorems.SealedImagesAgree | e2e/browser.py:588-622 | In a sealed scope all bodies of one query are present and have equal images. |
| ObservationTheorems.RepresentativeIsEarliest | e2e/browser.py:654-656 | A query's representative is its member with the least start sequence. |
| ObservationTheorems.RootsPartition | e2e/browser.py:367-392 | A sealed seven-status scope shows the target in exactly one row over its representative pages, on the page of its own status, if that status is one of the seven. |
| RootsPages.CheckRootsPage | e2e/browser.py:367-392 | One pass over the rows decides exactly whether the page holds distinct roots of one status, each with its own hold, with the target, at its declared severity, iff it has that status. |
| RootsPages.ImageOf | e2e/browser.py:367-409 | The steps of the image computation equal the image the observation group uses; a roots image exists only for a declared query on whose page the target appears iff it has that status. |
| ThreadLedger.Sort | e2e/browser.py:1516-1517 | The pending inventory is the unique strictly increasing list of the set. |
| ThreadLedger.Recorder.HandleRequest | e2e/browser.py:1510-1523 | The request callback's updates equal one producer step: entry, pending set and index. |
| ThreadLedger.Recorder.HandleNavigated | e2e/browser.py:1577-1597 | The navigation callback equals one producer step, and raises without any change where it refuses. |
| ThreadLedger.Recorder.HandleOther | e2e/browser.py:1533-1576 | An entry of any other kind is one producer step that leaves document and pending set alone. |
| ThreadLedger.Recorder.HandleResponse | e2e/browser.py:1543-1562 | A response extends the run by none, one or two such steps: one for a stream, one for a required response. |
| ThreadLedger.CheckEntry | e2e/e07.py:571-602 | One turn of the replay loop accepts exactly the entries the replay accepts and moves its four variables as the replay does. |
| ThreadLedger.CheckLedger | e2e/e07.py:566-602 | The two passes accept exactly the chronological ledgers whose replay never refuses, and return the replay's state. |
| ThreadLedger.RefusedPrefix | e2e/e07.py:566-602 | A ledger is refused if any of its prefixes is. |
| ThreadLedgerTheorems.Simulation | e2e/browser.py:1509-1599 | On every ledger the callbacks can produce, a replay that has not refused holds the producer's current document and pending set. |
| ThreadLedgerTheorems.RequestRefusal | e2e/e07.py:572-586 | On a produced ledger a request is refused exactly if it is required and was not issued under one settled main-frame document. |
| ThreadLedgerTheorems.SameDocumentRefusal | e2e/e07.py:587-602 | On a produced ledger a same-document entry is refused exactly off the origin or with a navigation pending. |
| ThreadLedgerTheorems.CommitRefusal | e2e/e07.py:587-600 | On a produced ledger a commit is refused exactly for a foreign origin, a document no longer pending, a wrong resource type, a redirect or a time before its request. |
| ThreadLedgerTheorems.MirrorsRun | e2e/browser.py:1509-1599 | For runs that announce each native request once, the replay's documents are the producer's entries under their own ids, and pending ids are uncommitted. |
| ThreadLedgerTheorems.RequiredRequestOwned | e2e/e07.py:566-602 | On any ledger, acceptance means a required request names the latest earlier committed unredirected main-frame GET document, with every earlier navigation committed. |
| ThreadLedgerTheorems.ChronologicalLedger | e2e/e07.py:566-568 | Under a monotonic clock every produced ledger passes the chronology check. |
| Deadlines.TimerEndLeast | e2e/controller.py:360-369 | The timer's instant is one of the bounds in force and no bound in force is below it. |
| DeadlineController.Controller.SetTimer | e2e/controller.py:365-374 | The sync's field updates equal the model: on the main thread the alarm is the least bound if that lies ahead and no native phase is on top, and absent otherwise; other threads and failures change nothing. |
| DeadlineController.Controller.RunPhase | e2e/controller.py:376-413 | The phase's steps over its fields, with the body as any program, equal the model. |
| DeadlineController.Controller.RunBounded | e2e/controller.py:427-459 | The bounded scope's steps over its fields, with the body as any program, equal the model. |
| DeadlineController.Controller.RestoreTimer | e2e/controller.py:395-413 | The last finally block equals the model: a timer failure is recorded and surfaces only if nothing failed before it. |
| DeadlineController.Controller.CheckRemaining | e2e/controller.py:461-466 | The check refuses exactly when the work bound has passed or provider observation has failed. |
| DeadlineController.Controller.RecordError | e2e/controller.py:950-978 | Each error adds one failure entry and never replaces the primary error. |
| DeadlineController.Controller.Run | e2e/controller.py:360-459 | For every program of nested scopes the run over the fields equals the model's run. |
| DeadlineTheorems.ExecKeeps | e2e/controller.py:360-459 | At every recorded instant of every program: a phase is within every open scope, a bounded scope within every open bounded scope, the timer within all of them, and a timer set since the last change is disarmed or at the least live bound; stack prefix, local bound and primary error survive. |
| DeadlineTheorems.PhaseKeeps | e2e/controller.py:376-413 | Every exit from a phase restores the phase stack exactly, even with leaked entries. |
| DeadlineTheorems.BoundedKeeps | e2e/controller.py:427-459 | Every exit from a bounded scope restores the value of the local bound and the stack below. |
| DeadlineTheorems.PhaseSurfaces | e2e/controller.py:376-413 | The body's own error, as its run returns it, surfaces and is recorded, whatever happens while leaving; a normal exit leaves the timer set; an exhausted bound or another thread is refused without a trace. |
| DeadlineTheorems.BoundedSurfaces | e2e/controller.py:427-459 | The same for a bounded scope: the body's own error surfaces and is recorded, and a normal exit on the main thread leaves the timer set. |
| DeadlineTheorems.PhaseEntry | e2e/controller.py:376-394 | A phase enters its body with the timer just set for the least of its own bound and all others. |
| DeadlineTheorems.BoundedEntry | e2e/controller.py:427-446 | A bounded scope enters its body with the timer just set for its own bound and all others. |
| DeadlineTheorems.CoveredExactly | e2e/controller.py:360-384 | On entry the work bound is within the new phase exactly if it is at most the requested end and every stacked bound. |
| DeadlineTheorems.PhaseWorkExactly | e2e/controller.py:360-459 | Through any nesting inside a phase, with case and observation bounds set within it or back to what they were (or freely, if another bound alone lies within it), the work bound stays within the phase exactly if it was so on entry. |
| DeadlineTheorems.WorkEscapesPhase | e2e/controller.py:360-363 | For any end, later bound and deadline in that order: inside phase(end) the work bound is the deadline, and bounded(later) gets the later bound. |
| BoundSnapshot.DiagnosticBounds | e2e/controller.py:1051-1085 | Facts are read exactly when well formed; the minimum equals the timer's instant; both masks are nonzero and a bit is set exactly if a bound of that kind attains the work or the timer minimum. |
| BoundSnapshot.ActiveMinimum | e2e/controller.py:1051-1085 | The minimum over the listed work bounds is the work bound the deadline code uses. |
| BoundSnapshot.TimerMinimum | e2e/controller.py:1051-1085 | The minimum over all listed timers is the instant the timer code uses. |
| BoundSnapshot.SumBits | e2e/controller.py:1080-1080 | Summing the owners' bits gives exactly the mask of the bounds that attain the minimum. |
| BoundSnapshot.JoinBits | e2e/controller.py:1081-1084 | Joining the bits of tied timers gives exactly the mask of the kinds that attain the minimum, however many phases share a kind. |
| ErrorRecorder.Recorder.Record | e2e/controller.py:950-978 | The method's steps over its fields equal the recording function, with arbitrary reentrant calls at every hook. |
| ErrorRecorder.Recorder.Reserve | e2e/controller.py:980-993 | The snapshot's entry checks and creator claim equal the model. |
| ErrorRecorder.Recorder.Measure | e2e/controller.py:994-1046 | The checked part of the snapshot equals the model: completion only after the last check, refusal otherwise. |
| ErrorRecorder.Recorder.Stage | e2e/controller.py:1087-1189 | The publication's steps equal the model: entry guard, claim, first check, write, sticky failure. |
| ErrorLatchTheorems.RunAllKeeps | e2e/controller.py:950-1189 | Every run of nested record and publication calls keeps the latch invariant and only moves latches forward. |
| ErrorLatchTheorems.RecordKeeps | e2e/controller.py:950-978 | A record call keeps everything latched, restores the recorder flag and, if it returns, has appended exactly its own entry. |
| ErrorLatchTheorems.FirstErrorWins | e2e/controller.py:950-955 | Through any continuation of any run the primary error stays the first one chosen. |
| ErrorLatchTheorems.OneEntryPerCall | e2e/controller.py:968-969 | A record call that returns leaves exactly one entry of its own in the failure list, which only grows. |
| ErrorLatchTheorems.CreatorOnlyCompletion | e2e/controller.py:980-1046 | In every run the snapshot is completed at most once, by the call whose tuple won, under the claim it created. |
| ErrorLatchTheorems.CleanCompletionExactly | e2e/controller.py:1038-1045 | In every run each completion follows the one last check that passed, by the same call, and comes after no refusal exactly if no record call began between the two. |
| ErrorLatchTheorems.CompletedThoughRefused | e2e/controller.py:1038-1045 | A concrete run with one nested error ends both completed and refused. |
| ErrorLatchTheorems.ClaimantOnlyObservation | e2e/controller.py:1093-1108 | In every run the category observation is made at most once, by the invocation whose nonce the claim carries, for the winning error. |
| ErrorLatchTheorems.NeverRetried | e2e/controller.py:1087-1092 | After a publication has failed, no later call in any run attempts one. |
| CanonicalJson.BalancedJson | cli/team_move_requests.py:25-26 | Every canonical encoding, floats included, is bracket-balanced outside strings. |
| CanonicalJson.CutsShortExactly | cli/team_move_requests.py:25-26 | Some proper prefix of a canonical encoding is itself one exactly for integers of two or more digits and for floats other than minus zero point one digit. |
| CustodyPolicies.ReleaseSound | cli/thread_delivery_release_requests.py:238-252 | No read of the release store accepts a proper prefix of saved bytes, whatever else it checks. |
| CustodyPolicies.MoveSoundExactly | cli/team_move_requests.py:119-139 | The move store never accepts a proper prefix exactly if it saves no integer of two or more digits and no float other than minus zero point one digit. |
| CustodyPolicies.MovePartialRead | cli/team_move_requests.py:119-139 | Such a number is saved exactly if some crash can leave a proper prefix of a saved request that the read accepts. |
| CustodyPolicies.ReadAfterCrash | cli/team_move_requests.py:119-139 | After that crash the read itself, if nothing else fails, returns the truncated bytes. |
| CustodyPolicies.PartialNumbers | cli/team_move_requests.py:119-139 | A save of 12 may be read as 1, and a save of 0.5 as 0. |
| Storage.CrashValid | cli/thread_delivery_release_requests.py:181-230 | A crash, keeping any mixture between the stable and the volatile view, leaves a usable disk. |
| Storage.SecuredStable | cli/thread_delivery_release_requests.py:208-216 | A file reached from home through stable entries stays so under every later operation and crash. |
| Storage.OneContentPerPath | cli/thread_delivery_release_requests.py:254-311 | Across any history of operations, failures, other processes and crashes, all successes for one path returned the same bytes, which stay durable. |
| Custody.Store.ReadAll | cli/thread_delivery_release_requests.py:266-272 | Under any short-read schedule the loop asks for at least one byte, takes at most limit + 1, and within the limit returns the whole file. |
| Custody.Store.ReadBack | cli/thread_delivery_release_requests.py:254-282 | Success means a linked, complete and durable file whose bytes are accepted and, if given, the expected ones; descriptors balance on every path. |
| Custody.Store.SaveIn | cli/thread_delivery_release_requests.py:287-306 | Success of a fresh or repeated save means exactly the given bytes are complete and durable. |
| Custody.Store.OpenChain | cli/thread_delivery_release_requests.py:186-207 | The opened descriptors are exactly the ones to close, and on success they are linked from home down. |
| Custody.Store.SyncChain | cli/thread_delivery_release_requests.py:208-216 | Syncing bottom-up makes every entry from home to the file stable. |
| Custody.Store.Perform | cli/thread_delivery_release_requests.py:181-311 | Whichever call fails, every opened descriptor is closed once in reverse order; the logged error of the operation outlives close errors of directory(), and the first of those surfaces alone; a returned result was reached from home through stable directories, equals what a save was given and, where the store takes no proper prefix of saved bytes, is complete and durable. In calm conditions a read returns the acceptable file its path leads to. |
| CompletedLedger.ValidateRows | e2e/completed.py:65-98 | One pass with the variants seen and the previous time accepts exactly the lists whose rows each fit their evidence, with distinct variants and ascending times. |
| CompletedLedger.Validate | e2e/completed.py:57-101 | A ledger with its files is accepted exactly if header, rows and the exact set of files fit. |
| CompletedLedger.Join | e2e/completed.py:104-116 | The join succeeds exactly if identity, ledger, variant order and every original status and time agree. |
| CompletedLedger.CompleteLedger | e2e/completed.py:57-101 | An accepted ledger of 56 rows is a permutation of the manifest, in time order, each row with its own evidence file and no other file. |
| CompletedLedger.JoinedResults | e2e/completed.py:104-116 | After validation and join the original results are that same permutation, all PASS, with the ledger's times. |
| CompletedRunner.Runner.constructor | e2e/controller.py:210-215 | A fresh runner over any directory has no cases, and its acceptance test is the validation of a ledger against its own identity. |
| CompletedRunner.Runner.Publish | e2e/completed.py:176-210 | With any call failing: other visible files never change, the name changes only from the expected content to the new one, a conflict changes nothing, success means the new content is in place. |
| CompletedRunner.Runner.Mark | e2e/controller.py:917-940 | Every intermediate state is a legal move; success appends exactly the row for the encoded observation and the stored ledger equals memory; failure leaves memory as it was. |
| CompletedRuns.MoveKeepsInv | e2e/controller.py:936-940 | For any acceptance test and any first content of the ledger, every step of publication keeps: memory's case files are stored, and the stored ledger is memory's or one row ahead, acceptable with its files, or still the first content with memory empty. |
| CompletedRuns.CrashSafe | e2e/controller.py:917-940 | In every state of every run: once memory or the ledger has moved, the stored ledger is memory's or one row longer and the strict reader accepts it. |
| CompletedRuns.AppendOnly | e2e/completed.py:176-210 | Between any two states of a run the stored ledger is extended and no case file changes or disappears. |
| CompletedRuns.ReadBundle | e2e/completed.py:213-233 | Over whatever the directory holds at each read: exactly a ledger that decodes, is accepted with its own case files and reads the same again is returned, with those files; the early shape checks refuse nothing more. |
| CompletedRuns.ReadsOneInstant | e2e/completed.py:213-233 | A reader beside a running runner returns what it would have returned had the directory stood still as of its last read. |
| CompletedRuns.ReadsUnlessMoved | e2e/completed.py:213-233 | Once the run has published, such a reader succeeds exactly if the ledger at its last read is the one at its first. |
| ForwardExcerpt.UnquoteQuote | cli/thread_forward.py:11-12 | Unquoting a quoted source recovers exactly its newline-normalised text. |
| ForwardExcerpt.CostIncreases | cli/thread_forward.py:15-29 | The byte cost of prefix plus marker strictly increases with the prefix. |
| ForwardExcerpt.Truncate | cli/thread_forward.py:15-29 | For every source and limit: the whole quoted source if it fits, else the longest prefix plus marker that fits, or the bare marker; the result fits exactly if the source does or the limit is at least 28. |
| ForwardExcerpt.UnquoteTruncated | cli/thread_forward.py:15-29 | A truncated excerpt unquotes to the kept prefix followed by the marker. |
| ProcStat.ParseLine | e2e/e07.py:176-194 | Whatever the command name holds, the outcome for a line depends only on its size and the text after the name. |
| ProcStat.ObservedExactly | e2e/e07.py:176-194 | Field values are returned exactly for the well-formed lines within the cap, and are those of the line. |
| ProcStat.StatRoundTrip | e2e/e07.py:176-194 | For every command name, a well-formed line within the cap gives back exactly its state, parent and start time. |

## Left out

- Playwright driving, the asyncio bridge, DOM extraction, screenshots and the terminal stop in e2e/browser.py: native behaviour; a wait is an arbitrary schedule of events instead.
- Daemon, provider, relay and CLI processes, sockets and HTTP: input and output plumbing.
- Timing windows, garbage-collector toggling and cgroup or systemd probes in e2e/e07.py: physical facts.
- `operation_result`, e2e/cancellation.py and the flat E07 admission clauses besides the ledger replay: each is settled by reading one branch.
- `_failure_terminal_status` and the six-label tuple of the snapshot: finite tables.
- The context-capture slot and the final-attempt receipts of `record_error`: independent fields that only add easy members.
- cli/identities.py, cli/_shared.py, cli/main.py, runtime/config.py and other wiring: no protocol of their own.
- Schema classes of runtime.infrastructure: an arbitrary further check inside the release store's acceptance.
- `build_forward_body_from_thread` rendering of messages: string formatting before the truncation.
- Aliasing of scopes and members: the observation group holds them as values in a sequence, so two references to one scope are not modelled.
- Error recording by the controller inside the body observer: the observation model keeps the group's own latch only.
- Literal shape checks of declared paths, documents, modes and request names: a caller that fails them never starts the operation.
- Metadata checks of files and directories (owner, mode, link count, device): any such check may refuse at any point.
- Type checks of ledger fields in e2e/e07.py and the document's finiteness check: the model's entries are typed.
- Power loss during completion publication: those runs cover every intermediate directory state, while stable storage is modelled for the request stores.
- The printing of floats: which spellings print as themselves is a parameter, of which two facts are used, that they have a fraction or an exponent and that minus zero point one digit is one of them.
- Lone surrogates in text: the encodings modelled are over Unicode scalar values.
- Asynchronous signals other than reentrant record calls: a restore of the phase stack or local bound is not itself interrupted.
- DeadlineController.Controller.RecordError: does not model the snapshot and slots that record_error also fills, because ErrorLatch does.
- CompletedRuns.ReadBundle: does not model a file that changes during one read, because the reader's own stat comparison refuses it.
- Custody.Store.Perform: promises completeness and durability of a returned result only for a store that takes no proper prefix of saved bytes, because otherwise the claim is false; ReleaseSound and MoveSoundExactly say when it holds.
- CompletedRuns.CrashSafe: assumes that decoding inverts encoding within the size limit, because the JSON library is not modelled there.
- RootsPages.CheckRootsPage: does not model the JSON shape of the other row fields, because the image is an arbitrary further function of the body.
- DeadlineTheorems.PhaseWorkExactly: leaves out bodies that move the case or observation bound beyond the phase while no other bound shelters it, because those lift the work bound themselves.
