# work2api verification models

This project models the parts of work2api (an API gateway written in Go) whose
behaviour is hardest to see from one function body, and proves properties of
them in Dafny. `dafny verify dfyconfig.toml` checks all of it.

| part | files | what is proved |
|---|---|---|
| fair admission | `Admission*.dfy` | exact counters and limits over every run, no lost work, no lost wakeup, fairness, the private reserve, what a lease holds |
| self-update | `Update*.dfy` | rollback never discards an accepted write, only a candidate that proved ready is accepted, a changed binary stays closed, no rollback after accept, how each ending leaves the service |
| drain gate | `DrainGate.dfy` | counting, legal closes, what a successful drain promises and when it stops |
| tool aliases | `ToolAlias*.dfy` | aliases are unambiguous, calls arrive at the position they name, streaming equals rewriting whole messages, raw bytes become the declared tool calls |
| event frames | `Sse*.dfy`, `Bytes.dfy` | chunking is irrelevant, and what is sent is the received frames with exactly the rewritten payloads |
| proxy bindings | `ProxyPool.dfy`, `ProxyRuns.dfy` | the load index, balance, keys return home, cursors |
| identities | `Identity*.dfy` | one active owner, credential epochs, exactly who may change what, audit |
| scanners | `Complexity.dfy`, `Comments.dfy` | the byte loops against JSON trees and against a grammar of comments |
| call monitor | `CallMonitor.dfy`, `CallWindow.dfy` | the sliding hour, percentiles, the ring |

Mutable Go objects are classes whose methods state the whole new state through a
function of the old one (`View() == F(old(View()))`); the theorems are about
those functions and about runs of them. The self-update, which is spread over
two processes and a disk, is one step relation.

## What the proofs found

Where a promise does not hold of the code as written, the code is modelled as it
is, a lemma gives the failing input, and the exact condition is proved.

- A private request keeps its reserve if and only if its buffer charge fits the
  whole budget, and only with more than one slot (`PrivateReserve`,
  `NoReserveWithOneSlot`).
- A key's limit may differ between its tickets, so the bound on a key is the
  largest among those it runs (`KeyWithinLimit`).
- No accepted write is lost as long as no start is exposed: no program is started
  between the confirmed snapshot and the replacement, and none that cannot read
  the transaction file while the helper can still roll back or a restore has
  failed half way. In every state reached without such a start, a start can
  cost a write if and only if it is exposed (`NoAcceptedWriteLost`, `ExposureLosesWrites`).
- A helper that fails to prepare the update records that the old service runs on.
  While that program keeps running, its gate stays closed if and only if it is
  closed with no preparation under way and no resume request pending
  (`GateStaysShutIff`), its scheduler likewise (`SchedulerStaysHaltedIff`), and
  `OldServiceMayStopIff` says exactly when it can still come to that. A lost
  reply, a preparation that completes late and a scheduler that stops too slowly
  all lead there (`LostReplyStrandsOldProgram`, `LatePreparationStrandsOldProgram`,
  `SlowSchedulerHalts`).
- An accepted program opens at every later start if and only if the transaction
  says complete and the helper is neither waiting for the answer nor about to
  record that it missed it (`AcceptedStaysOpenIff`); an answer that is missed
  closes the next start if and only if the record of that is written
  (`LostAcceptanceClosesNextStart`).
- A closed drain gate stays closed if and only if no earlier drain is still
  under way (`SealHoldsIff`, `OverlappingResumeBreaksSeal`).
- An alias survives a fragmentation if and only if no cumulative part of it is a
  refused name (`FragmentsOfAnAlias`), and every fragmentation if and only if no
  replaced client name is the start of it (`AliasedToolsComeBack`); a client tool
  called `w2a_` is one (`ToolNamedLikeThePrefixBreaks`).
- A plain name that arrives in pieces is forgotten once its first piece is let
  through; it survives exactly the fragmentations that `FragmentsOfAPlainName`
  describes (`PlainNameCutInTwo` for one cut).
- After a total proxy outage a key can stay on a dead proxy while another is up,
  in exactly the runs that `KeyStuckIff` describes.
- Comment stripping is idempotent except after two byte order marks
  (`IdempotentUnlessTwoMarks`).
- The sliding window counts the calls of the last hour exactly if and only if no
  call of the window was followed by one of the same slot but of another minute,
  which only a clock that goes backwards can bring about (`CountExactIff`,
  `ClockForwardLosesNothing`, `ClockBackwardLosesCalls`).

## Assumptions

- An account chooser is any function that returns no busy account and gains no
  option when more accounts are busy. Memory pressure is a flag any step may set.
- Decoding an event payload into its choices and encoding the rewritten ones are
  parameters that agree with each other; what happens in between is modelled.
- A rewritten event payload is encoded JSON: it has no line break and no white
  space around it, and reads back as what was encoded. An unchanged payload may be
  anything.
- The digest behind aliases has 24 digits and separates the names of one request.
- The candidate binary differs from the old one; renames, JSON writes, backup and
  restore are single steps that succeed or fail; control requests and replies may
  be lost or late; helper and program may die between any two steps.

## Model

| member | source | states |
|---|---|---|
| `Admission.ModelAdmission.constructor` | internal/app/admission.go:79-124 | The object starts as the initial scheduler of the limits given. |
| `Admission.ModelAdmission.StartLocked` | internal/app/admission.go:162-175 | The new state is `Start` of the old one: every permit the ticket does not hold yet is taken, its key is dated, it runs. |
| `Admission.ModelAdmission.Examine` | internal/app/admission.go:138-152 | One waiter's chooser is asked exactly when the waiter has room; the answer says whether the waiter could run. |
| `Admission.ModelAdmission.ScanQueue` | internal/app/admission.go:136-156 | The scan leaves the tickets as `Scanned` and returns `Pick`, proved fairest by PickIsFair. |
| `Admission.ModelAdmission.DispatchLocked` | internal/app/admission.go:134-178 | Starts picks until the capacity is used or nobody can run, then signals. |
| `Admission.ModelAdmission.StopLocked` | internal/app/admission.go:279-289 | Gives back exactly the running permits of a ticket. |
| `Admission.ModelAdmission.ReleaseAccountLocked` | internal/app/admission.go:332-341 | Gives back the ticket's account permit once. |
| `Admission.ModelAdmission.ReleaseBufferLocked` | internal/app/admission.go:698-707 | Gives back the ticket's response bytes once. |
| `Admission.ModelAdmission.DequeueLocked` | internal/app/admission.go:290-297 | Takes a waiting ticket out of the queue, keeping the order of the others. |
| `Admission.ModelAdmission.RemoveLocked` | internal/app/admission.go:275-310 | Account, buffer, run slot or queue place and, when its key is no longer present, its service date go. |
| `Admission.ModelAdmission.EnqueueLocked` | internal/app/admission.go:180-205 | Queues the ticket or refuses it with the code of the first bound that is reached, counting the refusal. |
| `Admission.ModelAdmission.ArriveUnlimited` | internal/app/admission.go:225-236 | With the limits disabled the ticket runs and is counted without any check. |
| `Admission.ModelAdmission.ArriveLimited` | internal/app/admission.go:250-268 | Dispatch first, then start at once if there is room, otherwise queue. |
| `Admission.ModelAdmission.Acquire` | internal/app/admission.go:217-273 | The whole admission of a request, in both modes, budget refusal included. |
| `Admission.ModelAdmission.Bind` | internal/app/admission.go:346-430 | Binding an account: permits given back, a dispatch, permits retaken or the ticket queued again. |
| `Admission.ModelAdmission.YieldLocked` | internal/app/admission.go:372-386 | The permits a bind gives back before it dispatches. |
| `Admission.ModelAdmission.RetakeLocked` | internal/app/admission.go:390-424 | How a bind gets its permits back, or queues, or is refused. |
| `Admission.ModelAdmission.Park` | internal/app/admission.go:498-527 | A throttled ticket waits in the queue, not ready, and stops running but keeps its account and its buffer; a full queue refuses and changes nothing else. |
| `Admission.ModelAdmission.Unpark` | internal/app/admission.go:554-557 | After the upstream wait the ticket is ready again, and a dispatch follows. |
| `Admission.ModelAdmission.GiveUp` | internal/app/admission.go:460-469 | A wait that times out or is cancelled removes the ticket, unless it was started in the meantime. |
| `Admission.ModelAdmission.Release` | internal/app/admission.go:312-322 | The idempotent release, followed by a dispatch. |
| `AdmissionInvariant.NewLimitsValid` | internal/app/admission.go:79-124 | The limits the constructor derives from any configuration are positive and leave the reserve its slot. |
| `AdmissionInvariant.InitInv` | internal/app/admission.go:79-124 | A new scheduler meets the invariant. |
| `AdmissionSections.PickIsFair` | internal/app/admission.go:134-161 | The pick is runnable and minimal in (running tickets of the key, last service, queue place) among all runnable waiters; no pick means nobody can run. |
| `AdmissionRuns.StepInv` | internal/app/admission.go:134-559 | Every critical section keeps all counters equal to the sums over tickets and every limit. |
| `AdmissionRuns.RunInv` | internal/app/admission.go:134-559 | So does every run of them. |
| `AdmissionTheorems.EveryRun` | internal/app/admission.go:79-559 | From any configuration, in either mode: counters exact, nothing over its limit, and no runnable waiter left behind while memory pressure has not fallen. |
| `AdmissionTheorems.DispatchSettles` | internal/app/admission.go:134-178 | After a dispatch either every slot is taken or no queued ticket could start. |
| `AdmissionTheorems.StepSettled` | internal/app/admission.go:221-559 | Every section keeps that, except memory pressure falling. |
| `AdmissionTheorems.RunSettled` | internal/app/admission.go:221-559 | Over whole runs. |
| `AdmissionTheorems.TickSettles` | internal/app/admission.go:476-491 | After pressure has fallen the next tick catches up. |
| `AdmissionTheorems.StepSignals` | internal/app/admission.go:132-178 | A section that starts an existing ticket also wakes the waiters. |
| `AdmissionTheorems.WorldRunNoLostWakeup` | internal/app/admission.go:439-494 | In every run a blocked waiter whose channel is still open has not been started: no wakeup is lost. |
| `AdmissionTheorems.FailedWaitNeverRuns` | internal/app/admission.go:460-469 | A lease whose wait failed never runs or queues again, whatever happens later. |
| `AdmissionTheorems.ReleaseTwice` | internal/app/admission.go:312-322 | A second release changes nothing. |
| `AdmissionTheorems.AllReleasedEmpty` | internal/app/admission.go:275-341 | When every granted lease is released and every other admission was refused or gave up, every counter, every map, the service dates and the queue are empty. |
| `AdmissionTheorems.KeyWithinLimit` | internal/app/admission.go:246-263 | A key never runs more tickets than the largest limit among those it runs. |
| `AdmissionTheorems.RefusedIffQueueWouldOverflow` | internal/app/admission.go:180-205 | A ticket is refused exactly when queueing it would break the global, shared or per-key bound; the shared bound is named first. |
| `AdmissionTheorems.PrivateReserve` | internal/app/admission.go:92-116 | With more than one slot and no pressure, a private request that finds only shared work starts at once if and only if its charge fits the whole buffer budget. |
| `AdmissionTheorems.NoReserveWithOneSlot` | internal/app/admission.go:92-115 | With one slot there is no reserve: a single shared request makes a private one wait. |
| `AdmissionFairness.SameKeyInOrder` | internal/app/admission.go:153-161 | Runnable tickets of one key start in queue order. |
| `AdmissionFairness.FairTurn` | internal/app/admission.go:153-161 | The picked key runs no more than any runnable waiter's key, and strictly fewer if it was served more recently. |
| `AdmissionFairness.DispatchIsDated` | internal/app/admission.go:162-175 | In every run, and between any two starts of a dispatch, the date of a key is the place of its last start in the history of all starts. |
| `AdmissionFairness.SecondTurn` | internal/app/admission.go:134-176 | Over any run: a key that was started, is still present and is picked again past a runnable waiter of a key not started since runs strictly fewer tickets than that key. |
| `AdmissionFairness.SecondTurnOccurs` | internal/app/admission.go:134-322 | The situation of SecondTurn occurs: four requests of two keys and one release lead to it. |
| `AdmissionFairness.DirectStartsOvertakeNobody` | internal/app/admission.go:250-263 | An arrival or a rebind that starts a ticket itself does so only when no waiter could run. |
| `AdmissionLaws.ConfiguredLimits` | internal/app/admission.go:79-116 | What is configured is taken, what is not gets its default, and the shared bounds leave a private slot and a private place. |
| `AdmissionLaws.ConfiguredBudget` | internal/app/admission.go:102-116 | By default there is a full response budget for every slot, and one of them is kept from shared requests. |
| `AdmissionLaws.TicketOfRequest` | internal/app/admission.go:237-246 | A ticket's limit is exactly the least of the capacity, a positive key limit and a positive override; only portal users are shared. |
| `AdmissionLaws.UnlimitedRunsAtOnce` | internal/app/admission.go:225-236 | With the limits disabled a request runs at once, is counted for its key, and nothing else changes. |
| `AdmissionLaws.NeverFitsIff` | internal/app/admission.go:246-248 | A request is turned away for its charge alone if and only if not even an empty scheduler had room for it, and then leaves no trace. |
| `AdmissionLaws.RoomIff` | internal/app/admission.go:138-149 | A ticket has room if and only if there is no memory pressure and starting it would leave every count within its limit. |
| `AdmissionLaws.PressureStartsNobody` | internal/app/admission.go:138-142 | Under memory pressure no section starts anybody. |
| `AdmissionLaws.RefusalNamesTheBound` | internal/app/admission.go:180-205 | Each refusal code is returned if and only if its own bound is the first that queueing the ticket would break; none if none would break. |
| `AdmissionLaws.PrivateQueuePlace` | internal/app/admission.go:92-100 | When only shared tickets wait, a private one is never refused a place. |
| `AdmissionLaws.UnlimitedBindDelivers` | internal/app/admission.go:346-371 | With the limits disabled a bind leaves the ticket with exactly the account chosen: one use more of it, one less of another account held before, every other ticket and count unchanged. |
| `AdmissionLaws.UnlimitedBindIdle` | internal/app/admission.go:346-371 | A released lease, or a chooser that names nobody, changes nothing. |
| `AdmissionLaws.BindEnds` | internal/app/admission.go:372-430 | Under limits a bind ends in exactly one of four ways: running with the account the chooser named, which was not full; the chooser's error recorded; waiting with its wish and no account; refused by the queue, which is counted. |
| `AdmissionLeases.RunningLeasesHold` | internal/app/admission.go:134-430 | In every run a running lease holds its response bytes and, once bound, an account its own chooser named, unless the chooser refused. |
| `AdmissionLeases.ParkKeepsPermits` | internal/app/admission.go:498-527 | Parking keeps the bytes and the account; only a full queue leaves the ticket running. |
| `AdmissionLeases.ParkedWaits` | internal/app/admission.go:498-557 | A parked lease waits with what it holds through any run that does not end its own wait. |
| `AdmissionLeases.UnparkedIsReady` | internal/app/admission.go:554-557 | After its wait it runs or queues, ready. |
| `AdmissionLeases.DateKeptWhilePresent` | internal/app/admission.go:298-309 | A key that still runs or waits keeps its service date whatever leaves. |
| `AdmissionLeases.ArrivalRejectionCounted` | internal/app/admission.go:180-273 | A request that is neither started nor queued is counted under exactly one code; any other counts nothing. |
| `AdmissionLeases.TimeoutCounted` | internal/app/admission.go:460-469 | A wait that times out before its start is counted once; a started one is spared. |
| `UpdateProtocol.InitInv` | cmd/server/update.go:237-246 | The protocol invariant holds when an update begins. |
| `UpdateProtocol.PrepareInv` | internal/selfupdate/update.go:722-753 | Draining, pausing, backing up and saving the transaction keep it, and so does every failure on the way. |
| `UpdateProtocol.ServePostInv` | cmd/server/reuse.go:231-250 | The drain request keeps it. |
| `UpdateProtocol.ServeOptionsInv` | cmd/server/main.go:143-159 | The resume request keeps it: only the original program with the original binary reopens. |
| `UpdateProtocol.ServePutInv` | cmd/server/main.go:194-209 | The accept request keeps it: the gate opens only if complete was written. |
| `UpdateProtocol.HelperInv` | cmd/server/update.go:237-337 | Every instruction of the helper keeps it, whatever its outcome and whichever of its writes fail. |
| `UpdateProtocol.KillInv` | cmd/server/update.go:237-337 | So does the helper's death at any point. |
| `UpdateProtocol.StepInv` | cmd/server/update.go:237-429 | So does every step of helper, program or environment. |
| `UpdateProtocol.RunInv` | cmd/server/update.go:237-429 | And every interleaving. |
| `UpdateTheorems.NoAcceptedWriteLost` | cmd/server/update.go:237-337 | In every run without an exposed start (one that opens a program while the snapshot still counts) the data is exactly what was accepted, or a failed restore has left the exact snapshot. |
| `UpdateTheorems.ExposureLosesWrites` | cmd/server/update.go:237-337 | The condition is exact: wherever a program can be started, the start can cost an accepted write, without any further start, if and only if it is exposed. |
| `UpdateTheorems.RollbackIsSafe` | cmd/server/update.go:306-330 | When the backup is restored the helper alone holds the data, nothing was accepted, and the restore changes no accepted write. |
| `UpdateTheorems.GateNeverOpenedBeforeRollback` | cmd/server/update.go:250-318 | If a rollback is reached without an exposed start, at no earlier point since the snapshot was confirmed, under either binary, could a request enter or anything be written. |
| `UpdateTheorems.ChangedBinaryStaysClosed` | cmd/server/update.go:79-94 | Unconditionally: while the new binary is in place and not accepted the transaction is in a phase that gates the next start. |
| `UpdateTheorems.CandidateAdmitsNothing` | cmd/server/main.go:116-122 | A candidate that could read the transaction admits nothing and writes nothing before accept wrote complete. |
| `UpdateTheorems.NoRollbackAfterAccept` | cmd/server/update.go:294-305 | After accept the new binary stays, no rollback step is reached and the data only grows. |
| `UpdateOutcomes.GateStaysShutIff` | cmd/server/update.go:246-265 | Once the helper has given up with the old program running, its gate stays closed in every continuation without a restart if and only if it is closed, no preparation is under way and no resume request is pending. |
| `UpdateOutcomes.SchedulerStaysHaltedIff` | cmd/server/main.go:143-179 | Likewise its scheduler stays stopped if and only if it is stopped, no preparation is under way and no resume request is pending that would find it paused. |
| `UpdateOutcomes.OldServiceMayStopIff` | cmd/server/update.go:246-249 | The old service can still end closed or without its scheduler if and only if it is so already, the drain request is still pending, or a preparation is under way that will not be refused. |
| `UpdateOutcomes.LostReplyStrandsOldProgram` | cmd/server/update.go:246-249 | An instance: if the reply to a successful preparation is missed, the old program stays drained with its scheduler stopped until it is restarted. |
| `UpdateOutcomes.LatePreparationStrandsOldProgram` | internal/selfupdate/update.go:748-752 | An instance: a preparation that completes after the helper stopped waiting leaves the gate shut. |
| `UpdateOutcomes.SlowSchedulerHalts` | cmd/server/main.go:171-173 | An instance: a scheduler that does not stop in time fails the preparation; the gate reopens and the scheduler stays stopped. |
| `UpdateOutcomes.LostAcceptanceClosesNextStart` | cmd/server/update.go:294-305 | After an accept that ran, the helper's last two steps leave the next start gated if and only if it did not hear the answer and its record of that was written. |
| `UpdateOutcomes.AcceptedStaysOpenIff` | cmd/server/main.go:194-209 | An accepted program opens at every later start that can read the transaction, in every continuation, if and only if the transaction says complete and the helper is neither waiting for the answer nor about to record that it missed it. |
| `UpdateTheorems.BothEndingsAreReachable` | cmd/server/update.go:237-337 | Acceptance and a completed rollback are both reachable, with every write kept. |
| `UpdateLaws.OnlyReadyIsAccepted` | cmd/server/update.go:396-417 | In every run: whenever the helper is about to accept, waits for the answer, or the gate is open, a gated program answered a readiness probe with success before; the gate opens only after one also wrote complete. A run without such an answer never commits. |
| `UpdateLaws.ReadinessIsFresh` | cmd/server/update.go:396-417 | After every probe only an answer given to it, or to a later one, leads on to acceptance. |
| `UpdateLaws.FailedCandidateIsNeverAccepted` | cmd/server/update.go:290-305 | A candidate that could not be started or whose probing ran out is never accepted in any continuation. |
| `UpdateLaws.FailureBeforeReplacementKeepsBinary` | cmd/server/update.go:246-285 | A failure before the replacement leaves the old binary in place in every continuation. |
| `UpdateLaws.GrantMeansSaved` | internal/selfupdate/update.go:722-753 | The drain request is granted only in the moment in which transaction and plan say backup_ready, the program is drained and stopped and, without an exposed start, the snapshot is exactly the accepted data. |
| `UpdateLaws.FailedPreparationIsDenied` | cmd/server/reuse.go:231-250 | A preparation that fails is answered denied, reopens the gate and saves nothing. |
| `UpdateLaws.RecordTellsTruth` | cmd/server/update.go:237-337 | In every run the recorded outcome is true: complete of an accepted program, failed and rolled_back of the old binary and no acceptance, recovery_required of no acceptance, acceptance_unknown of the new binary. |
| `UpdateLaws.FailureIsRecorded` | cmd/server/update.go:246-337 | Which failure ends in failed and which in recovery_required, once the record is written. |
| `UpdateLaws.ProgressIsRecorded` | cmd/server/update.go:286-305 | Verifying is recorded before the candidate starts, accepting before the gate is opened. |
| `UpdateLaws.UnrecordedReplacementIsUndone` | cmd/server/update.go:286-292 | If the replacement cannot be recorded the old binary is put back, and the candidate is never accepted in any continuation. |
| `UpdateLaws.UnitIsStopped` | cmd/server/update.go:257-271 | Under systemd the helper itself stops the old program before it takes the lock. |
| `UpdateLaws.CandidateIsStopped` | cmd/server/update.go:418-429 | A candidate that is given up is asked to leave, and its unit is stopped unless the transaction says complete. |
| `UpdateLaws.OldProgramIsResumed` | cmd/server/update.go:250-265 | When the preparation cannot be used or the unit not be stopped, the resume request opens the gate and starts the scheduler again. |
| `UpdateLaws.OpenProgramServes` | cmd/server/reuse.go:97-116 | An open program lets a request in and out, and its writes and the scheduler's are accepted. |
| `DrainGate.GateObject.Enter` | cmd/server/reuse.go:97-108 | Refused while draining, otherwise counted in. |
| `DrainGate.GateObject.Exit` | cmd/server/reuse.go:109-116 | Counted out; the last one of a drain closes the channel, legally. |
| `DrainGate.GateObject.BeginDrain` | cmd/server/reuse.go:121-132 | Refused while draining; otherwise a fresh channel, closed at once when nothing is active. |
| `DrainGate.GateObject.EndDrain` | cmd/server/reuse.go:145-149 | A failed wait reopens the gate. |
| `DrainGate.GateObject.Resume` | cmd/server/reuse.go:162 | Reopens the gate. |
| `DrainGate.CountsAndClosesRight` | cmd/server/reuse.go:97-151 | In every interleaving active equals the running handlers, no channel is closed twice and nil is never closed. |
| `DrainGate.ExitIsLegal` | cmd/server/reuse.go:109-116 | A running handler can always be counted out. |
| `DrainGate.SuccessfulDrainSeals` | cmd/server/reuse.go:121-151 | In sequential runs a successful drain means no handler runs and none is admitted until the next resume. |
| `DrainGate.FailedDrainOpens` | cmd/server/reuse.go:145-149 | After a failed drain the next request is admitted. |
| `DrainGate.ResumeOpens` | cmd/server/reuse.go:162 | After a resume the next request is admitted. |
| `DrainGate.DrainSucceedsWhenIdle` | cmd/server/reuse.go:121-144 | In sequential runs a waiting drain can succeed if and only if no handler runs. |
| `DrainGate.AdmittedIffOpen` | cmd/server/reuse.go:97-108 | A request is admitted if and only if the gate is open, and only then counted. |
| `DrainGate.UpdatingStartsClosed` | cmd/server/main.go:122 | A program started for an update serves nobody before a resume, whatever is drained meanwhile; any other serves from the start. |
| `DrainGate.SealHoldsIff` | cmd/server/reuse.go:121-162 | A closed gate stays closed in every continuation without a resume if and only if no earlier drain is still under way. |
| `DrainGate.OverlappingResumeBreaksSeal` | cmd/server/reuse.go:121-162 | A resume that overlaps a drain leads to a state where a drain succeeded and the gate is open. |
| `ToolAliasSet.Search` | internal/opencode/tool_alias.go:61 | Binary search finds the insertion point. |
| `ToolAliasSet.Conflicts` | internal/opencode/tool_alias.go:61-62 | Looking only at the insertion point finds exactly the names that are a prefix of a reserved name. |
| `ToolAliasSet.Sort` | internal/opencode/tool_alias.go:58 | Sorted, with the same elements. |
| `ToolAliasSet.FreshAlias` | internal/opencode/tool_alias.go:66-70 | The alias is the first of the digest name with underscores that is no client name. |
| `ToolAliasSet.ReservedNames` | internal/opencode/tool_alias.go:46-54 | The compatibility tools and the client's own official names. |
| `ToolAliasSet.LowerNames` | internal/opencode/tool_alias.go:60-72 | The two maps are inverse to each other and cover exactly the ambiguous names. |
| `ToolAliasSet.AliasClientTools` | internal/opencode/tool_alias.go:38-75 | The same for a whole request, including the requests that need no alias. |
| `ToolAliasSet.AliasesPrefixFree` | internal/opencode/tool_alias.go:66-71 | No alias is a prefix of another, and none is a client name. |
| `ToolAliasSet.RestoreUndoesLower` | internal/opencode/tool_alias.go:220-229 | Restoring after lowering gives back every client name. |
| `ToolAliasSet.PlainNamesAreNeverHeld` | internal/opencode/tool_alias.go:257-269 | A name that went out unchanged is no prefix of an alias or of a refused name. |
| `ToolAliasSet.AliasesAreNotBlocked` | internal/opencode/serve.go:87-98 | No alias is refused. |
| `ToolAliasSet.BlockedPrefixIsAClientName` | internal/opencode/serve.go:87-98 | A refused name that starts an alias is a client tool named like the start of an alias. |
| `ToolAliasSet.AliasShape` | internal/opencode/tool_alias.go:66-70 | An alias is `w2a_`, the digest and only underscores, one for every shorter candidate that is a client name. |
| `ToolAliasSet.AnonymousHidesAll` | internal/opencode/tool_alias.go:38-72 | In an anonymous request every client name goes out under an alias. |
| `ToolAliasSet.HarmlessRequestUntouched` | internal/opencode/tool_alias.go:46-62 | A named request none of whose tools starts an official name goes out as it is, unless the compatibility tools are added. |
| `ToolAliasStream.NothingIsLost` | internal/opencode/tool_alias.go:271-320 | Whatever the fragments, what was passed on followed by what is held is what came in, names and arguments. |
| `ToolAliasStream.OtherArgumentsPassUntouched` | internal/opencode/tool_alias.go:285-300 | Arguments that are no text are never held, joined or dropped: their delta goes on as it came, or the writer fails. |
| `ToolAliasStream.NoArgumentsInvented` | internal/opencode/tool_alias.go:300-320 | A call that comes without arguments is given none, not even empty ones. |
| `ToolAliasStream.FragmentsOfAnAlias` | internal/opencode/tool_alias.go:271-320 | An alias cut anywhere is delivered as the original name with exactly its arguments and nothing held, if and only if no cumulative part of it is a refused name. |
| `ToolAliasStream.WholePlainName` | internal/opencode/tool_alias.go:271-290 | A plain name in one piece passes untouched. |
| `ToolAliasStream.FragmentsOfAPlainName` | internal/opencode/tool_alias.go:271-320 | Whatever the fragments, they go through unaltered with nothing held if and only if no run of pieces since the last one let through forms a refused name or an alias and none is left over. |
| `ToolAliasStream.PlainNameCutInTwo` | internal/opencode/tool_alias.go:271-320 | For one cut: exactly when the first part is held without being refused or an alias, or the second part could not by itself become one. |
| `ToolAliasStream.PlainNameInPiecesCanFail` | internal/opencode/tool_alias.go:281-284 | An instance: a plain name in pieces is refused although the whole name passes. |
| `ToolAliasWriter.HeldBytesExact` | internal/opencode/tool_alias.go:291-318 | In every run heldBytes is the total size of what is held and within the limit. |
| `ToolAliasWriter.HeldIsNamesAndArguments` | internal/opencode/tool_alias.go:291-318 | What is held weighs its names and its arguments. |
| `ToolAliasWriter.PositionsAreIndependent` | internal/opencode/tool_alias.go:271-320 | A run that does not fail treats every (choice, call) as if it were alone. |
| `ToolAliasWriter.InterleavingSucceeds` | internal/opencode/tool_alias.go:291-369 | Positions that go through alone go through interleaved, with nothing held at the end, if and only if what has to be held fits the limit at every moment; otherwise the writer fails. |
| `ToolAliasWriter.StreamEqualsWholeMessage` | internal/opencode/tool_alias.go:257-369 | Any interleaving of cut aliases and undisturbed plain names succeeds if and only if what has to be held fits at every moment, and then delivers at every position the original name and exactly the arguments. |
| `ToolAliasWriter.NoSilentTruncation` | internal/opencode/tool_alias.go:322-328 | A stream that reports success at its end marker holds no fragment. |
| `ToolAliasWriter.Writer.HoldsToolPrefix` | internal/opencode/tool_alias.go:257-269 | Both loops together decide whether the name starts an alias or a refused name. |
| `ToolAliasWriter.Writer.RewriteChatTool` | internal/opencode/tool_alias.go:271-320 | The step of the object is the step of the specification, with the size limit and every error. |
| `ToolAliasWriter.Writer.FinishChoice` | internal/opencode/tool_alias.go:351-358 | A finish while a fragment of that choice is held is an error. |
| `ToolAliasWriter.Writer.EndOfStream` | internal/opencode/tool_alias.go:322-328 | The end marker while a fragment is held is an error. |
| `ToolAliasWriter.Writer.RewriteCalls` | internal/opencode/tool_alias.go:336-350 | The calls of a choice in order, with the position as index when none is given; the first failure ends it. |
| `ToolAliasWriter.Writer.RewriteObject` | internal/opencode/tool_alias.go:322-369 | A whole event is the run of its items in order. |
| `ToolAliasTheorems.LoweredTablesAreSound` | internal/opencode/serve.go:84-99 | The tables a request's writer is built with meet what the stream theorems need. |
| `ToolAliasTheorems.PlainToolsPass` | internal/opencode/tool_alias.go:257-320 | A client tool that kept its name passes untouched through the response to its own request. |
| `ToolAliasTheorems.AliasedToolsComeBack` | internal/opencode/tool_alias.go:257-369 | Every fragmentation of an alias comes back under the client's name with its arguments if and only if no replaced client name is the start of that alias. |
| `ToolAliasTheorems.ToolNamedLikeThePrefixBreaks` | internal/opencode/tool_alias.go:281-284 | An instance: with a client tool called `w2a_` in an anonymous request, every alias cut after four characters fails. |
| `ToolAliasTheorems.StartsOfOfficialNamesAreHidden` | internal/opencode/tool_alias.go:46-64 | A client name that starts an official name in use, or a compatibility tool, goes out under an alias. |
| `ToolAliasTheorems.HiddenNamesAreRefused` | internal/opencode/serve.go:84-99 | A name that arrives whole fails the response if and only if it is a hidden client name or a compatibility tool. |
| `ToolAliasPositions.EventDeltasNamed` | internal/opencode/tool_alias.go:332-350 | The deltas of an event at a position are exactly the calls that name it, in order: by their own index and their choice's where one is given, by their place in the list only where it is missing. |
| `ToolAliasPositions.EventFinishesNamed` | internal/opencode/tool_alias.go:351-358 | An event finishes exactly the choices that are named finished, by the same rule. |
| `ToolAliasPositions.CallArrives` | internal/opencode/tool_alias.go:336-350 | A call arrives at its own index when it gives one. |
| `ToolAliasPositions.ParallelCallsStayApart` | internal/opencode/tool_alias.go:336-350 | A call that names another index adds nothing to a position, so parallel calls never share one. |
| `ToolAliasPositions.EventAtPosition` | internal/opencode/tool_alias.go:271-369 | What the writer does with an event at a position is what it does with the calls that name it alone. |
| `ToolAliasPositions.NothingHeldAtFinish` | internal/opencode/tool_alias.go:351-358 | When a choice finishes without an error nothing of it is held. |
| `SseFrames.TerminatorStable` | internal/opencode/tool_alias.go:405-415 | More bytes never move a seen terminator nor reveal an earlier one. |
| `SseFrames.TerminatorIsFirstBlankLine` | internal/opencode/tool_alias.go:405-415 | A frame ends if and only if LF LF or CR LF CR LF occurs, at the first place where either does, with that pattern's own length. |
| `SseFrames.NoFrameWaits` | internal/opencode/tool_alias.go:404-446 | After any chunking without a failure what waits contains neither pattern. |
| `SseFrames.Reframer.Write` | internal/opencode/tool_alias.go:392-448 | The loop of Write is the frame-by-frame specification. |
| `SseFrames.ChunkingIsIrrelevant` | internal/opencode/tool_alias.go:392-448 | The same bytes in any two chunkings give the same bytes sent, the same state, the same failure and, without failure, the same leftover. |
| `SseFrames.UntouchedFramesPass` | internal/opencode/tool_alias.go:430-446 | A rewriter that changes nothing is invisible. |
| `SsePayload.GatherPayload` | internal/opencode/tool_alias.go:418-424 | The payload of the data lines. |
| `SsePayload.Rebuild` | internal/opencode/tool_alias.go:431-439 | The rebuilt frame: kept lines in order, then the new data line. |
| `SsePayload.RebuiltCarriesPayload` | internal/opencode/tool_alias.go:430-441 | A rebuilt frame carries exactly the rewritten payload and the other lines. |
| `SsePayload.RebuiltIsOneFrame` | internal/opencode/tool_alias.go:430-441 | Its only terminator is the one at its end. |
| `SsePayload.PayloadIsDataText` | internal/opencode/tool_alias.go:418-424 | The payload is the text behind `data:` of every data line, trimmed and joined by line breaks, whatever stands between them. |
| `SsePayload.KeptIsFilter` | internal/opencode/tool_alias.go:431-436 | Lines are kept one by one, in order. |
| `SsePayload.KeptOfOne` | internal/opencode/tool_alias.go:431-436 | A line is kept exactly when it is no data line and not blank. |
| `Bytes.SpaceIsWhiteSpace` | internal/opencode/tool_alias.go:420-435 | Trimming takes exactly the white space of Unicode in its UTF-8 form, with the two line separators. |
| `SseStream.RewriteFrame` | internal/opencode/tool_alias.go:416-442 | The loop body of Write for one frame: no data passes, a failure stops, an unchanged payload passes byte for byte, a changed one rebuilds the frame. |
| `SseStream.DrainSends` | internal/opencode/tool_alias.go:404-446 | Draining sends the handled frames one after the other and leaves the bytes after the last of them. |
| `SseStream.StreamCarriesRewritten` | internal/opencode/tool_alias.go:392-448 | For every chunking: the stream fails exactly when rewriting the payloads in order fails; otherwise what was sent, cut into frames again, has the same frames with the same other lines and exactly the rewritten payloads. |
| `SseStream.OneFrameEndsBlank` | internal/opencode/tool_alias.go:405-416 | Every frame ends with LF LF or CR LF CR LF and contains neither before its end. |
| `SseStream.FramesMakeUp` | internal/opencode/tool_alias.go:404-416 | The frames and what waits make up the bytes received. |
| `SseStream.UnchangedStreamPasses` | internal/opencode/tool_alias.go:430-446 | If no payload changes, every byte goes out as it came, for every chunking. |
| `ToolAliasEvents.PayloadsAreOneRun` | internal/opencode/tool_alias.go:322-391 | Rewriting payload after payload is one run of the alias writer over all their items: the same end, the same failure, and the payloads written read as that run's deltas. |
| `ToolAliasEvents.StreamRunsItsItems` | internal/opencode/tool_alias.go:322-448 | For every chunking: the response fails exactly when the run over its items fails; otherwise the bytes sent do what the bytes received do, with that run's deltas. |
| `ToolAliasEvents.ResponseRestoresTools` | internal/opencode/tool_alias.go:220-448 | From raw bytes to tool calls, for the request that declared the tools: the response succeeds if and only if what has to be held fits at each moment, and the bytes sent then read at every position as the declared name with exactly the arguments. |
| `ProxyPool.NodePool.constructor` | internal/opencode/pool.go:298-319 | Keys are dealt out in turn and the index agrees. |
| `ProxyPool.NodePool.ReplacementLocked` | internal/opencode/pool.go:400-423 | A least-loaded allowed proxy, any of the ties, or none exactly when none is allowed. |
| `ProxyPool.NodePool.Choose` | internal/opencode/pool.go:383-389 | Healthy proxies first, any other proxy when none is healthy. |
| `ProxyPool.NodePool.Move` | internal/opencode/pool.go:390-395 | A binding and the index move together. |
| `ProxyPool.NodePool.RebindProxy` | internal/opencode/pool.go:370-398 | Exactly the keys of the failed proxy move, each to a least-loaded replacement under the loads of its moment; the index still agrees and the moves are counted. |
| `ProxyPool.ReplacementExists` | internal/opencode/pool.go:383-389 | With two proxies or more there always is a replacement. |
| `ProxyPool.RecordsFollowMoves` | internal/opencode/pool.go:390-395 | A key that moved has a clean record, every other keeps its failures and its cooldown. |
| `ProxyPool.NodePool.RestoreProxy` | internal/opencode/pool.go:321-343 | Exactly the keys that prefer the proxy come back; the index still agrees and the moves are counted. |
| `ProxyRuns.RebindEmptiesAndBalances` | internal/opencode/pool.go:370-423 | Nothing stays on the failed proxy and the load gap of the eligible ones is at most the old one or one. |
| `ProxyRuns.FirstFailureStaysBalanced` | internal/opencode/pool.go:311-317 | From a fresh pool the first failure leaves a gap of at most one. |
| `ProxyRuns.KeysAreAtHome` | internal/opencode/pool.go:321-398 | In every run a key whose own proxy is up is bound to it. |
| `ProxyRuns.AllUpMeansPreferred` | internal/opencode/pool.go:321-398 | Once every proxy is up again, in any order, every key is where it started. |
| `ProxyRuns.RestoringAllReturnsAll` | internal/opencode/pool.go:321-343 | Restoring every proxy in any order returns every key. |
| `ProxyRuns.NoDeadBindings` | internal/opencode/pool.go:370-398 | While at least one proxy is up throughout, no key is bound to a dead one. |
| `ProxyRuns.NextStuck` | internal/opencode/pool.go:321-398 | What one event does to one key: its proxy failing strands it exactly when none is left; it is freed exactly when its own proxy or the one it sits on recovers. |
| `ProxyRuns.FirstRecoveryAfterOutage` | internal/opencode/pool.go:321-343 | With every proxy down, a recovery leaves no key on a dead proxy if and only if every key prefers or sits on the proxy that recovers. |
| `ProxyRuns.KeyStuckIff` | internal/opencode/pool.go:321-398 | Over every run: a key ends on a dead proxy if and only if at some moment all were down and since then its own proxy has not recovered and nothing has happened to the one it sat on. |
| `ProxyRuns.TotalOutageLeavesKeysStuck` | internal/opencode/pool.go:321-343 | An instance: after a total outage the first recovery leaves a key of the other proxy on a dead one. |
| `ProxyRuns.NodeCursor.Next` | internal/opencode/pool.go:449-472 | The first ready key in cyclic order, or the first of the earliest to be ready; the next call starts after it. |
| `ProxyRuns.ChosenIsFirstReady` | internal/opencode/pool.go:449-472 | The choice is ready and no key before it is; when nobody is ready, nobody is ready sooner, nor as soon and nearer the start. |
| `ProxyRuns.AnonymousCursor.Next` | internal/opencode/pool.go:89-103 | The next usable proxy in turn. |
| `ProxyRuns.VisitMovesOn` | internal/opencode/pool.go:89-103 | Only unusable proxies are passed over. |
| `ProxyRuns.EachProxyAtMostOnce` | internal/opencode/pool.go:89-103 | A cursor returns each proxy at most once, however often it is asked and however health changes. |
| `IdentityStore.Store.ReadActor` | internal/store/store_identity.go:22-34 | Role, status, version and temporary password are looked up again. |
| `IdentityStore.Store.CreateManagedUser` | internal/store/store_identity.go:49-83 | The whole transaction or nothing. |
| `IdentityStore.Store.CreateUser` | internal/store/store_portal.go:41-56 | A name that is taken, or a second owner, is a conflict; otherwise one active account more. |
| `IdentityStore.Store.CreateInitialAdmin` | internal/store/store_portal.go:866-898 | The first administrator becomes the owner; any existing administrator refuses. |
| `IdentityStore.Store.ManageIdentity` | internal/store/store_identity.go:85-150 | All guards and actions; the whole transaction or nothing. |
| `IdentityStore.Store.FindOwner` | internal/store/store_identity.go:167-171 | The first owner row, or none. |
| `IdentityStore.Store.HandOver` | internal/store/store_identity.go:190-203 | The old owner is demoted before the new one is promoted, both invalidated. |
| `IdentityStore.Store.TransferOwner` | internal/store/store_identity.go:152-212 | Transfer and claim; the whole transaction or nothing. |
| `IdentityStore.Store.SetUserStatus` | internal/store/store_portal.go:83-111 | A real change invalidates; the owner cannot be disabled. |
| `IdentityStore.Store.UpdateUserPassword` | internal/store/store_portal.go:115-152 | Self-service needs the expected hash and an active account. |
| `IdentityStore.Store.DeleteUserHard` | internal/store/store_portal.go:185-194 | Only ordinary users. |
| `IdentityStore.Store.CreateUserSession` | internal/store/store_portal.go:215-248 | A session carries the version of an active account whose credentials match. |
| `Identity.TransferInv` | internal/store/store_identity.go:152-212 | After a transfer the target is the only owner. |
| `Identity.ApplyInv` | internal/store/store.go:414 | Every operation keeps at most one owner, the owner active, ids fresh and sessions current. |
| `IdentityTheorems.RunEvolves` | internal/store/store_identity.go:41-47 | In every run versions only grow, every change raises the version, a removed id never returns, the audit is only appended to. |
| `IdentityTheorems.StaleActorIsRefused` | internal/store/store_identity.go:22-34 | A handle captured before any change to its account is refused by every later operation. |
| `IdentityTheorems.StaleSessionIsInvalid` | internal/store/store_portal.go:250-268 | No session outlives a change to its user's account. |
| `IdentityTheorems.OwnerIsProtected` | internal/store/store_identity.go:103-111 | Only a transfer takes ownership away; otherwise only a password changes the owner's account. |
| `IdentityTheorems.OwnerNeverLost` | internal/store/store_identity.go:152-212 | Once there is an owner there always is one. |
| `IdentityTheorems.ExactlyOneActiveOwner` | internal/store/store_identity.go:152-212 | From an empty database in every run: at most one owner, and exactly one active owner once there has been one. |
| `IdentityTheorems.OrdinaryAdminsManageUsersOnly` | internal/store/store_identity.go:103-118 | An actor that is not the owner can neither make nor touch an administrator. |
| `IdentityTheorems.EveryChangeIsAudited` | internal/store/store_identity.go:36-39 | Each managing operation that changes something appends one entry naming the actor; the others change nothing. |
| `IdentityLaws.ManageChangesIff` | internal/store/store_identity.go:85-150 | A managed change goes through if and only if the actor's handle is current and may act, the account is one he may manage, and the change is one of the three and really changes something. |
| `IdentityLaws.ManageChangesOneField` | internal/store/store_identity.go:124-150 | The account then has the role, the status, or the hash as a temporary password, and the next version; its other fields, all other rows and their sessions are as before; its own sessions are gone; the audit entry says which change it was. |
| `IdentityLaws.TransferHandsOver` | internal/store/store_identity.go:190-212 | The target alone is owner, the old owner an administrator, both under a new version without sessions; nobody else is touched. |
| `IdentityLaws.TransferIff` | internal/store/store_identity.go:152-189 | Ownership moves if and only if the owner or the recovery entry hands it over, or the recovery entry claims it while there is none, to an active administrator with a password of his own. |
| `IdentityLaws.CreateManagedLaw` | internal/store/store_identity.go:49-83 | Who may create whom, exactly; the account starts active with a temporary password, and the audit names the actor. |
| `IdentityLaws.RegisterLaw` | internal/store/store_portal.go:41-56 | Registration succeeds exactly for a free name that is no second owner; the password is the person's own. |
| `IdentityLaws.BootstrapLaw` | internal/store/store_portal.go:866-898 | The first administrator is owner, exactly while there is no administrator and the name is free. |
| `IdentityLaws.StatusLaw` | internal/store/store_portal.go:83-111 | When a status changes, exactly, and that nothing else of the account does. |
| `IdentityLaws.PasswordLaw` | internal/store/store_portal.go:115-152 | The new hash is stored, the password is no longer temporary and the account signed out, exactly when the expected hash still holds or none is expected. |
| `IdentityLaws.DeleteLaw` | internal/store/store_portal.go:185-194 | Exactly an ordinary user is removed, with its sessions. |
| `IdentityLaws.LoginLaw` | internal/store/store_portal.go:215-248 | A login succeeds exactly for an active account whose verified hash and version still hold; the session is valid at once, and nothing else changes. |
| `IdentityLaws.SessionLaw` | internal/store/store_portal.go:250-268 | A session is valid exactly while its user has the version it was opened under. |
| `IdentityLaws.DisabledStaysOut` | internal/store/store_portal.go:215-248 | Over every run in which nothing enables a disabled account: no login by it succeeds and no operation accepts it. |
| `IdentityLaws.TemporaryMayNotAct` | internal/store/store_identity.go:22-34 | Over every run in which its password is not set anew: an account with a temporary password is accepted by no operation and cannot be handed the ownership. |
| `IdentityLaws.ManagedAccountIsSignedOut` | internal/store/store_identity.go:124-150 | So a managed disabling and a reset put the account there, without a session left. |
| `Complexity.JsonWithinComplexity` | internal/app/request_capacity.go:218-255 | The loop with its early exit decides the specification, on any bytes. |
| `Complexity.ScanValue` | internal/app/request_capacity.go:226-252 | Scanning a whole value adds exactly its items and depth and returns to where it was, whatever its strings hold. |
| `Complexity.ScannerMeasuresTree` | internal/app/request_capacity.go:218-255 | For every JSON value in every whitespace layout: accepted if and only if it is no container or depth and items are within the limits switched on. |
| `Comments.Run` | internal/opencode/config_proxy.go:93-154 | The loop with its flags is the specification, on any bytes. |
| `Comments.Pieces` | internal/opencode/config_proxy.go:93-154 | Every text is strings, comments and single bytes, each read as itself, and perhaps an open block comment. |
| `Comments.StrippingClearsComments` | internal/opencode/config_proxy.go:93-154 | Stripping blanks the comments and nothing else. |
| `Comments.FailsIffBlockLeftOpen` | internal/opencode/config_proxy.go:150-152 | It fails if and only if the text ends inside a block comment. |
| `Comments.NothingMoves` | internal/opencode/config_proxy.go:92-121 | Same length, line breaks in place, every byte kept or a space. |
| `Comments.LineCommentEndsAtEitherBreak` | internal/opencode/config_proxy.go:104-111 | A line comment ends at the first line feed or carriage return, which stays, and the rest is stripped on its own. |
| `Comments.UnchangedIffNoComment` | internal/opencode/config_proxy.go:134-148 | A text is unchanged if and only if it has no comment. |
| `Comments.IdempotentUnlessTwoMarks` | internal/opencode/config_proxy.go:94 | Stripping twice is stripping once if and only if the input does not begin with two byte order marks. |
| `CallMonitor.AddTiming` | internal/app/observability.go:47-53 | One more in the slot of the first bound that is not below the duration. |
| `CallMonitor.SlotOfDuration` | internal/app/observability.go:20-53 | The slot of a duration, in milliseconds. |
| `CallMonitor.Percentile` | internal/app/observability.go:54-70 | The loop is the specification of the percentile. |
| `CallMonitor.PercentileBoundsTruth` | internal/app/observability.go:54-70 | A reported percentile is the least bound of the histogram that is not below the true nearest-rank 95th percentile; none is reported exactly when there are no samples or that percentile is over an hour. |
| `CallMonitor.OneNearestRank` | internal/app/observability.go:58 | The value that at least 95 in 100 samples do not exceed and fewer fall below exists and is unique. |
| `CallMonitor.AddCall` | internal/app/observability.go:79-112 | A call enters its minute's counters and histograms. |
| `CallMonitor.AddedValue` | internal/app/observability.go:79-112 | Every counter and slot grows by exactly what the call adds. |
| `CallMonitor.AddBucket` | internal/app/observability.go:128-142 | Summation of two buckets, counter by counter. |
| `CallWindow.Monitor.Record` | internal/app/observability.go:71-118 | The bucket of another minute is reset first; the ring takes the call. |
| `CallWindow.Monitor.Snapshot` | internal/app/observability.go:119-147 | The sums over the current buckets and the ring from the newest call back. |
| `CallWindow.ShareIsTally` | internal/app/observability.go:71-81 | A bucket never says more about a minute than was recorded, and says everything exactly when no call of the minute was followed by one of another minute of its slot. |
| `CallWindow.SnapshotIsLastHour` | internal/app/observability.go:119-143 | As long as no call of the window was overwritten, every counter is exact over the last sixty minutes. |
| `CallWindow.CountExactIff` | internal/app/observability.go:119-143 | The number of calls is exact if and only if no call of the window was followed by one of the same slot but of another minute; it is never too large. |
| `CallWindow.ClockForwardLosesNothing` | internal/app/observability.go:71-81 | A clock that never goes backwards overwrites no call of the window. |
| `CallWindow.SnapshotPercentile` | internal/app/observability.go:148 | So every reported percentile speaks about exactly the calls of the last sixty minutes. |
| `CallWindow.CountersMean` | internal/app/observability.go:79-143 | While nothing of the window was overwritten, a snapshot counts the calls of the last sixty minutes: all, the incomplete ones, as errors those of the others that failed or had a status from 400 on, their attempts and upstream refusals, those with an attempt, those with a first byte. |
| `CallWindow.DurationsMean` | internal/app/observability.go:79-112 | Which duration of a call enters which percentile: the execution time only with an attempt and never below zero, the first byte only when there was one. |
| `CallWindow.OpenOutcomeAgrees` | internal/app/observability.go:71-118 | A call without an outcome counts as an error exactly when the recent list shows it as one. |
| `CallWindow.ClockBackwardLosesCalls` | internal/app/observability.go:76-78 | Instances: going back one minute loses nothing, going back an hour erases a call that is still in the window. |
| `CallWindow.RecentIsLastCalls` | internal/app/observability.go:113-117 | The ring lists exactly the last 128 calls, newest first. |

## Left out

- Tickets are values in a table indexed by identity rather than heap objects, so aliasing of ticket pointers is not modelled.
- Go's 64-bit integers are unbounded here; no counter is shown to stay below 2^63.
- Wall-clock time, timers, tickers and forced garbage collection are nondeterministic steps; nothing is said about how long a wait takes.
- `snapshot` of the admission scheduler and the HTTP wrapping of leases (admitModel, finishAdmit).
- The download, verification and unpacking of a candidate, the update policy, version comparison and the status shown to administrators.
- Symbolic links, file modes, systemd and process handling in the self-update; the contents of the control protocol's authentication.
- After a failed update the helper's own restart of the old program is not a step of its own: a start of the program may happen at any time.
- A program that is asked to end itself by the abort request does so in a step of its own that may come at any time, so serving that request has no further effect.
- The drain gate's channels are positions in a table of closed flags.
- The rejections throttle counts after its own release, and the wait budget it shares with await.
- A write to the client's connection that fails.
- Responses that are not event streams, which are rewritten in one piece, and the header change of Write.
- JSON parsing and printing in the response rewriter are parameters; message-level tool calls (`message`, `function_call`, `tool_use`) are restored by the same map but their traversal is not modelled.
- The rewriting of tool lists, tool choices and histories in aliasClientTools beyond the two name maps.
- The digest (SHA-256, hexadecimal) and the random tie-break between proxies are left open, so every result holds for all of them.
- Marking a proxy unhealthy and moving its keys is one event, and health is constant while one proxy's keys move.
- Failure counters and cooldown durations of keys and proxies (MarkSuccess, MarkFailure, cooldownDuration).
- The body budget, refresh deduplication and the other request limits of request_capacity.go.
- SQL, bcrypt, session expiry times and the limit of sessions per user; dropped sessions are a step that may remove any session.
- The migration that promotes a single existing administrator to owner.
- OAuth, portal pages, provider bridges, catalogues and benchmark heuristics: they would only add easy members.
