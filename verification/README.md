# A verified model of the AC dev control protocols

This project models the parts of the aming-claw agent that change durable state in small steps which
may be interrupted, together with the loops and tables around them, and proves what they keep.

The receipt-bound protocols of `agent/cli.py` come first:

- **Durable launch** (`DurableLaunch*.dfy`, `LaunchRuntime.dfy`): an operator process and a child process
  run a handshake over a lock, pending, readiness and launch receipts and a release pipe; a later launch
  classifies dead generations and recovers a leftover lock; a stop command ends a generation. It is a
  step system in which every process may die at any step, the readiness message may say anything, and any
  number of children run beside one operator command. `LaunchRuntime` is the operator's scan and recovery as it
  runs over the receipt directory.
- **Offline schema admission** (`Admission*.dfy`): writer and validator of a linked receipt chain, with
  rollback, resume and recertification. `Archive` changes its directory and database in place and is
  proved against the functions the theorems are about.
- **Canonical ref adoption** (`RefAdoption*.dfy`): detach, compare-and-swap, attach.
- **Dashboard backlog bootstrap** (`BacklogBootstrap*.dfy`): a write-ahead receipt with exact-preimage
  retry and exact-postimage finalization.

Around them: the monitored CLI loop, the session watchdog, the self-referential token count,
snapshot and rollback, routing validation against use, brace extraction, task-file stages, the SQL/Redis
mirror and the retrying pipeline, one file each.

Each operation is stated twice. A specification function, to which the method in place is proved equal, is
what the theorems over runs and histories are about. Beside it, lemmas named `...Exactly`, `...ExactlyWhen` or
`...Tells` say of the input's own fields, for every input, how the operation ends and what it leaves
(`DurableLaunchGates`, `DurableLaunchSteps`, `DurableLaunchEvidence`, `AdmissionOutcomes`, `RefAdoptionOutcomes`,
`BacklogBootstrapOutcomes`, and at the end of each smaller file).

## What the proofs found

Several promises hold only under a condition. Each bullet names the theorem that states the condition as an
if-and-only-if, or says what else is known.

- *Crash recovery*: after every run whatsoever, the verdicts unresolved and sealed postimage are the true story
  of the interrupted attempt and a preimage retry is never given to a committed one; the verdict as a whole is
  true exactly when an attempt that never committed still finds its preimage (`VerdictIsTrueExactlyWhen`). It
  always does when no launch starts to scan while an earlier child is on its way to serving and no child ends
  while a launch scans (`RecoveryClassifies`). Both provisos are needed: recovery looks for the earlier child
  only through its readiness receipt (`agent/cli.py:4887-4900`), so it overlooks one that still boots
  (`OrphanDefeatsClassification`); and the preimage is read at `agent/cli.py:4570`, long before the last look
  at the processes at 4804-4812, so a server may write and die in between (`ScanRaceDefeatsClassification`).
- *A leftover lock* can be released, and the crashed launch followed by another child, exactly when the
  generation scan passes and the verdict is recoverable (`ReleasedByRecoveryAlone`), which the receipts tell:
  those of the attempt describe the bytes there are and carry no seal yet (`ReleasableExactlyWhen`). So a
  recovery that dies between its seal and the unlink cannot be repeated, because the same seal would be a
  receipt collision (`HalfRecoveryIsStuck`); and in quiet runs the scan refuses just the attempts that
  committed, have no launch receipt and follow an earlier generation (`QuietlyReleasableExactlyWhen`), by the
  postimage gate at `agent/cli.py:4763-4801`.
- *A next launch* is possible exactly when the scan passes (`LaunchableExactlyWhen`); in quiet runs, after a
  generation that launched, exactly when the database is as that generation's launch or stop receipt says
  (`SucceededExactlyWhen`). A server that changed the database and ended without a stop receipt is
  therefore never succeeded (`WrittenThenLost`).
- *A stop* of a serving generation can be completed exactly when that generation was never challenged before
  (`StoppableExactlyWhen`): an operator that dies after its challenge (`HalfStopIsReached`) is never made up
  for (`HalfStopIsFinal`).
- *Admission*: what a repeat after a crash does is stated for every effect after which an admission
  (`RepeatAfterCrash`) or a recertification (`RecertificationAfterCrash`) can be killed. Over every later
  history a backup cut short is never usable again (`TornBackupIsFinal`) and a receipt without its sidecar
  blocks the same receipt (`TornReceiptIsFinal`). The validator is also wider than the writer: it follows any
  number of recertification bridges (`ValidatorAcceptsAnyBridges`).
- *Ref adoption* can reach its end exactly when the worktree is on the branch or a detached receipt is held
  (`RecoverableExactlyWhen`); a crash between the detach and its receipt loses both (`LostDetachIsStuck`).
- *Backlog bootstrap* can be completed exactly when its pending receipt is there or the database is still
  pristine and not backed up (`CompletableExactlyWhen`); a run that died in between leaves a backup that
  nothing gets past (`OrphanBackupIsStuck`).
- *Routing*: a validated configuration is rejected at use exactly when its backend resolves to the fixture
  (`ValidatedNeverFailsAtUse`), and there are such configurations (`FixtureIsAccepted`).
- *Mirror*: Redis and SQL disagree on a status exactly after an input was saved again for a record that had
  left pending, until its next transition (`MirrorAgreesExactlyWhen`).
- *Task files*: a task keeps its one file exactly as long as it is not cancelled while live or created again
  while dead (`RunConservesTask`).
- *Attempt counts* equal the calls made exactly when the retry limit is not negative or the first call did
  work (`CountIsCallsExactlyWhen`); the model recorded for a fallback is the one it ran on exactly when the
  global model happens to be that one (`FallbackModelIsTrueExactlyWhen`); a Codex stage misses the fallback exactly with an unknown backend and no OpenAI provider
  (`FallbackIsFromCodex`).
- *Session status*: a kill is final exactly when the worker has finished (`KillIsFinalExactlyWhen`), and
  clean-up comes before the watchdog exactly for a coordinator in its longer window (`CleanupBeforeWindow`,
  `CleanupCanComeFirstExactlyWhen`).

Where code and documentation disagree the model follows the code: `_extract_json_object` promises the last
complete object but tries only the last closing brace (`StrayClosingHidesAll`);
`extend_deadline` promises 120 more seconds but restarts the whole hang window; `_handle_tasks_create`
says it skips an id that exists anywhere but does not look into dead_letter
(`DeadTaskCanBeCreatedAgain`).

## Assumptions

- SHA-256 (section 6.2 of FIPS 180-4) is symbolic: equal digests mean equal payloads, and no payload
  contains its own digest.
- The governance package is not part of this model. A custody commit, and every write of a serving child,
  gives the database a digest it never had before. The schema transaction and the import transaction are
  arbitrary: the commands check what they left.
- Process ids are not reused. Readings of process table, port and listener are exact. The generation scan is
  four steps with children acting in between; every other step of launch, recovery and stop reads all it
  needs at one instant.
- In the timed loops a sleep is exact and every other step takes no time.

## Model

| member | source | states |
|---|---|---|
| DurableLaunchSafety.ServingIsReceiptBound | agent/cli.py:5706-5735 | in every interleaving and with any process dying anywhere, a child serves only under pending, readiness and launch receipts that exist, are linked by digest and launch id, and name its own pid |
| DurableLaunchSafety.RecoveryFrame | agent/cli.py:4841-4926 | scan and recovery only add abnormal receipts and only clear the lock |
| DurableLaunchSafety.LinkedAlways | agent/cli.py:4962-5044 | receipts, children and the operator stay linked over whole runs |
| DurableLaunchSafety.GatedAlways | agent/cli.py:4717-4752 | stops are proven and unique, seals are unique, no generation has both, and what a scan found dead is recorded before the lock is taken |
| DurableLaunchSafety.ForkSeesOnlyRecordedGenerations | agent/cli.py:4717-4864 | whenever a child is about to be created, each generation found dead has exactly one terminal record and the launch added at most one generation seal and one recovery seal |
| DurableLaunchGates.VerdictExactly | agent/cli.py:4872-4916 | whatever the receipts and processes are, forged or not, which verdict a leftover lock gets, said of pending and readiness receipts, living processes and bytes |
| DurableLaunchGates.RecoverableExactlyWhen | agent/cli.py:4872-4924 | in every state of every run, with any children: recovery goes on exactly when nothing serves, no process lives that a readiness receipt of the attempt names, and the receipts describe the bytes unsealed |
| DurableLaunchGates.NoRecoveryUnderLiveChild | agent/cli.py:4887-4902 | whenever a run comes to seal a lock, nothing serves and no process lives that a readiness receipt of the attempt names |
| DurableLaunchGates.ScanPassesExactlyWhen | agent/cli.py:4717-4814 | whatever the directory holds, forged or not: the five gates of the scan, said of receipts, processes and bytes |
| DurableLaunchGates.ClassifiesExactly | agent/cli.py:4717-4752 | every launch is fully linked and every dead one unambiguously recorded |
| DurableLaunchGates.UnsealedExactly | agent/cli.py:4727-4750 | the generations a launch seals are the dead ones without any record |
| DurableLaunchEvidence.EvidencedAlways | agent/cli.py:4841-5044 | over every run seals are true, launches start from the preimage hashed before their scan, stops rest on the exit of the process they stopped, and work under a lock is under the own lock |
| DurableLaunchEvidence.LockGoesWithReason | agent/cli.py:4924-5060 | in every run a lock goes away only when its attempt serves or a true recovery seal of it is durable |
| DurableLaunchEvidence.ReceiptsAreTrue | agent/cli.py:4841-5044 | in every run each launch, stop and seal says what was so |
| DurableLaunchEvidence.PortIsFree | agent/cli.py:4838-4840 | nothing serves when a launch seals, takes its lock or reads readiness, nor when a stop is written |
| DurableLaunchEvidence.ScanRemembers | agent/cli.py:4717-4750 | a scan remembers exactly the launches whose process was gone, and as unsealed those without a record |
| DurableLaunchEvidence.StopIsWrittenExactlyWhen | agent/cli.py:5287-5326 | a stop is written exactly when the process is gone, nothing serves, and one exit receipt is new and is its answer to the challenge |
| DurableLaunchSteps.ReadGuards | agent/cli.py:4717-4752 | when the scan can read its preimage and the dead, said of receipts and processes |
| DurableLaunchSteps.MatchGuards | agent/cli.py:4763-4803 | when it can pass the bytes: one generation explains them and at most one is unsealed |
| DurableLaunchSteps.LiveGuards | agent/cli.py:4804-4837 | when it can look for the living, and when the one it waited for is gone |
| DurableLaunchSteps.LastLookTells | agent/cli.py:4804-4837 | the last look ends the launch when the one living generation serves, waits for it when it does not, and goes on when none lives |
| DurableLaunchSteps.SealGuards | agent/cli.py:4838-4926 | when a launch seals, recovers and releases |
| DurableLaunchSteps.SealLockTells | agent/cli.py:4903-4924 | which seal a recovery writes, and of what |
| DurableLaunchSteps.HandshakeGuards | agent/cli.py:4927-5060 | when each step of the handshake can be taken; the readiness receipt is the exact one expected but for its digest |
| DurableLaunchSteps.StopGuards | agent/cli.py:5154-5250 | which generation a stop may select, and when it may send its signal |
| DurableLaunchSteps.ChildGuards | agent/cli.py:5688-5735 | when each step of a child can be taken; it accepts only the released launch receipt that names its pid, id and readiness |
| DurableLaunchSteps.ExitTells | agent/cli.py:5784-5805 | the exit receipt answers the one challenge there is for its launch, and none if there is not just one |
| DurableLaunchAttempts.TracedAlways | agent/cli.py:4903-4911 | in every run launch ids are used once, commits are newer than their preimages and a readiness receipt tells what was committed |
| DurableLaunchAttempts.VerdictIsTrueExactlyWhen | agent/cli.py:4872-4911 | after every run, unresolved and sealed verdicts are true, a retry verdict is never false of a committed attempt, and the verdict as a whole is true exactly when an uncommitted attempt still finds its preimage |
| DurableLaunchRuns.LaunchCanStart | agent/cli.py:4927-5062 | from every state at rest whose scan passes, some run gets the child to serve and frees the lock |
| DurableLaunchQuiet.QuietAlways | agent/cli.py:4545-5075 | in quiet runs there is one attempt at a time, digests only grow, and every generation but the latest is recorded |
| DurableLaunchQuiet.SettledScan | agent/cli.py:4804-4837 | the last reading of a settled runtime ends the launch as already running or finds no process |
| DurableLaunchRecovery.RecoveryClassifies | agent/cli.py:4872-4911 | after every quiet run all four verdicts are the true story of the attempt, and before release the committed bytes are still there |
| DurableLaunchRecovery.RecoverySucceeds | agent/cli.py:4867-4926 | an admissible recovery reaches a free lock and changes only seals and lock |
| DurableLaunchRecovery.ReleasedByRecoveryAlone | agent/cli.py:4867-4926 | from any state at all, a leftover lock can be released, and a new child created, by some run exactly when the scan passes and the verdict is recoverable |
| DurableLaunchRecovery.BlockedForEver | agent/cli.py:4717-4814 | with nothing running and a failing scan no run changes anything |
| DurableLaunchRecovery.GateExactlyWhen | agent/cli.py:4763-4801 | the postimage gate lets a recovery through exactly when custody is uncommitted, no generation exists, or the attempt has its own launch receipt |
| DurableLaunchRecovery.RecoverableByReceipts | agent/cli.py:4872-4924 | a leftover lock is recoverable exactly when its receipts describe the bytes there are and carry no seal yet |
| DurableLaunchRecovery.ReleasableExactlyWhen | agent/cli.py:4763-4926 | after every run a leftover lock can ever be released exactly when the scan passes and the receipts of its attempt describe the bytes and carry no seal |
| DurableLaunchRecovery.QuietlyReleasableExactlyWhen | agent/cli.py:4763-4926 | in quiet runs, exactly when a retry is due, or a postimage with its own launch receipt or no generation before it |
| DurableLaunchRecovery.HalfRecoveryIsStuck | agent/cli.py:4924-4926 | a recovery that dies between seal and unlink leaves the lock for ever |
| DurableLaunchOrphan.OrphanDefeatsClassification | agent/cli.py:4887-4902 | with a child still booting at recovery, the next attempt can read as committed although it never was |
| DurableLaunchOrphan.ScanRaceDefeatsClassification | agent/cli.py:4570-4812 | with a server that writes and dies during a scan, the next attempt can read as committed although it never was |
| DurableLaunchSuccession.LaunchableExactlyWhen | agent/cli.py:4717-4814 | from any state at rest a further child can be created exactly when the scan passes |
| DurableLaunchSuccession.NextLaunchExactlyWhen | agent/cli.py:4763-4801 | after every quiet run at rest, exactly when there was no generation or one generation accounts for the database |
| DurableLaunchSuccession.SucceededExactlyWhen | agent/cli.py:4763-4801 | a generation that launched can be succeeded exactly when the database is as its launch or stop receipt says |
| DurableLaunchSuccession.WrittenThenLost | agent/cli.py:4763-4801 | a generation that changed the database and ended in any way without a stop receipt is never succeeded, and nothing changes any more |
| DurableLaunchStop.StopMakesWay | agent/cli.py:5237-5326 | after a completed stop exactly the stopped generation accounts for the database and the next launch can proceed |
| DurableLaunchStop.HalfStopIsFinal | agent/cli.py:5237-5250 | a generation challenged but not stopped never gets a stop receipt |
| DurableLaunchStop.HalfStopIsReached | agent/cli.py:5251-5285 | an operator that dies after its challenge leaves such a generation |
| DurableLaunchStop.StoppableExactlyWhen | agent/cli.py:5237-5326 | after every quiet run a serving generation can get its stop receipt exactly when it was never challenged |
| DurableLaunchStop.ExitsBuriedAlways | agent/cli.py:5785-5815 | exit receipts are of launched generations whose process has ended |
| LaunchRuntime.Runtime.ReadTerminal | agent/cli.py:4734-4750 | the stop and seal receipts of one generation classify it exactly as the gate requires |
| LaunchRuntime.Runtime.ClassifyGenerations | agent/cli.py:4717-4752 | the loop accepts exactly when every chain is valid and every dead generation classifiable, and collects exactly the unsealed ones |
| LaunchRuntime.Runtime.MatchPostimages | agent/cli.py:4763-4801 | the loop collects exactly the generations that account for the database |
| LaunchRuntime.Runtime.ScanGenerations | agent/cli.py:4717-4814 | passes exactly when all gates pass |
| LaunchRuntime.Runtime.SelectAttempt | agent/cli.py:4872-4893 | the one pending receipt of the lock's attempt and exactly its readiness receipts |
| LaunchRuntime.Runtime.DecideRecovery | agent/cli.py:4872-4921 | a seal is chosen exactly for preimage retry and sealed postimage, and it is the verdict's |
| LaunchRuntime.Runtime.RecoverLock | agent/cli.py:4867-4926 | succeeds exactly when there is no lock or it is recoverable; otherwise nothing changes |
| LaunchRuntime.SealingExactly | agent/cli.py:4804-4864 | what may be sealed and when: each dead generation without a record, once the scan passed, none is alive and nothing serves |
| LaunchRuntime.Runtime.SealAndRecover | agent/cli.py:4841-4926 | after a passing scan the one dead generation is sealed and the lock released exactly when recoverable; otherwise only that seal is new |
| LaunchRuntime.Runtime.Approach | agent/cli.py:4717-4928 | a launch gets to its lock exactly when gates, liveness, listener and recovery allow, and states everything it changed in each outcome |
| AdmissionTheorems.ReadAfterWrite | agent/cli.py:1549-1593 | a stored receipt reads back as written, a torn one does not read, every other name reads as before |
| AdmissionOutcomes.AcceptsExactlyWhen | agent/cli.py:1618-1674 | the validator accepts exactly the chains whose receipts are sound, whose predecessors are readable and whose neighbours carry over |
| AdmissionOutcomes.AdmittedExactlyWhen | agent/cli.py:1873-2016 | a call is admitted exactly when its gate opens, its backup is good, the commit kept the tip and completed the plan, and the receipt is stored; and the archive and database left |
| AdmissionOutcomes.RolledBackExactlyWhen | agent/cli.py:1937-1962 | the same for a rollback that restored schema and tip |
| AdmissionOutcomes.StoppedExactlyWhen | agent/cli.py:1925-1968 | when exactly a call is killed and when it stops for audit |
| AdmissionOutcomes.AlreadyAdmittedExactlyWhen | agent/cli.py:1889-1918 | when exactly a presented receipt answers already admitted |
| AdmissionOutcomes.RecertifiedExactlyWhen | agent/cli.py:1738-1872 | how a recertification ends for every archive, database and call, and what it leaves |
| AdmissionArchive.Archive.ReadReceipt | agent/cli.py:1571-1593 | reads in place exactly what the specification reads |
| AdmissionArchive.Archive.WriteReceipt | agent/cli.py:1549-1568 | receipt then sidecar, kept if identical, refused on collision, torn if killed between |
| AdmissionArchive.Archive.ValidateChain | agent/cli.py:1596-1674 | the predecessor walk accepts exactly the chains whose adjacent receipts are sound and continuous, and counts its reads |
| AdmissionArchive.Archive.Transact | agent/cli.py:1925-2016 | backup, transaction and receipt in place, with a kill after any effect, equal the specified step |
| AdmissionArchive.Archive.AdmitSchema | agent/cli.py:1873-2016 | an admission run in place equals the specified step |
| AdmissionArchive.Archive.RecertifyExistingBytes | agent/cli.py:1738-1872 | a recertification run in place equals the specified step |
| AdmissionTheorems.ChainLinks | agent/cli.py:1660-1674 | adjacent receipts of a chain are linked by digest, the oldest has no predecessor |
| AdmissionTheorems.AcceptedChainTelescopes | agent/cli.py:1643-1674 | in every accepted chain, forged or not, inventories telescope and a database gap occurs only at a bridge that changed nothing |
| AdmissionTheorems.WalkIsBounded | agent/cli.py:1618-1674 | every walk, refused or accepted, reads at most as many receipts as the archive has names; an accepted one reads the whole chain |
| AdmissionBridges.ValidatorAcceptsAnyBridges | agent/cli.py:1643-1660 | for every n an accepted chain of n bridges with a gap below each, which no run builds from the second on |
| AdmissionTheorems.WriterMeetsValidator | agent/cli.py:1677-2016 | after any history of runs, crashes and drift every readable receipt heads an accepted chain |
| AdmissionTheorems.HistoryGrows | agent/cli.py:1677-2016 | no history rewrites a receipt or a backup |
| AdmissionTheorems.WriterChainShape | agent/cli.py:1753-1770 | oldest first: rollbacks, at most one completed receipt, at most one recertification; at most one gap |
| AdmissionTheorems.GateDecides | agent/cli.py:1889-1924 | a run either performs its transaction on an accepted rollback of this database, or changes nothing |
| AdmissionTheorems.WrittenReceipt | agent/cli.py:1941-2016 | the reported receipt is readable and describes the database left |
| AdmissionTheorems.TransactionReport | agent/cli.py:1925-2016 | the reported receipt is readable, keeps tip and identity, and describes the database the transaction left |
| AdmissionTheorems.AdmittedThenResumed | agent/cli.py:1914-1918 | presenting the receipt of an admission answers already admitted and changes nothing |
| AdmissionTheorems.RolledBackThenResumed | agent/cli.py:1919-1924 | presenting a rollback receipt runs the transaction again on top of it |
| AdmissionTheorems.RecertifiedThenResumed | agent/cli.py:1891-1918 | presenting a recertification answers already admitted from any checkout |
| AdmissionCrashes.KilledLeaves | agent/cli.py:1925-2016 | a killed run leaves exactly the durable effects before the kill |
| AdmissionCrashes.RepeatAfterCrash | agent/cli.py:1889-2016 | what the same admission call does after a kill, for every effect it can be killed after and both transaction endings |
| AdmissionCrashes.RecertificationAfterCrash | agent/cli.py:1842-1872 | what the same recertification does after a kill, for every effect it can be killed after |
| AdmissionCrashes.TornBackupIsFinal | agent/cli.py:1926-1933 | after any later history on those bytes every call is refused or answers already admitted, and changes nothing |
| AdmissionCrashes.TornReceiptIsFinal | agent/cli.py:1549-1568 | after any later history it is unreadable and writing it collides |
| RefAdoption.Repository.Adopt | agent/cli.py:1046-1109 | each phase in place equals the specified step |
| RefAdoptionOutcomes.NothingUnseen | agent/cli.py:1007-1052 | no call changes Git or issues a receipt without an exact candidate, quiet surroundings, no other dev worktree and a receipt of the same adoption and stable; none changes Git over an unclean worktree |
| RefAdoptionOutcomes.AdoptExactly | agent/cli.py:1046-1109 | each call moves Git as its phase says, finds its work done, or is refused and changes nothing; and what its receipt states |
| RefAdoptionTheorems.RefMovesOnlyByCas | agent/cli.py:1068-1081 | the ref moves only from expected to target, by compare-and-swap, with the branch checked out nowhere |
| RefAdoptionTheorems.RefMovesOnce | agent/cli.py:1068-1081 | over any calls with any receipts the ref moves at most once |
| RefAdoptionTheorems.RunKeepsInv | agent/cli.py:1046-1109 | every run stays in one of four places, each implied by the receipts held |
| RefAdoptionTheorems.AttachedReceiptIsFinal | agent/cli.py:1082-1109 | an attached receipt proves head, ref and target equal, then and later |
| RefAdoptionTheorems.Recover | agent/cli.py:1049-1096 | from every state with a detached receipt some calls reach attached |
| RefAdoptionTheorems.LostDetachIsStuck | agent/cli.py:1054-1067 | without a receipt a detached worktree is refused for ever |
| RefAdoptionTheorems.RecoverableExactlyWhen | agent/cli.py:1046-1109 | attached can be reached exactly when the worktree is on the branch or a detached receipt is held |
| BacklogBootstrap.Target.Bootstrap | agent/cli.py:2911-3222 | a bootstrap run in place, killed after any effect, equals the specified step |
| BacklogBootstrapOutcomes.FirstExactly | agent/cli.py:3059-3157 | when exactly a first run is refused, and what it leaves when it is killed at its backup |
| BacklogBootstrapOutcomes.ImportExactly | agent/cli.py:3158-3222 | with any source, when exactly a run that gets to its transaction ends bootstrapped, failed or killed, and what it leaves |
| BacklogBootstrapOutcomes.ResumeExactly | agent/cli.py:3027-3108 | when exactly a run beside a pending receipt is refused, finalizes or holds |
| BacklogBootstrapOutcomes.ReplayExactly | agent/cli.py:2951-3021 | beside a completed receipt nothing changes, and when exactly the answer is already bootstrapped |
| BacklogBootstrapOutcomes.FirstRunCompletes | agent/cli.py:3109-3222 | whatever rows the source has, one run from an importable target ends bootstrapped with exactly that backlog |
| BacklogBootstrapOutcomes.CompletableFromExactlyWhen | agent/cli.py:3022-3222 | after every history an incomplete bootstrap can be completed from a given source exactly when its pending receipt is of that source, or there is none and the target is importable from it and not backed up |
| BacklogBootstrapTheorems.HistoryKeepsInv | agent/cli.py:3022-3222 | over every history a pending receipt has its preimage backed up and the database is its preimage or postimage |
| BacklogBootstrapTheorems.PendingIsAlwaysResumable | agent/cli.py:3048-3222 | with a durable pending receipt and no sidecar, a repeat retries the exact preimage or finalizes the exact postimage; backlog equals source, the protected rest is unchanged |
| BacklogBootstrapTheorems.CompletedIsReplayed | agent/cli.py:2951-3021 | a completed bootstrap is answered as already done, without change |
| BacklogBootstrapTheorems.ProtectedDataIsConserved | agent/cli.py:3166-3177 | no history loses protected rows or schema objects |
| BacklogBootstrapTheorems.OrphanBackupIsStuck | agent/cli.py:3123-3126 | a backup without a pending receipt makes every later run refuse |
| BacklogBootstrapTheorems.KilledBeforePending | agent/cli.py:3123-3157 | a first run without pending receipt refused unchanged or left such a backup |
| BacklogBootstrapTheorems.CompletableExactlyWhen | agent/cli.py:3022-3157 | after every history an incomplete bootstrap can be completed exactly when its pending receipt is there or the database is pristine and not backed up |
| BacklogBootstrapTheorems.BarrenForEver | agent/cli.py:3109-3126 | without a pending receipt, a database that cannot be imported into never changes again |
| MonitoredLoop.Monitor | agent/ai_invocation.py:674-769 | heartbeats, the one progress check and the timeout act on time and within one shortest sleep, in at most 100 polls a second of timeout, and every ending is explained |
| MonitoredLoop.WellTimedTells | agent/ai_invocation.py:674-769 | the timing promises act by act: first beat at the start, beats an interval apart within ten milliseconds, one inspection on time, the end within ten milliseconds of the deadline |
| MonitoredLoop.SendHeartbeat | agent/ai_invocation.py:683-706 | heartbeats keep their schedule and a failed one ends it |
| MonitoredLoop.InspectProgress | agent/ai_invocation.py:708-738 | progress is inspected once, on time, and judged by what is visible then |
| MonitoredLoop.Nap | agent/ai_invocation.py:763-769 | no sleep passes a due time by a shortest sleep, and every sleep counts down the wait |
| SessionWatchdog.Watch | agent/ai_lifecycle.py:704-716 | the loop stops at the first poll with a verdict, at most one poll past the cap |
| SessionWatchdog.PollExactly | agent/ai_lifecycle.py:704-716 | what one poll decides, said of limit, requested timeout, role window and times |
| SessionWatchdog.SessionManager.KillSession | agent/ai_lifecycle.py:892-905 | killed exactly when the session is known and its process took the signal |
| SessionWatchdog.SessionManager.KillIfExpired | agent/ai_lifecycle.py:912-920 | one session is swept by the two limits |
| SessionWatchdog.SweptExactly | agent/ai_lifecycle.py:907-921 | what a sweep does to one session |
| SessionWatchdog.SessionManager.CleanupExpired | agent/ai_lifecycle.py:907-921 | every running session past a limit gets a kill and no other changes; the count is of kills tried |
| SessionWatchdog.SessionManager.ExtendDeadline | agent/ai_lifecycle.py:923-934 | only a running session's clock restarts |
| SessionWatchdog.CapIsFinal | agent/ai_lifecycle.py:704-716 | in every interleaving the worker waits at most one poll past the cap and past a quiet window |
| SessionWatchdog.TimeoutIsEarned | agent/ai_lifecycle.py:707-716 | hung means every heartbeat is older than the window; too long means past the cap |
| SessionWatchdog.StatusTells | agent/ai_lifecycle.py:732-743 | the status after each action, and what resets the heartbeat clock |
| SessionWatchdog.FallbackComesAfterWatchdog | agent/ai_lifecycle.py:860-865 | the waiting caller's kill never fires while the watchdog watches |
| SessionWatchdog.GivesUpExactlyWhen | agent/ai_lifecycle.py:860-865 | the waiting caller gives up exactly thirty seconds past the limit on a running session |
| SessionWatchdog.NewSessionStarts | agent/ai_lifecycle.py:597-672 | how a session starts |
| SessionWatchdog.EnabledExactly | agent/ai_lifecycle.py:676-716 | what may happen when |
| SessionWatchdog.CleanupBeforeWindow | agent/ai_lifecycle.py:912-920 | clean-up ends a session the watchdog lets run exactly for a running coordinator between the two windows |
| SessionWatchdog.CleanupCanComeFirstExactlyWhen | agent/ai_lifecycle.py:704-716 | that can happen exactly when the limits leave room for it |
| SessionWatchdog.NeverRunningAgain | agent/ai_lifecycle.py:892-934 | a status that left running never returns to it |
| SessionWatchdog.KillIsFinalExactlyWhen | agent/ai_lifecycle.py:736-742 | in every run a killed status can still be replaced exactly until the worker has finished |
| SessionWatchdog.KilledIsReplaced | agent/ai_lifecycle.py:736-742 | a killed status is replaced by the worker's own verdict |
| TokenFixedPoint.DigitsBracket | agent/context_assembler.py:241-245 | the digit count is the decimal length |
| TokenFixedPoint.FixedByThird | agent/context_assembler.py:241-245 | the iterates do not decrease and the third is fixed, for every context size |
| TokenFixedPoint.LeastFixedPoint | agent/context_assembler.py:241-245 | it is the least fixed point |
| TokenFixedPoint.RecordTokens | agent/context_assembler.py:237-247 | five passes always leave the exact count, after at most four evaluations |
| SnapshotRollback.SnapshotNamesDistinct | agent/executor.py:47-91 | snapshot names never collide with each other or with the manifest |
| SnapshotRollback.Executor.SnapshotFiles | agent/executor.py:47-91 | the manifest records every target, and the copies hold their contents and nothing else |
| SnapshotRollback.Executor.RollbackFromSnapshot | agent/executor.py:93-148 | targets get their original existence and content, others are untouched, a second rollback does nothing |
| SnapshotRollback.Executor.ExecuteVerifyUpdate | agent/executor.py:154-214 | whatever the body left, a failure or exception restores exactly the targets |
| RoutingConfig.ValidatePipelineConfig | agent/pipeline_config.py:342-430 | no errors exactly when every entry and every effective tuple is accepted |
| RoutingConfig.ResolveExactly | agent/pipeline_config.py:308-339 | the role before the default, then what follows from provider and backend |
| RoutingConfig.UseExactly | agent/ai_lifecycle.py:240-249 | what the lifecycle manager adds to it |
| RoutingConfig.RoutingAcceptedExactlyWhen | agent/pipeline_config.py:125-174 | the routing table, backend by backend |
| RoutingConfig.ErrorsExactly | agent/pipeline_config.py:125-174 | each error of a routing tuple, by itself |
| RoutingConfig.EntryRefusedExactlyWhen | agent/pipeline_config.py:354-406 | when exactly an entry by itself is refused |
| RoutingConfig.AcceptedExactlyWhen | agent/pipeline_config.py:342-430 | when exactly a configuration is accepted |
| RoutingConfig.CheckEntries | agent/pipeline_config.py:378-406 | the first pass is silent exactly when every role name and entry is accepted |
| RoutingConfig.CheckEffective | agent/pipeline_config.py:408-430 | the second pass is silent exactly when every valid role resolves to an accepted tuple |
| RoutingConfig.ResolvedIsEffective | agent/pipeline_config.py:308-339 | the entry any role name resolves to was checked |
| RoutingConfig.ValidatedNeverFailsAtUse | agent/ai_lifecycle.py:240-257 | a validated configuration passes at use exactly when the backend is not the fixture |
| RoutingConfig.FixtureIsAccepted | agent/pipeline_config.py:342-430 | there is an accepted configuration that resolves to the fixture and fails at use |
| BraceExtraction.OneCandidate | agent/ai_output_parser.py:70-91 | a text has at most one candidate |
| BraceExtraction.MatchingOpening | agent/ai_output_parser.py:78-87 | the inner loop finds where the depth first returns to zero, or proves it never does |
| BraceExtraction.ExtractJsonObject | agent/ai_output_parser.py:70-91 | returns the one candidate if it parses, otherwise nothing |
| BraceExtraction.ExtractedIsBalanced | agent/ai_output_parser.py:70-91 | what is extracted starts at an opening and ends at the last closing brace, has as many of each, and no proper suffix of it does |
| BraceExtraction.NothingToExtract | agent/ai_output_parser.py:70-91 | when nothing is extracted no such stretch parses |
| BraceExtraction.FindsObjectExactlyWhen | agent/ai_output_parser.py:70-91 | a valid last object is found exactly when, read backwards, it first balances at its start |
| BraceExtraction.StrayClosingHidesAll | agent/ai_output_parser.py:74-91 | one stray closing brace at the end hides every object |
| TaskStages.TaskDirectories.CreateTask | agent/executor_api.py:801-864 | creates exactly when the name is in no live stage |
| TaskStages.TaskDirectories.CancelTask | agent/executor_api.py:484-506 | removes from pending, else from processing |
| TaskStages.TaskDirectories.RetryTask | agent/executor_api.py:508-523 | moves results, else processing, back to pending |
| TaskStages.TaskDirectories.TakeOver | agent/executor_api.py:570-615 | moves processing, else pending, to results with the override |
| TaskStages.TaskDirectories.FixStage | agent/executor_api.py:637-656 | exactly the related files of one stage leave it, overridden |
| TaskStages.TaskDirectories.FixManually | agent/executor_api.py:617-660 | both live stages, in order |
| TaskStages.TaskDirectories.SweepStage | agent/executor_api.py:544-564 | exactly the stale files of a stage leave it |
| TaskStages.TaskDirectories.CleanUpStale | agent/executor_api.py:531-566 | they go to dead_letter unchanged |
| TaskStages.RequestTells | agent/executor_api.py:484-615 | where create, cancel, retry and take-over put a file, and that no other name is touched |
| TaskStages.ManualFixTells | agent/executor_api.py:632-656 | which files a manual fix takes, and where they go |
| TaskStages.CleanupTells | agent/executor_api.py:544-564 | which files a clean-up takes, and where they go |
| TaskStages.RelatedExactlyWhen | agent/executor_api.py:639-643 | listed by stored id or name, or mentioning the project |
| TaskStages.StaleExactlyWhen | agent/executor_api.py:547-555 | without a start time, or started at least that many minutes ago |
| TaskStages.RunKeepsExclusive | agent/executor_api.py:484-660 | every sequence of requests keeps each name in at most one live stage and names equal to stored ids |
| TaskStages.OnlyCancelRemoves | agent/executor_api.py:484-506 | a name disappears only through a cancel of that name |
| TaskStages.FileKeptExactlyWhen | agent/executor_api.py:484-660 | one request keeps the single file exactly unless it cancels it while live or creates it while dead |
| TaskStages.RunConservesTask | agent/executor_api.py:484-660 | a single file stays single with the same content throughout a run exactly when no request does either |
| TaskStages.DeadTaskCanBeCreatedAgain | agent/executor_api.py:819-836 | creation ignores dead_letter |
| MirrorStore.ContextStore.SaveInput | agent/context_store.py:82-95 | an existing row keeps its status while Redis is reset to pending |
| MirrorStore.ContextStore.MoveTo | agent/context_store.py:105-133 | the three errors and the move, in SQL and in Redis |
| MirrorStore.ContextStore.ArchiveTask | agent/context_store.py:135-152 | row and mirror are removed together, the archive keeps the row |
| MirrorStore.AllowedExactly | agent/context_store.py:12-22 | the transition table, pair by pair |
| MirrorStore.FailureExactly | agent/context_store.py:105-123 | which error a transition raises, if any |
| MirrorStore.AfterTells | agent/context_store.py:82-152 | what each event does to row, archive and mirror of each task |
| MirrorStore.RowHoldsLastSave | agent/context_store.py:82-152 | after every run a task has a row exactly when saved and not archived since, with the payload of its last save |
| MirrorStore.MirrorAgreesExactlyWhen | agent/context_store.py:82-152 | same names and payloads always; same status exactly when no late save is unhealed |
| MirrorStore.MoveCostsRank | agent/context_store.py:12-22 | a transition lowers the rank and nothing else but the archive changes the status |
| MirrorStore.AtMostSixMoves | agent/context_store.py:12-22 | every transition costs rank, so a row moves at most six times |
| MirrorStore.SixMoves | agent/context_store.py:12-22 | six is reached |
| PipelineRuns.Pipeline.RunOnce | agent/backends.py:780-815 | one call, on the routed tool and model; the global settings are as before |
| PipelineRuns.Pipeline.RunAttempts | agent/backends.py:817-834 | one attempt and then guarded retries, until one does work or all are used up |
| PipelineRuns.AttemptsExactly | agent/backends.py:743-748 | how many attempts a stage has, qa three at least |
| PipelineRuns.AttemptExactly | agent/backends.py:780-815 | backend by backend, which tool an attempt uses on which model |
| PipelineRuns.FallsBackExactlyWhen | agent/backends.py:837-843 | which stages fall back on Claude |
| PipelineRuns.AnalysisExactly | agent/backends.py:652-654 | the stages that only analyse |
| PipelineRuns.Pipeline.RunStage | agent/backends.py:733-872 | the calls, replies, guards, fallback and reported count of one stage |
| PipelineRuns.StageRanOnce | agent/backends.py:817-872 | the replies determine the run of a stage and its calls |
| PipelineRuns.CallsTell | agent/backends.py:817-872 | the calls and replies of a stage, one by one |
| PipelineRuns.ReportedExactly | agent/backends.py:819-872 | the count reported after work done, after the fallback, and after attempts used up |
| PipelineRuns.CountIsCallsExactlyWhen | agent/backends.py:819-871 | the reported count equals the calls exactly when the limit is not negative or the first call did work; at most the limit and two calls |
| PipelineRuns.Pipeline.ProcessPipeline | agent/backends.py:1202-1273 | the results are of the first stages in order, each with its own block of calls as its stage prescribes; all but the last did work, and completed exactly when all ran and worked |
| PipelineRuns.StagesTell | agent/backends.py:1202-1256 | stage by stage and block by block, what the results are of |
| PipelineRuns.FallbackIsFromCodex | agent/backends.py:837-841 | the fallback is only from Codex, and is missed exactly for an unknown backend without OpenAI |
| PipelineRuns.FallbackModelIsTrueExactlyWhen | agent/backends.py:843-868 | the recorded fallback model is the one it ran on exactly when it is the global model |

## Left out

- `_invoke_codex_cli_monitored` output collection, process start and stop, `redact_command` and `_merge_pinned_route_identity`: text and I/O.
- The bootstrap phase of the launch gate and its handover: only the legacy-adoption phase of `_durable_dev_launch` is modelled.
- The hard-coded incident exceptions of `agent/cli.py`: the exceptional verdict is refused.
- LaunchRuntime.Runtime.Approach: processes and bytes do not change while it runs; the step system has the finer steps.
- The 5-second wait for a live but unbound child: the step system lets it end only by the child's death, and `Approach` refuses at once.
- Health, source, argv and custody identity conjunctions in launch and stop: they only refuse, so the model may do more than the code here.
- The window between a served child and its bound port is part of serving.
- Two operator commands at once: recovery does not check the lock owner, so the code gives no mutual exclusion between them.
- DurableLaunchRecovery.RecoveryClassifies: only for quiet runs, because the code misreads others (see VerdictIsTrueExactlyWhen for the exact condition over all runs).
- Symlink, inode, ownership and fsync checks, SQLite and Git mechanics: only their logical result is kept.
- Priority trimming in `_enforce_budget`: only its self-referential count is modelled.
- Strategies 1, 2 and 4 of `parse_ai_output`, and `_validate_schema`: text patterns.
- Environment overrides and provider availability of the pipeline configuration.
- Sessions: provider start-up, prompt files, results and audit; the up to nine seconds a worker takes to finish after its watchdog has stopped waiting.
- Killing sessions while task files are moved, unreadable task files, and lower-casing outside ASCII.
- Outputs, audit rows and timestamps of the context store, and Redis failures.
- The prompt context passed between pipeline stages and the single-backend path without stages.
- FixManually: requires file names to equal stored ids, which every request keeps; otherwise the result depends on directory order.
