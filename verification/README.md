# Summon: durable protocols, state machines and producer/validator pairs

Summon dispatches work to vendor CLIs and to OpenAI-compatible endpoints. This project models the
parts of it that have to stay right under crashes, races and hostile input, and proves what they
keep.

- `ResumeLaunch`: a governed resume claim moves through its phases while any number of resume calls
  run, crash and race. At most one child process is ever created per claim; every time a claim
  becomes launchable again, `Popen` raised an `OSError` of its own; claim, record and private claim
  file stay consistent exactly under the launch lock or the execution lease; and under the launch lock
  one undisturbed call finishes a launchable claim exactly when no lease is in its way.
- `HostInterlock`: the install lock, the background launcher's execution lease, and the two-flag
  exclusion between them. Lock and exclusion both hold exactly when live holders are timely and a stale
  lock is broken in one atomic step.
- `InstallSwap`: the staged refresh of a managed tree by two renames, with rollback, crash recovery
  and the reaping of owned leftovers.
- `Qualification`, `SourceFamily`, `LaunchGuard`: authenticated launch qualifications, the family
  store that links and revokes them in two files, and the single-use guard whose consumption is
  ordered against revocation.
- `Breaker`, `AcpClient`: the clamped circuit-breaker ladder with rollback, permission answers under
  it, and operator extensions of a request deadline while another thread refreshes too.
- `Outcomes`, `OutcomeCapture`, `OutcomeEvidence`, `OutcomeRelease`, `OutcomeReports`: the release outcome
  validator, the collector that folds an event stream into its artifact, what each guarantees about the
  other, exactly which streams become release evidence, and what that says about the single reports.
- `SourceHash`: the length-prefixed byte stream behind the release source hash.
- `RouteRewrite`, `ApiFallback`: the Coding Plan route classifier, its rewrite to the
  pay-as-you-go route, and the two-request call with its gates and its wall-clock budget.
- `Runs`, `Text`, `Wrappers`: schedules and their invariants; strings, orderings and numerals; options
  and results.

Protocols are total step functions run over explicit schedules, so that a statement about `Run` is a
statement about every interleaving with a crash between any two durable steps. Code that the source
writes as objects updated in place is a class whose methods are proved against those functions.

Results where the code is narrower than its intent, each with its exact condition:

- A resume call that dies under the execution lease of a managed host ends its claim: no later call
  ever gets past the lease (`ResumeLaunch.LaunchableClaimsFinishIff`, `ResumeLaunch.StillFinishableIff`,
  reached in `ResumeLaunch.LeaseLeftForever`), and no install, uninstall or other background launch of the
  host ever proceeds either (`HostInterlock.LostLeaseBlocksForever`).
- A lock whose creator died before writing its marker is never breakable again
  (`HostInterlock.LeftoverBreakableIffMarked`, reached in `HostInterlock.UnmarkedForever`).
- A failing recovery rename lets the run delete the only good copy
  (`InstallSwap.RecoveryRenameDecides`); "previous copy left in place" is not always true
  (`InstallSwap.FailedLeavesPrevious`, reached in `InstallSwap.FailedSwapLosesDest`); and a torn backup
  blocks every later refresh (`InstallSwap.BlockedForever`, reached in `InstallSwap.TornBackupBlocks`).
- The first qualification file of a turn is final; if its publication stopped before the link and the
  packet expires, the turn is lost (`SourceFamily.FirstPacketWins`, `SourceFamily.ExpiredOrphanWedges`,
  reached in `SourceFamily.StoppedPublicationOrphans`). The 129th revocation makes a family unreadable
  for good (`SourceFamily.RevocationStaysReadableIff`, reached in `SourceFamily.RevocationsBrickFamily`).
- A Coding Plan URL with an escaped prefix, such as `/%61pi/coding`, is classified as subscription but
  not rewritten (`RouteRewrite.RewriteLeavesSubscription`, `RouteRewrite.EscapedPrefix`), and the
  documented result `…/api/v3` comes out only when nothing is left over
  (`RouteRewrite.RewritesToPaygIff`, `RouteRewrite.DottedIsMangled`); the model follows the code.
- The wall deadline is kept exactly when requests open in time (`ApiFallback.DeadlineKeptIff`,
  missed in `ApiFallback.OverrunHappens`), and a retry that is stopped before it opens reports that nothing was
  submitted although the first request was (`ApiFallback.Backend.Call`, reached in
  `ApiFallback.StoppedAfterSubmission`).

## Model

| member | source | states |
|---|---|---|
| ResumeLaunch.AtMostOneChild | skills/summon/scripts/_background.py:448-712 | On every schedule of any number of resume calls, crashes and child actions, with or without the launch lock, at most one process is ever created; none exists while the claim is reserved, prepared or spawn_failed; exactly one existed once it is spawned or terminal or the record carries a pid; and a terminal claim has the result that carries its child's nonce. |
| ResumeLaunch.ActKeepsSound | skills/summon/scripts/_background.py:828-884 | The invariant behind it, kept by every action: only one call at a time owns the claim between launch claim and Popen, and calls past Popen imply a child. |
| ResumeLaunch.StepIsFramed | skills/summon/scripts/_background.py:594-683 | Each single step of a resume call creates a child or reopens the claim only as the call that owns it, and leaves what every other call relies on. |
| ResumeLaunch.ReopenedOnlyByOsError | skills/summon/scripts/_background.py:654-673 | On every schedule, whenever a claim is launchable, later is not, and then is again, some Popen call raised OSError in between; an error of an earlier launch does not account for it. |
| ResumeLaunch.EachReopeningHasItsRaise | skills/summon/scripts/_background.py:654-673 | No schedule reopens a claim more often than Popen raised OSError in it. |
| ResumeLaunch.OrderedForever | skills/summon/scripts/_job_resume.py:868-983 | Under the launch lock, or the lease of a managed host, between any two steps the durable record, the private claim file and the ledger agree so that the next call that gets past the lease passes the checks of the path it will take, and a child carries the nonce of the record. |
| ResumeLaunch.LaunchableClaimsFinishIff | skills/summon/scripts/_background.py:448-712 | However earlier calls crashed or failed, one undisturbed call under the launch lock turns a launchable claim into exactly one spawned child of the started pid and gives its lease back if and only if the dispatcher is unmanaged or no lease is left; otherwise it changes nothing. |
| ResumeLaunch.LaunchEndsAsPopenDid | skills/summon/scripts/_background.py:643-712 | The same call for every fate of Popen: started, claim and record carry the pid; OSError, the claim is spawn_failed, known not contacted and without a child; interrupted, it is indeterminate and only the system knows whether there is a child. What an earlier launch knew of contact is forgotten, and the lease is given back in each case. |
| ResumeLaunch.LoneCallLaunchesIff | skills/summon/scripts/_background.py:341-445 | Whatever the files have become: a lone call that no write fails launches a launchable claim if and only if the lease is free and record, claim and private file are in order for its phase: no pid in the record, seal, bundle and nonce in agreement, and the contact flag of the phase. Otherwise no child is created. |
| ResumeLaunch.LoneCallClassifies | skills/summon/scripts/_background.py:830-862 | One undisturbed call on a claim past its launch, whatever the files have become: a result under the nonce of the record makes it terminal; otherwise it is spawned, with the recorded pid, if and only if a pid is recorded, there is no result and the process runs, and indeterminate if not; what was indeterminate stays so. |
| ResumeLaunch.ResultClosesClaim | skills/summon/scripts/_job_resume.py:1500-1594 | On every schedule under the launch lock or the lease, the result of a child makes the claim terminal when the child seals it, indeterminate when sealing fails, and terminal by the next lone call when the child is lost. |
| ResumeLaunch.HookRefusalLeavesDoubt | skills/summon/scripts/_background.py:619-632 | A hook bridge that refuses after the launch was claimed creates no child and gives the lease back, and the next call puts the claim in doubt. |
| ResumeLaunch.EndGivesLeaseBack | skills/summon/scripts/_background.py:684-686 | However a call leaves the lease behind, by a refusal, an error or a launch, it is given back unless it cannot be unlinked. |
| ResumeLaunch.LeaseIsAwaited | skills/summon/scripts/_background.py:124-174 | A call that meets a lease waits or gives up without effect; one that cannot write its own removes it again unless it cannot be unlinked. |
| ResumeLaunch.PreparedAgainLaunches | skills/summon/scripts/_job_resume.py:964-983 | A call that finds its claim already prepared with its own seal goes on and ends as Popen did. |
| ResumeLaunch.OtherHoldsUp | skills/summon/scripts/_background.py:124-174 | Another launcher of the host holds a launchable claim up as long as it has the lease, and no longer. |
| ResumeLaunch.ClaimMoves | skills/summon/scripts/_job_resume.py:826-866 | On every schedule each action moves the phase along one arrow of its transition table or not at all. |
| ResumeLaunch.TerminalForever | skills/summon/scripts/_job_resume.py:1525-1535 | A terminal claim stays terminal on every later schedule. |
| ResumeLaunch.StillFinishableIff | skills/summon/scripts/_background.py:124-174 | Once every call is gone, some later schedule finishes a launchable claim if and only if no call left its lease behind. |
| ResumeLaunch.LeaseLeftForever | skills/summon/scripts/_background.py:492-562 | A call that dies under the lease leaves a reserved claim whose phase, and whose lease, no later schedule changes. |
| ResumeLaunch.ConsistentIffGuarded | skills/summon/scripts/_job_resume.py:158-170 | Claim, launch record and private claim file stay consistent on every schedule if and only if calls hold the successor launch lock or take the lease. |
| HostInterlock.Interlock | skills/summon/scripts/_background.py:124-174 | In every interleaving of installers, uninstallers and launchers with crashes anywhere: one lock holder, one lease holder, and never a launcher past its second lock check while an installer past its lease check mutates the tree. |
| HostInterlock.RemovalIsOwn | install.py:269-294 | A step that removes the install lock removes the remover's own file, or breaks one that no live holder owns; a lease is removed only by its owner. |
| HostInterlock.EndGivesBack | skills/summon/scripts/_background.py:113-121 | In every interleaving the step with which a run ends, unless it fails, leaves no lease if the run had one and no lock if it had that; a lease that cannot be written is removed all the same. |
| HostInterlock.CalmRunGivesBack | install.py:269-294 | From every reachable state five steps without a failure end any run that has the lease or the lock, with what it had given back and everything else as it was. |
| HostInterlock.FreeHostLaunches | skills/summon/scripts/_background.py:124-174 | On a host with neither file a launcher reaches its critical section, and when it is done the host is free again. |
| HostInterlock.FreeHostInstalls | install.py:368-379 | On a host with neither file an installer reaches the managed tree, and when it is done the host is free again. |
| HostInterlock.ExclusiveIff | install.py:229-266 | The install lock never has two holders on any schedule if and only if live holders finish before their lock looks stale and re-checking and unlinking a stale lock is one step. |
| HostInterlock.InterlockedIff | install.py:297-304 | A launcher past its second check never meets an installer that mutates the tree, on any schedule, if and only if both of these assumptions hold. |
| HostInterlock.SlowHolder | install.py:255-263 | A schedule with two holders when a live holder outstays LOCK_STALE_SEC. |
| HostInterlock.SlowBreaker | install.py:256-261 | A schedule with two holders when two breakers interleave between the re-check and the unlink. |
| HostInterlock.LeftoverBreakableIffMarked | install.py:218-226 | With every process dead, a leftover lock can be removed by some later schedule if and only if its marker was written. |
| HostInterlock.LeftoverTakenIff | install.py:229-266 | A lock that a dead run left is taken over by the next run if and only if its marker was written and it is more than an hour old; otherwise that run changes nothing. |
| HostInterlock.TwoAttempts | install.py:229-266 | On every schedule no run tries to create the lock more than twice; then it gives up and changes nothing. |
| HostInterlock.OvertakenRunRetries | install.py:249-263 | A run whose look at the lock was overtaken because the lock went away tries again and takes it. |
| HostInterlock.MarkerGoesUnchecked | install.py:245-248 | A run that lost its lock before it wrote the marker goes on as its holder, and its write reaches no other lock. |
| HostInterlock.WaitsOrGivesUp | skills/summon/scripts/_background.py:124-174 | A launcher that meets a lease waits for it, and gives up when there is a lock or its time is up, changing nothing either way. |
| HostInterlock.UnmarkedForever | install.py:245-248 | A run that dies between creating the lock and writing its marker leaves a lock that no later schedule removes. |
| HostInterlock.LostLeaseBlocksForever | skills/summon/scripts/_background.py:124-174 | A launcher that dies under its lease leaves a lease that no later schedule removes, after which no installer or uninstaller touches the tree and no launcher gets past its checks. |
| InstallSwap.Skills.InstallSkill | install.py:376-433 | The run as performed, entry by entry, leaves the tree and the outcome of the specification function, for every failing call and crash point. |
| InstallSwap.ReapAll | install.py:392-397 | The loop over the parent directory deletes exactly the owned staging directories, each as far as its rmtree gets, and nothing else. |
| InstallSwap.RefreshIsCrashConsistent | install.py:376-431 | From a complete owned tree at dest, every crash point and OSError of every sequence of runs leaves a complete owned tree at dest, or at dest.previous with dest missing, given that recovery renames succeed. |
| InstallSwap.RecoveryRenameDecides | install.py:380-399 | That assumption is exact: a run keeps a complete tree whatever else happens if and only if dest is in place or the recovery rename succeeds. |
| InstallSwap.InstalledMeansNew | install.py:408-420 | A successful return leaves exactly the new complete tree at dest and no staging directory of its own. |
| InstallSwap.InstalledRunTidies | install.py:392-413 | A run that installs leaves no staging directory of its own, and of owned staging directories and an owned backup only what rmtree failed to remove. |
| InstallSwap.CalmRunLeaves | install.py:376-420 | The whole directory after a run in which no call fails: the new tree, no owned leftover, no backup but a foreign one that was not in the way, and every other entry as it was. |
| InstallSwap.RefusedIff | install.py:388-390 | A run refuses a directory at dest without a valid summon manifest, and nothing else, and then changes nothing. |
| InstallSwap.FailedRunDiscards | install.py:429-430 | A run that fails after it made its staging directory leaves none, if rmtree removes it. |
| InstallSwap.FailedLeavesPrevious | install.py:422-431 | A failed refresh leaves the previous copy at dest if and only if it did not reach the swap or the rollback rename succeeded; otherwise the copy is the backup and dest is missing. |
| InstallSwap.FailedSwapLosesDest | install.py:408-431 | From any complete tree with a free backup name there is a failing run that ends with dest missing. |
| InstallSwap.ForeignSurvives | install.py:388-399 | Over every sequence of installer and uninstaller runs no file and no non-empty directory without a valid summon manifest is renamed or deleted, at dest, at the backup name or at any staging name. |
| InstallSwap.FairRunInstallsIff | install.py:388-411 | Without any failing call a run installs if and only if dest is not foreign and the backup name can take the old tree. |
| InstallSwap.BlockedForever | install.py:398-409 | With an owned tree at dest and a foreign backup, no later run ever installs, whatever fails or does not fail in it and in the runs before it. |
| InstallSwap.TornBackupBlocks | install.py:412-413 | From any complete tree there is a successful run, tearing the backup it removes, after which every later run fails to install. |
| InstallSwap.UninstallThenInstall | install.py:436-477 | An undisturbed uninstall removes exactly an installed tree, and a later undisturbed install brings a complete one back. |
| InstallSwap.TornUninstallBlocks | install.py:436-477 | An uninstall whose rmtree stops leaves what is left at dest; without its manifest no later run installs. |
| Qualification.ValidIsReviewed | skills/summon/scripts/_chat_launch_qualification.py:82-146 | What is valid qualifies the one reviewed launch material, by a declared CLI version and a registered generation, is unexpired and names the revocation that covers it; and every argument that was given is met. |
| Qualification.ReviewedIsIssued | skills/summon/scripts/_chat_launch_qualification.py:45-79 | issue accepts every unexpired qualification of that material. |
| Qualification.IssueRoundTrip | skills/summon/scripts/_chat_launch_qualification.py:45-146 | A record is valid under a token if and only if it is what issue returns for its fields. |
| SourceFamily.HistoryKeeps | skills/summon/scripts/_chat_source_family.py:337-569 | Over every history of ensure, publish, publish_qualification, write_qualification and revoke with arbitrary snapshots and stops between the two writes: identity, nonce, links and qualification files never change, links and revocations only grow, and every link names an existing file with that exact digest. |
| SourceFamily.Directory.EnsureFamily | skills/summon/scripts/_chat_source_family.py:444-472 | ensure as performed ends in the store and the answer of the specification function. |
| SourceFamily.Directory.PublishFamily | skills/summon/scripts/_chat_source_family.py:337-369 | The same for publish. |
| SourceFamily.Directory.PublishFirst | skills/summon/scripts/_chat_source_family.py:372-441 | The same for publish_qualification, check by check. |
| SourceFamily.Directory.Write | skills/summon/scripts/_chat_source_family.py:475-528 | The same for write_qualification. |
| SourceFamily.Directory.RevokeId | skills/summon/scripts/_chat_source_family.py:556-569 | The same for revoke. |
| SourceFamily.SnapshotsExpire | skills/summon/scripts/_chat_source_family.py:498-503 | From the first change of the family on, the holder of an earlier snapshot is refused every write and revocation without effect, in every later state: a seal that has changed never comes back. |
| SourceFamily.LinksWereIssued | skills/summon/scripts/_chat_launch_qualification.py:45-146 | Over every history from an empty directory, a linked qualification names this family and is exactly what issue returns for its fields under this family's nonce until it expires. |
| SourceFamily.LinksAreNotShared | skills/summon/scripts/_chat_source_family.py:400-412 | Over all pairs of histories, two directories link the same qualification only if their families share nonce and id. |
| SourceFamily.OtherIdentityIsRefused | skills/summon/scripts/_chat_source_family.py:308-335 | An operation that expects another identity than the sealed one, in id, session, participant, project root or identity digest, or holds another id, is refused without effect; a packet of another identity seeds nothing. |
| SourceFamily.ReadIff | skills/summon/scripts/_chat_source_family.py:259-335 | A family is read if and only if it is there, session, participant and nonce have 1 to 256 characters, it has at most 128 links and 128 revocations, its seal verifies and it is the expected one. |
| SourceFamily.FilesStayInside | skills/summon/scripts/_chat_source_family.py:151-157 | Over every history the qualification files have non-empty names of letters, digits, dots, underscores and hyphens. |
| SourceFamily.RevocationsWereAsked | skills/summon/scripts/_chat_source_family.py:556-569 | Over every history a family starts without revocations and each one it has was asked for by a revoke. |
| SourceFamily.IssuedIsPublished | skills/summon/scripts/_chat_source_family.py:444-553 | From an empty directory: a family sealed for an identity with its derived id accepts the qualification issued under its nonce for what was observed, gives it back to the holder of the new seal, and is found again instead of sealed again. |
| SourceFamily.RevocationStopsMaterial | skills/summon/scripts/_launch_qualification.py:88-97 | A revocation written for one qualification refuses, in every later state, every qualification of the same route, and makes no other one revoked. |
| SourceFamily.OrphansAreNeverRead | skills/summon/scripts/_chat_source_family.py:531-553 | A read succeeds if and only if the current seal, held by the caller, links the very file of the turn and it is valid; it then returns that file and its linked observation. |
| SourceFamily.InterruptedPublicationConverges | skills/summon/scripts/_chat_source_family.py:383-441 | After any number of publications that stopped between the two writes, the same packet, if it would be accepted now, reaches the state and the answer of an uninterrupted run. |
| SourceFamily.InterruptedWriteConverges | skills/summon/scripts/_chat_source_family.py:506-528 | The same for any number of stopped writes of one qualification. |
| SourceFamily.PublishedIsReadable | skills/summon/scripts/_chat_source_family.py:425-441 | A published link is read back by whoever holds the new seal if and only if the seal then has no more than 128 links. |
| SourceFamily.FirstPacketWins | skills/summon/scripts/_chat_source_family.py:418-423 | Once a qualification file exists for a turn, in every later state only that very qualification can be published or written for the turn. |
| SourceFamily.StoppedPublicationOrphans | skills/summon/scripts/_chat_source_family.py:418-423 | A first publication that would succeed and stops between the writes leaves its unexpired file without a link. |
| SourceFamily.ExpiredOrphanWedges | skills/summon/scripts/_chat_source_family.py:406-423 | Once that qualification has expired, in every later state nothing can be published, written or read for the turn. |
| SourceFamily.RevocationStaysReadableIff | skills/summon/scripts/_chat_source_family.py:259-292 | A successful revocation leaves a readable family if and only if it was already listed or fewer than 128 were. |
| SourceFamily.OverlongIsForever | skills/summon/scripts/_chat_source_family.py:259-292 | A family that readers refuse for its shape is never changed or answered for again by any history. |
| SourceFamily.RevocationsBrickFamily | skills/summon/scripts/_chat_source_family.py:556-569 | A history of 129 successful revocations ends in a family that no later history changes or reads. |
| SourceFamily.RevokedStaysRefused | skills/summon/scripts/_chat_source_family.py:413-414 | A revocation that was ever written refuses every later publication and write, without effect. |
| LaunchGuard.ConsumedAtMostOnce | skills/summon/scripts/_chat_launch_guard.py:222-342 | Over every interleaving of calls, crashes and family operations a guard is consumed at most once, by a request of its backend, transport and attempt, with the payload of a v2 guard, from the unexpired owner nonce and generation, with guard and observation at most half an hour old, whose observation has its route and what it expects; a guard that requires one, as every continuation does, by the qualification it carries, under its token, unexpired, for its family and turn and the observed route. |
| LaunchGuard.ConsumptionSeesNoRevocation | skills/summon/scripts/_chat_launch_guard.py:325-342 | The instant a guard that requires a qualification is consumed, the family on disk is the expected one and does not revoke it. |
| LaunchGuard.RevokedNeverConsumed | skills/summon/scripts/_chat_launch_guard.py:329-338 | Once the revocation is on disk, a pending guard that requires the qualification stays pending on every schedule. |
| LaunchGuard.TimelyRevocationWins | skills/summon/scripts/_chat_launch_guard.py:329-342 | A revocation that succeeds while the guard is pending and no call is under the family lock keeps the guard from being consumed on every later schedule. |
| LaunchGuard.FamilyLockIsHeld | skills/summon/scripts/_chat_source_family.py:189-229 | On every schedule the family lock is held only by a call that is under it: a crash, a refusal, a revocation and a failing write all free it. |
| LaunchGuard.EndUnlinksGuard | skills/summon/scripts/_chat_launch_guard.py:72-87 | A call that entered the guard lock ends by unlinking it, whatever it met, and leaves it only if unlinking fails. |
| LaunchGuard.CrashFreezesGuard | skills/summon/scripts/_chat_launch_guard.py:72-87 | After a crash inside the guard lock the guard's phase never changes again. |
| LaunchGuard.CrashInsideAbandons | skills/summon/scripts/_chat_launch_guard.py:72-87 | A crash of any call past the lock, in any reachable state, leaves exactly that situation. |
| LaunchGuard.AdmittedCallConsumes | skills/summon/scripts/_chat_launch_guard.py:222-342 | The guard refuses only for cause: a lone call that passes every check on an unlocked pending guard can consume it and releases both locks. |
| LaunchGuard.OwnCallConsumes | skills/summon/scripts/_chat_launch_guard.py:232-306 | A guard whose terms ask for no qualification can be consumed by any call that presents these values. |
| LaunchGuard.QualifiedCallConsumes | skills/summon/scripts/_chat_launch_guard.py:306-342 | A continuation's guard can be consumed by such a call that also presents its qualification, valid as issued for what was observed, while the family does not revoke it. |
| Breaker.NormalizeSignals | skills/summon/scripts/_breaker.py:66-76 | Keeps exactly the known names, each once, at its first occurrence. |
| Breaker.GraduatedBreaker.CollectTriggers | skills/summon/scripts/_breaker.py:182-208 | Returns each trigger name that holds at the checkpoint, once, and no other: tool_loop, error_storm, no_progress and the token cap in this order, then extra ones as first mentioned. |
| Breaker.TriggerListHolds | skills/summon/scripts/_breaker.py:182-208 | That list has no repetition and names exactly the triggers that hold. |
| Breaker.TriggeredIff | skills/summon/scripts/_breaker.py:182-208 | A checkpoint is triggered by a tool loop or an error storm among the active signals, a record that judges no activity or shows a tool loop, an exceeded token cap, or an extra trigger of a known name, and by nothing else. |
| Breaker.GraceShieldsIff | skills/summon/scripts/_breaker.py:173-201 | A checkpoint that shows nothing but work tokens, after compactions, is triggered if and only if the tokens exceed the cap and the grace after the latest compaction has passed. |
| Breaker.EarlierGraceShieldsIff | skills/summon/scripts/_breaker.py:173-201 | The same for a compaction noted while the decision before it was pending, whatever became of that decision. |
| Breaker.UncompactedIff | skills/summon/scripts/_breaker.py:197-201 | Without any compaction the cap alone decides. |
| Breaker.GraduatedBreaker.Evaluate | skills/summon/scripts/_breaker.py:210-280 | One checkpoint moves at most one clamped level, counts transitions and checkpoints, and records levels, signals, action, enforcement and the hook that can undo it. |
| Breaker.ActionIs | skills/summon/scripts/_breaker.py:240-250 | Stop, constrain and steer are called for exactly on the climb to their level, and no action exactly when the level stays. |
| Breaker.BreakerDecision.Rollback | skills/summon/scripts/_breaker.py:116-137 | Restores level, transitions and last decision but not checkpoints; a second rollback, or one after commit, changes nothing. |
| Breaker.EverReachedIff | skills/summon/scripts/_breaker.py:210-228 | A level, up to stopped with allow_stop and to constrained without, is ever reached on a run if and only if some window of consecutive checkpoints has that many more triggered than clean ones. |
| Breaker.LevelNeedsRecentEvidence | skills/summon/scripts/_breaker.py:210-228 | A run that stands at level i, and was not absorbed before, has i more triggered than clean checkpoints in some window of the most recent ones. |
| Breaker.StoppedIsTerminal | skills/summon/scripts/_breaker.py:220-224 | stopped is left by no checkpoint and entered by none without allow_stop. |
| Breaker.CleanRecovers | skills/summon/scripts/_breaker.py:225-226 | k clean checkpoints from a level below stopped step down k levels, to healthy at the lowest. |
| Breaker.RunEpisode | skills/summon/scripts/_breaker.py:112-137 | Over any run whose decisions are each committed or rolled back, with compactions noted at any moment in between, level and transition count are those of a fresh ladder fed only the kept checkpoints, and the transition count is the number of level changes. |
| AcpClient.AnswerPermission | skills/summon/scripts/_acpbackend.py:537-607 | The loops over the options return the answer of the specification function. |
| AcpClient.AnswersAreOffered | skills/summon/scripts/_acpbackend.py:584-595 | An answer is the id of an offered allow_once or reject option, and one that is no reject id is given only unblocked and inside the effective tier. |
| AcpClient.SilentIff | skills/summon/scripts/_acpbackend.py:550-595 | No answer is given if and only if the turn is blocked, or no reject option has an id and the tool kind is out of tier or the earliest allow_once id is empty or missing. |
| AcpClient.ApprovedByTier | skills/summon/scripts/_acpbackend.py:67-75 | With nothing to restrain it and nothing to reject with, a tool is approved if and only if an allow_once option is usable and the tier, in any letter case, is wide enough: any tier for read, fetch, search and think, the upper two for edit, the widest for execute, switch_mode, move and other, none for an unlisted kind. |
| AcpClient.ApprovedUnderGuard | skills/summon/scripts/_acpbackend.py:537-595 | The same for every admitted tier under every breaker and control: nothing while blocked, only the reading kinds while an enforcing breaker stands at constrained or the log says so. |
| AcpClient.BlockedIff | skills/summon/scripts/_acpbackend.py:550-568 | A turn is blocked exactly when cancellation was requested, the log says stopped and no shadow breaker overrules it, or an enforcing breaker stands at stopped. |
| AcpClient.InTierIsAllowed | skills/summon/scripts/_acpbackend.py:583-590 | A tool inside its tier is answered with the earliest allow_once option that has an id. |
| AcpClient.OutOfTierIsRejected | skills/summon/scripts/_acpbackend.py:591-595 | A tool outside its tier is answered with the earliest reject option that has an id. |
| AcpClient.ClimbingShrinks | skills/summon/scripts/_breaker.py:323-328 | Moving up the ladder never admits a tool kind, for every mode, control state and declared tier. |
| AcpClient.AdmittedTierByLevel | skills/summon/scripts/_breaker.py:323-328 | For every tier that validate_permission admits, an enforcing breaker leaves all its kinds below constrained, exactly the read-only kinds at constrained, and none at stopped. |
| AcpClient.ConstrainedIsReadOnly | skills/summon/scripts/_loader.py:204-212 | Every admitted tier is held to the read-only kinds at constrained, whatever the control says. |
| AcpClient.StoppedAnswersNothing | skills/summon/scripts/_acpbackend.py:565-568 | At stopped no option is selected, not even a reject, for every option list, tool kind and control state. |
| AcpClient.ClampedStringIsReadOnlyIff | skills/summon/scripts/_builder.py:682-696 | The clamp taken alone, on an arbitrary string, holds to the read-only kinds if and only if the string is not another spelling of a wider tier; no admitted tier is one. |
| AcpClient.RuntimeControl.Refresh | skills/summon/scripts/_job_control.py:1263-1345 | Adds and returns, in one atomic step, what the queued commands of one millisecond to seven days sum up to, but no more than is left of seven days in all. |
| AcpClient.Poll | skills/summon/scripts/_acpbackend.py:409-414 | However the reader's own refreshes fall around it, one poll grants all commands that came to light and accounts for the growth since the last one exactly once. |
| AcpClient.Request | skills/summon/scripts/_acpbackend.py:404-465 | The extension applied inside one request is what all commands heard from entry to its end are granted, and moves the deadline by exactly that, past a first allowance of at least a twentieth of a second. The request ends at the first slice that is answered, raises, or lies at or after the deadline, as answered, raised or timed out in this order, and waits only while none does. |
| AcpClient.TurnState.AddText | skills/summon/scripts/_acpbackend.py:126-137 | The kept text is always the first 200,000 characters of everything received, and truncation is flagged exactly when something was cut or came after it was full. |
| Outcomes.ValidateOutcomes | tools/release_outcomes.py:115-197 | Accepts an artifact if and only if it is acceptable, and reports passed over passed plus skipped cases. |
| Outcomes.CheckRows | tools/release_outcomes.py:153-189 | The row loop raises if and only if some row is malformed or repeated; otherwise it recounts the cases and knows whether a row blocks. |
| Outcomes.SafeNodeGrows | tools/release_outcomes.py:91-92 | A safe test name extended by one identifier is safe within the length limit. |
| Outcomes.SafeNodeIsRelative | tools/release_outcomes.py:16 | A safe test name is a module path without dots, colons, backslashes or blanks before its suffix, not from the root, followed by names, of at most 1000 characters. |
| OutcomeCapture.Capture.Handle | tools/release_collect.py:133-206 | Each event handler updates the records as the specification function says. |
| OutcomeCapture.Capture.HandleAll | tools/release_collect.py:91-206 | A stream of events is folded into the records one event after the other. |
| OutcomeCapture.Capture.Finish | tools/release_collect.py:79-89 | Missing tests become errors and the artifact enumerates rows and collected names in order, with their counts and digest. |
| OutcomeCapture.EveryCaptureIsShaped | tools/release_collect.py:60-77 | After every stream of events, rows sit under their own names, skips carry the reviewed or redacted note, and generated subtest names are pairwise distinct. |
| OutcomeCapture.ReportOutcomes | tools/release_collect.py:145-163 | What a pytest report is recorded as, field by field: a failed call is failed and a failed setup or teardown errors, an expected failure that was skipped xfailed and one that passed xpassed, a skip skipped, a passed call passed, and any other passed phase nothing. |
| OutcomeEvidence.FinishAcceptedIff | tools/release_collect.py:79-89 | What finish writes passes the validator without release conditions if and only if reports name collected tests, names are safe, sizes hold and no collected test is named like a generated subtest. |
| OutcomeEvidence.StreamAcceptedIff | tools/release_collect.py:55-89 | The same in terms of the events alone: accepted if and only if each report names a collected test, collected names are safe, the names generated for reported subtests are short and not collected, and the numbers of collected names and named subtest reports stay within the limit. |
| OutcomeEvidence.AcceptedStreamIsClean | tools/release_outcomes.py:193-197 | If the validator accepts an artifact as release evidence, then no report in the stream was failed, errors, xpassed or unmapped, nothing was deselected or noted, no test was collected twice, every collected test has one passed or not-applicable case that some report gave it, some collected test was reported passed, and the command completed with exit code 0. |
| OutcomeEvidence.EveryCaptureIsGrounded | tools/release_collect.py:145-206 | Every node, row and subtest on record goes back to an event that reports it with that outcome. |
| OutcomeRelease.ReleaseAcceptedIff | tools/release_outcomes.py:115-197 | What finish writes is accepted as release evidence if and only if the command completed with exit code 0, the events are named as above, none is bad, unmapped, noted or deselected, no test is collected twice, every collected test is settled and its first report that is not passed is a skip reviewed as not applicable, so is every subtest report that is not passed, and some test only ever passed. |
| OutcomeRelease.CollectAndValidate | tools/release_collect.py:55-206 | Collector and validator run one after the other on a stream of events accept it exactly then. |
| OutcomeRelease.UntaintedIsTold | tools/release_collect.py:60-77 | In a stream without bad or unmapped reports the row of a test is its first report that is not passed, or passed without one. |
| OutcomeRelease.SomeStreamIsReleasable | tools/release_outcomes.py:193-197 | Under every policy some stream of events is accepted. |
| OutcomeReports.AcceptedReportsPassed | tools/release_collect.py:145-206 | A stream whose artifact is accepted as release evidence holds no failed report, no expected failure that was not skipped, and no unmapped one; every case counted as passed was reported passed in its call phase, or by unittest, without an expected failure; and some case is. |
| OutcomeReports.LastFailureStands | tools/release_collect.py:60-77 | After any stream the row of a test that ever failed is that of its last failure, as failed in the call phase and errors in any other: no later pass, skip or deselection hides it. |
| OutcomeReports.SkipsAreHonest | tools/release_collect.py:60-70 | After any stream a skip carries the reviewed reason and id of its test and digest, or the redacted text. |
| OutcomeReports.AcceptedRowsAreHonest | tools/release_outcomes.py:153-189 | Every artifact that the validator accepts has such notes, known phases, cases of collected tests and subtests of collected parents. |
| OutcomeReports.AcceptedRowsAreClear | tools/release_outcomes.py:193-197 | In accepted release evidence every row passed, or is a skip reviewed as not applicable. |
| SourceHash.ReleasedIsHashed | tools/release_manifest.py:65-75 | Nothing outside the sixteen release roots is hashed, and inside them every file is unless a component names the bytecode cache, one before the last the test cache, or it ends in .pyc. |
| SourceHash.CachesAreNotHashed | tools/release_manifest.py:583-604 | No file below a __pycache__ or .pytest_cache directory is hashed, and none named __pycache__. |
| SourceHash.BytecodeIsNotHashed | tools/release_manifest.py:602-603 | No file with the suffix .pyc is hashed. |
| SourceHash.TextIff | tools/release_manifest.py:441-445 | Line endings are canonical exactly in files with one of six extensions, in any letter case. |
| SourceHash.BigEndianSpells | tools/release_manifest.py:615-617 | The eight length bytes spell the length, most significant byte first. |
| SourceHash.StreamInjective | tools/release_manifest.py:607-619 | Two payload lists feed the same bytes if and only if they are equal in order, paths and contents. |
| SourceHash.SourceTree | tools/release_manifest.py:583-619 | The walk and the loop feed the frames of the included files in path order, or overflow exactly when a length does not fit eight bytes. |
| SourceHash.HashDeterminesPayload | tools/release_manifest.py:583-619 | Two trees feed the same stream if and only if their included files agree in path and canonical content. |
| SourceHash.CrlfInvariantIff | tools/release_manifest.py:441-445 | Turning every LF of a file into CRLF leaves its hashed content unchanged if and only if it held no CRLF before. |
| SourceHash.CheckoutInvariant | tools/release_manifest.py:441-445 | A tree whose text files are checked out with CRLF hashes the same. |
| RouteRewrite.CodingPathIff | skills/summon/scripts/_apibackend.py:310-360 | A path is a Coding Plan path if and only if it decodes to the segments api, coding and perhaps v3, in any case, with any slashes and dots between them and no traversal. |
| RouteRewrite.TraversalIsNotCoding | skills/summon/scripts/_apibackend.py:327-335 | A path with a traversal in it, spelled or escaped, is no Coding Plan path. |
| RouteRewrite.UnquoteUndoesEscape | skills/summon/scripts/_apibackend.py:322-324 | Decoding undoes percent-encoding, with hexadecimal letters of either case. |
| RouteRewrite.ModelArkIff | skills/summon/scripts/_apibackend.py:341-348 | The ModelArk hosts are the two domains and their subdomains, without final dots. |
| RouteRewrite.SubdomainIsModelArk | skills/summon/scripts/_apibackend.py:341-348 | A domain or a subdomain is one in any letter case and with any final dots. |
| RouteRewrite.LookalikeIsRefused | skills/summon/scripts/_apibackend.py:341-348 | A host that ends in such a name without a dot before it is none. |
| RouteRewrite.ZaiAddress | skills/summon/scripts/_apibackend.py:377-389 | The Z.AI subscription is one address, in any letter case, with final slashes and neither query nor fragment. |
| RouteRewrite.PaygIsNotCoding | skills/summon/scripts/_apibackend.py:310-360 | A path that spells /api/v3 anywhere, in any case, is no Coding Plan path, whatever percent-escapes, slashes and dot segments surround it. |
| RouteRewrite.RewriteLeavesSubscription | skills/summon/scripts/_apibackend.py:618-645 | The rewrite returns if and only if the URL is a Coding Plan URL whose path spells /api/coding outright; the result keeps scheme and authority, drops query and fragment, and is a Platform URL. |
| RouteRewrite.EscapedIsNotRewritten | skills/summon/scripts/_apibackend.py:634-644 | A path whose prefix begins with a percent-escape is a Coding Plan path and is not rewritten. |
| RouteRewrite.EscapedPrefix | skills/summon/scripts/_apibackend.py:634-644 | /%61pi/coding is one. |
| RouteRewrite.PlainIsRewritten | skills/summon/scripts/_apibackend.py:635-644 | Every plain spelling of the subscription path, in any case, with or without version and final slashes, becomes /api/v3. |
| RouteRewrite.RewritesToPaygIff | skills/summon/scripts/_apibackend.py:618-645 | For a Coding Plan path that spells its prefix, the result is what precedes the prefix followed by /api/v3, as the documentation promises always, if and only if nothing but slashes remains after the prefix, a version, a slash and a version. |
| RouteRewrite.DottedIsMangled | skills/summon/scripts/_apibackend.py:635-640 | A dot segment before the version, in any case, is rewritten to another path than /api/v3. |
| ApiFallback.WorthyIsMonotone | skills/summon/scripts/_apibackend.py:648-672 | Only a client error other than 401 and 403 is worth a retry whatever its text says, and more text or another letter case never makes it less worthy. |
| ApiFallback.PlanTextIsWorthy | skills/summon/scripts/_apibackend.py:648-672 | An answer that says that the model is unsupported, the quota is used up, a plan limit is exceeded or the rate is limited, in any letter case and anywhere in it, makes any client error but 401 and 403 worth a retry. |
| ApiFallback.OtherTextIsNot | skills/summon/scripts/_apibackend.py:648-672 | An answer that says none of this is worth a retry only with code 429. |
| ApiFallback.AnswerIsReadTo500 | skills/summon/scripts/_apibackend.py:1040-1053 | Of a long answer the first 500 characters decide, and of an empty one the reason phrase. |
| ApiFallback.Backend.DoRequest | skills/summon/scripts/_apibackend.py:966-1111 | Opens a request if and only if the body fits and the launch control lets it pass, and reports submission, worthiness and billing accordingly. |
| ApiFallback.Backend.Call | skills/summon/scripts/_apibackend.py:767-963 | Performs exactly the requests and accounting steps of the specified trace; bills a success as pay-as-you-go exactly when the retry succeeded, and as plan quota otherwise exactly on a subscription endpoint; says that nothing was submitted, that submission is uncertain, that spend is, that consent is missing, and that accounting is unavailable, each exactly when it is so, but for a stopped retry, which reports that nothing was submitted. |
| ApiFallback.StoppedAfterSubmission | skills/summon/scripts/_apibackend.py:937-963 | A call whose retry is stopped after its first request was opened: rate-limited, with a control that refuses the second launch. |
| ApiFallback.TwoRequestsIff | skills/summon/scripts/_apibackend.py:884-945 | A call opens at most two requests, two exactly when every gate lets the retry through, and none exactly when it is refused or stopped before the first. |
| ApiFallback.SilentCallIff | skills/summon/scripts/_apibackend.py:780-819 | A call contacts nobody if and only if model or base URL is missing, the model is refused, a Platform URL lacks consent by flag or, without fresh consent, by environment or preference, or a declared key, a key is missing or changed, or the request is stopped before it opens. |
| ApiFallback.LimitedCallRetriesIff | skills/summon/scripts/_apibackend.py:884-945 | A call whose plan is rate-limited is retried if and only if the operator consents by the flag or, unless fresh consent is demanded, by the environment or the preference, at least a second of the budget is left, and control, accounting and transport let it pass. |
| ApiFallback.FirstRequestIs | skills/summon/scripts/_apibackend.py:821-828 | The first event of a call that contacts anyone is the request to the configured URL with the whole budget, at least a second. |
| ApiFallback.LaterRequestIsBacked | skills/summon/scripts/_apibackend.py:905-945 | At any two positions of any call's trace that hold requests, the later one goes to the rewritten URL with at least a second and no more than was left, and with accounting the root was settled and the child prepared in between, in this order. |
| ApiFallback.RetryIsGated | skills/summon/scripts/_apibackend.py:884-912 | A second request follows a Coding Plan client error other than 401 and 403, has the operator's flag or, unless fresh consent is demanded, environment or preference, and the control's leave, and goes to a Platform URL under the same scheme and authority. |
| ApiFallback.PlatformNeedsConsent | skills/summon/scripts/_apibackend.py:578-615 | No request, first or second, reaches a Platform URL without the flag or, unless fresh consent is demanded, SUMMON_ALLOW_BYTEPLUS_PAYG=1 or the preference. |
| ApiFallback.DeadlineKeptIff | skills/summon/scripts/_apibackend.py:821-945 | For clock readings and openings in the order of the code: every timing of the answers in which each request ends within its timeout keeps the wall deadline if and only if the first request opens no later than the reading that fixes it, or a second reading shows that it closed in time, and a retry opens early enough for the timeout it was given. |
| ApiFallback.BudgetHolds | skills/summon/scripts/_apibackend.py:821-912 | In any case a request ends past the wall deadline by no more than the time between the clock reading before it and its opening. |
| ApiFallback.LateRetryOverruns | skills/summon/scripts/_apibackend.py:905-945 | For every lag, a retry that opens that late and uses its timeout ends that late after the deadline, up to a millisecond. |
| ApiFallback.OverrunHappens | skills/summon/scripts/_apibackend.py:905-945 | A call in the order of the code, with both requests within their timeouts, that ends after its deadline. |

## Left out

- Process spawning, pipes, sockets, HTTP, JSON and redirects: only the outcomes the protocols branch on are inputs of the models.
- HMAC and SHA-256: injective constructors of the data they cover.
- `ResumeLaunch`: a recovery or preparation loader reads claim, record, private claim file and bundle in one step; an install lock that refuses a lease is a failing write; gate and provider phases, mission budgets, prompt and environment of the child are not modelled.
- `HostInterlock`: one host root; fair waiting and the fifteen-second limit of the lease loop are free choices of the schedule; the second modification-time check of a release is part of its token check.
- `InstallSwap`: one run at a time, as the install lock gives it; the payload copy is complete or stops with an error; dry runs, companions, aliases and starter agents are not modelled.
- `Qualification`: shapes of identifiers and digests, finiteness of the expiry and the internals of `binding_projection` and `valid_projection`.
- `SourceFamily`: the patterns of ids and digests inside a record; links and revocations are maps and sets instead of sorted lists; the migration authority of a packet and the symbolic-link checks of the files are not modelled.
- `LaunchGuard`: one guard file, created once and not armed again, and the family path that its revocations use; the policy record of a v2 guard is covered by its payload.
- `Breaker`: `sync_from_control`, `projection` and `sanitize_record`; the ladder claims are about runs of checkpoints.
- `AcpClient`: the executor's own refusal of every tier but yolo on this transport, so that the results about the other tiers hold beyond its callers; the pending map, the reader's end-of-file sweep, diagnostics and the poll after an answered request, whose extension no request applies; an extend command is given with whether it came in time.
- `OutcomeCapture`: naming a test is an input of each event, with the collector's note when it fails; a failing fixture is one event per affected test; an ambiguous skip policy, which raises, is not modelled, and a policy holds the reviews of the binding and platform at hand.
- `Outcomes`: field sets, value types, the schema number, the output digest and the platform record of an artifact; its problems are a set.
- `SourceHash`: symbolic links and unreadable files, which raise; `_tree_fingerprint`, whose frames are the same as those of the source hash.
- `RouteRewrite`: cutting a URL into parts; percent-escapes decode to one character for each byte, and letters outside ASCII have no case but for the long s of a host, neither of which can make or unmake a Coding Plan path.
- `ApiFallback`: credential resolution and model normalization are inputs; error texts, warnings and usage fields of a response are not modelled; of the blank characters in a key name only the ASCII ones are known.
- Gate artifacts, evidence bundles, inventories, drivers, aliases, doctor and browser code: shape checks and input/output that would only add easy members.
