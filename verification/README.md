# litehive: a verified model

litehive drives coding tasks through a pipeline of agent stages, hooks, commit and recovery, on engines that may
be frozen or out of quota. This project models the parts of it whose correctness only shows over whole runs, and
proves what those runs guarantee. `dafny verify dfyconfig.toml` checks everything.

**The lifecycle machine.** `Common`, `Recovery`, `Events`, `TaskStates` hold the vocabulary; `Deltas` the effects of
`lifecycle_deltas.py`; `Patches` what it means to apply a delta; `Rules` the ordered rule table with its guards and a
flat form of it, `Route`, which `RouteProof` shows equal to the table; `Runner` the object that applies transitions.
`Runs` defines a run as a list of node answers the machine accepts, and its journal. The theorems compare the counters
stored in the state with specifications that only read the journal: `RecoveryRuns` (triggers, history, one recovery
per cause), `LoopRuns` and `FailureRuns` (reviewer bounces and failure reasons), `HookRuns` (the same-hook circuit
breaker), `LandingRuns` (what reaches commit was accepted), `PathRuns` (which position follows which, and the only
ways to DONE in either mode), `RetryRuns` (the retry counters), `JudgedRuns` (what becomes of every reject and
failure), `OutcomeRuns` (recovery history, merge attempts and explanations), `FinishingRuns` (every run on track can
still reach DONE, so none of these statements is about an empty set of runs), `BoundedRuns` (every run ends) and
`EndlessRuns` (its conditions are needed). `RelaunchedRuns` carries the counters across interruptions and new limits.
`RecoveryVerdicts` says what a recovery report can ask for. `WitnessRuns` gives runs that show what is not promised;
`ReachableRuns` and `ReachableLoops` say for which limits the two circuit breakers can fire at all.

A statement about all runs ranges over every event sequence in which hook rejects and pre-exec resumes are genuine
(`Honest`), a set wider than the program's own runs. A statement that some run exists ranges over the program's own
runs, in which every event is an answer the node of its position can give (`Answered`).

**Engine routing over audited settings.** `Settings` is the store with its audit log, `AuditRuns` the log's meaning
over all call sequences, `Routing` the selection policy acting on the live config and the store together, and
`RoutingRuns` exact choice, idempotence, the effect of each command and the mirror between the two.

**Smaller cores.** `SubagentIds`, `Traces`, `ConfigLayers`, `StopProtocol`, `Migrations`, `PoolDrain`, `StreamLogs` and
`Artifacts`, one per component; `Text` holds the string facts they share.

Clocks, probes, hooks, agents, signals, timestamps and the outcome of SQL scripts are parameters or nondeterministic
answers, so every theorem holds for all of their behaviours.

## What the code does not promise

Where a natural property fails, the code is modelled as it is, a lemma gives an input, and another states exactly when
the property holds.

- A recovery verdict may name `recovering` as its target stage, and a launch may resume a task that was parked in
  recovery. In exactly these two cases the task recovers with no active trigger
  (`TriggerActiveExactlyWhileRecovering`, `SelfResumeHasNoTrigger`, `LaunchIntoRecoveryHasNoTrigger`), and naming itself
  again keeps a task in recovery for any number of transitions (`OneRecoveryCanLastForever`,
  `LaunchIntoRecoveryNeverRests`).
- A launch whose entry stage is ready, worktree_sync or recovering_pre_exec, as the stage stored at parking may be, has
  runs that never rest and never break down (`BackwardEntryNeverRests`).
- The report command accepts commit_to_git, backlog and flagged as recovery targets, and translating them raises: an
  accepted target resumes exactly when it spells a pipeline state (`AcceptedTargetResumesExactly`,
  `CommitReportRaises`). So recovery cannot resume at commit.
- Limits are not stored. A task continued with lower ones may hold a streak at or above the limit
  (`NewLimitsCanBeOverrun`); the counts themselves stay exact (`CountersSurviveNewLimits`).
- With a limit of two or more the same-hook breaker can trip only at after_implementing hooks
  (`BreakerOnlyGuardsAfterImplementing`, `BreakerTripsAfterImplementing`). Whatever its limit, it never trips when the
  stage retries run out first (`HookBreakerCanTripExactly`); the same holds for the reviewer loop, and QA needs one
  retry more (`RejectionLoopCanFailExactly`). No rule ever enters recovery for a hook loop
  (`HookLoopRecoveryNeverRuns`).
- The comment on `clear_hook_reject_tracking` promises that the recovery-invoked flag is reset too; the runner keeps
  it. Read as documented, recovery entry would conflict with itself exactly when a looping reject lacks its hook
  identity (`DocumentedClearConflictsExactlyWithoutIdentity`).
- `set_preference` stores the deduplicated list but keeps the list as given in memory: the two agree exactly when it
  has no duplicates (`MirrorHoldsExactlyWithoutDuplicates`).
- Ids past 9999 do not raise the lower bound: without a counter row SA-10000 is handed out again
  (`LongIdsWithoutCounterCollide`); reservations stay new exactly while every such id lies below the next number
  (`ReservationsStayNewExactly`).
- The required baseline tables include one that only migration 2 creates, so a database that stopped after migration 1
  is rebuilt instead of resumed (`RebuildsExactlyAfterFirst`). A data hook that fails is never retried
  (`UndoneHookStaysUndone`, `FailedHookIsNeverRetried`). A dry run, documented to write nothing, creates a missing
  database or bookkeeping table (`DryRunWritesNothingExactly`, `DryRunCreatesDatabase`).
- A plain stream artifact is not rewritten when the new content differs from the old only in how line ends are spelled,
  because the comparison reads with newline translation (`StreamContentExactly`, over whole
  runs `LastContentHeldExactly`).
- Config merging is associative unless a value removed by a scalar layer resurfaces (`MergeAssociatesExactly`).

## Model

| member | source | states |
|---|---|---|
| `Text.StripParts` | litehive/domain/agent.py:43 | stripping cuts a contiguous part out of the text, drops only white space before and after it, and leaves none at either end |
| `Text.SeparatorSplits` | litehive/domain/recovery.py:155-165 | head, separator and tail are determined by the joined text when the head has no separator |
| `Recovery.NamesAreDistinct` | litehive/domain/common.py:81-121 | different pipeline states have different names |
| `Recovery.NamesArePlain` | litehive/domain/common.py:81-121 | no pipeline state name contains a colon or a bar |
| `Recovery.BudgetKeysDoNotCollide` | litehive/domain/recovery.py:91-165 | two triggers share a budget key exactly when they share stage and fingerprint key |
| `Patches.WritesCommute` | litehive/lifecycle/runner.py:282-333 | two field writes to different fields commute |
| `Patches.AnyOrderAgrees` | litehive/lifecycle/runner.py:282-333 | independent writes give one state in every order |
| `Patches.WritesInOrder` | litehive/lifecycle/runner.py:282-333 | performing the writes of a delta in the runner's order is the field-wise application |
| `Patches.ConflictFreeWritesAreIndependent` | litehive/domain/lifecycle_deltas.py:53-127 | a conflict-free delta never writes one field twice |
| `Patches.EffectsAreConflictFree` | litehive/domain/lifecycle_deltas.py:384-947 | every effect on every state and event yields a conflict-free delta |
| `Patches.PatchOrderIsIrrelevant` | litehive/domain/lifecycle_deltas.py:53-127 | the writes of any effect's delta may be applied in any order |
| `Patches.DocumentedClearConflictsExactlyWithoutIdentity` | litehive/domain/lifecycle_deltas.py:494-523 | recovery entry both clears tracking and raises the flag exactly for a looping reject without identity |
| `Rules.Evaluate` | litehive/lifecycle/transitions.py:157-180 | the loop fires the first row matching state, event and guard, and fails exactly when none matches or its target does not resolve |
| `RouteProof.TableDecidesRoute` | litehive/lifecycle/rules.py:109-370 | for every position, event and guard outcome the ordered table decides the same target and effect as the flat form |
| `Runner.TableRoutes` | litehive/lifecycle/transitions.py:157-180 | firing the first matching table row is the transition the model analyses |
| `Runner.WriteCounters` | litehive/lifecycle/runner.py:292-302 | the step-by-step writes of retry counters, trigger and history equal their field-wise value |
| `Runner.WriteContext` | litehive/lifecycle/runner.py:303-315 | likewise for pre-exec attempts, merge context and rejection loop |
| `Runner.WriteHookTracking` | litehive/lifecycle/runner.py:316-323 | likewise for the hook streak, its identity and the recovery-invoked flag |
| `Runner.WriteFailure` | litehive/lifecycle/runner.py:324-331 | likewise for failure reason, message and explanation |
| `Runner.ApplyDelta` | litehive/lifecycle/runner.py:282-333 | the whole delta is applied as its field-wise value |
| `Runner.StateMachineRunner.ApplyTransition` | litehive/lifecycle/runner.py:154-193 | the state becomes the specified next state, or stays as it was where evaluation raises |
| `Runner.StateMachineRunner.RunTask` | litehive/lifecycle/runner.py:97-127 | the loop stops only at a terminal state, a raise, an operator stop after a node's answer or the end of the answers, in the state the answers lead to; no earlier stop request is passed over |
| `Runs.AnswersAreHonest` | litehive/lifecycle/nodes/hook.py:173-211 | every answer of a registered node meets the two environment conditions the theorems use |
| `Runs.AnswersAdvanceExceptEarlyBudget` | litehive/lifecycle/runner.py:129-152 | the table has a row for every node answer, except the time-budget event before the first stage phase |
| `Runs.FirstPhaseIsFinal` | litehive/lifecycle/rules.py:109-370 | no answer leads back before the first stage phase |
| `Runs.BudgetEventsFindARule` | litehive/lifecycle/runner.py:129-152 | in the program's own runs the time-budget event, which needs agent time, always finds a rule |
| `RecoveryVerdicts.AcceptedTargetResumesExactly` | litehive/roles/recovery.py:160-169 | a target the report accepts resumes exactly when it spells a pipeline state, and there; otherwise the translation raises |
| `RecoveryVerdicts.ReportableTargetsAreAccepted` | litehive/domain/reports.py:34-41 | every target the model lets recovery name can be reported and resumes there |
| `RecoveryVerdicts.VerdictsAreAnswers` | litehive/roles/recovery.py:148-174 | whatever a submitted verdict translates to is an answer of the recovery node |
| `RecoveryVerdicts.CommitReportRaises` | litehive/domain/reports.py:34-41 | the report that asks to resume at commit is accepted and raises |
| `Runs.TerminalStatesRest` | litehive/lifecycle/rules.py:109-370 | a finished task does not move again |
| `Runs.RunKeepsSettings` | litehive/lifecycle/runner.py:282-333 | limits, mode, entry stage and budget window never change in a run |
| `Runs.SettledFields` | litehive/lifecycle/runner.py:154-193 | every field after one transition in terms of the delta and the old state |
| `RecoveryRuns.BreakdownStep` | litehive/domain/lifecycle_deltas.py:494-523 | a breakdown whose budget key is unspent enters recovery with exactly its cause active; a spent one fails with it recorded |
| `RecoveryRuns.BreakdownsShareBudgets` | litehive/domain/recovery.py:91-165 | two breakdowns draw on one budget exactly when they happen at the same position and are of the same kind: blocked, timeout, or a crash of the same type |
| `RecoveryRuns.RecoveringStep` | litehive/domain/lifecycle_deltas.py:599-643 | leaving recovery appends exactly one outcome, carrying the active trigger, and clears it |
| `RecoveryRuns.CalmStep` | litehive/lifecycle/rules.py:304-370 | no other transition touches trigger or history |
| `RecoveryRuns.LaunchIsClean` | litehive/lifecycle/launch_state.py:50-116 | every launch built afresh meets the hypotheses of the run theorems |
| `RelaunchedRuns.CountersSurviveNewLimits` | litehive/lifecycle/launch_state.py:80-122 | over any number of launches that load the stored row, each with its own limits, streak, loop and recovery accounting are what the whole journal gives |
| `RelaunchedRuns.NewLimitsCanBeOverrun` | litehive/lifecycle/persistence.py:13-21 | a continued task whose streak is not below its new limit |
| `RecoveryRuns.RecoveryAccounting` | litehive/domain/lifecycle_deltas.py:494-947 | over every run, concluded causes followed by the active one are the causes entered in the journal plus the one denied; no budget key is entered twice |
| `RecoveryRuns.AdmittedExactlyOnFirstOccurrence` | litehive/lifecycle/persistence.py:496-535 | a breakdown is admitted exactly when no earlier admitted one has its key; otherwise the task fails |
| `RecoveryRuns.TriggerActiveExactlyWhileRecovering` | litehive/domain/lifecycle_deltas.py:494-643 | from every launch a trigger is active exactly right after a breakdown entered recovery; a recovering task lacks one exactly when recovery itself or the launch sent it there |
| `WitnessRuns.SelfResumeHasNoTrigger` | litehive/roles/recovery.py:160-169 | a run that recovers without a trigger because recovery named itself |
| `WitnessRuns.LaunchIntoRecoveryHasNoTrigger` | litehive/lifecycle/launch_state.py:124-145 | a run that recovers without a trigger because the launch resumes a task parked in recovery |
| `RecoveryRuns.HookLoopRecoveryNeverRuns` | litehive/lifecycle/rules.py:109-370 | in no run is a hook-loop trigger active |
| `BoundedRuns.PotentialDrops` | litehive/lifecycle/rules.py:109-370 | every transition other than a resume lowers a bound on the transitions left |
| `BoundedRuns.LengthByResumes` | litehive/lifecycle/runner.py:97-127 | the length of a run is bounded by one lap plus one lap for each resume |
| `BoundedRuns.ResumesAreEntered` | litehive/lifecycle/rules.py:339-370 | every resume leaves a recovery that a breakdown, a self-resume or the launch entered |
| `BoundedRuns.RunsAreBounded` | litehive/lifecycle/runner.py:97-127 | every run ends within one lap for the start, one for each budget key and one for each recovery entered from itself or by the launch |
| `BoundedRuns.AnsweredRunsAreBounded` | litehive/lifecycle/runner.py:97-127 | the program's own runs end within two laps, one for each budget key and one for each self-resume, for every forward entry stage |
| `EndlessRuns.BackwardEntryNeverRests` | litehive/lifecycle/transitions.py:212-249 | a launch whose entry stage lies before the first phase has runs of any length without recovery |
| `EndlessRuns.LaunchIntoRecoveryNeverRests` | litehive/lifecycle/launch_state.py:124-145 | a launch that enters at recovery has runs of any length without a breakdown |
| `EndlessRuns.SelfResumeNeverRests` | litehive/roles/recovery.py:160-169 | resuming into recovery extends any recovering run by any number of transitions |
| `EndlessRuns.OneRecoveryCanLastForever` | litehive/roles/recovery.py:160-169 | from every launch, one entered recovery suffices for a run of any length |
| `LoopRuns.LoopStep` | litehive/domain/lifecycle_deltas.py:424-491 | the stored loop after every non-failing transition; a retry runs only below the limit |
| `LoopRuns.LoopIsCountedBounces` | litehive/domain/lifecycle_deltas.py:709-811 | in every live state of every run the stored loop is the journal's count of same-stage bounces since the last clearing move, and below the limit; a failed task keeps it exactly when the loop failed it, with the count that reached the limit |
| `FailureRuns.ReasonExactlyWhenFailed` | litehive/domain/lifecycle_deltas.py:839-947 | over every run a failure reason is recorded exactly in failed tasks not sent there by a success event |
| `FailureRuns.EveryFailureHasAReason` | litehive/domain/lifecycle_deltas.py:839-947 | in the program's own runs, unless the launch itself enters at FAILED, a reason is recorded exactly in failed tasks |
| `WitnessRuns.ResumesTo` | litehive/roles/recovery.py:160-169 | from every launch one crash and one report lead to any place a report can name |
| `LoopRuns.RejectionLoopFailsExactlyAtLimit` | litehive/domain/lifecycle_deltas.py:465-477 | a reviewing agent's reject fails the task for a loop exactly when the journal's count with it reaches the limit and it is not handed on to the reviewer |
| `ReachableLoops.HooksAreGreenAtTesting` | litehive/lifecycle/runner.py:196-209 | whenever QA runs the last hook was green, so a QA reject is handed on exactly when its retries are exhausted |
| `ReachableLoops.LoopsArePaid` | litehive/domain/lifecycle_deltas.py:647-679 | every counted bounce cost a retry of its stage; single mode never reviews again what it bounced |
| `ReachableLoops.RejectionLoopCanFailExactly` | litehive/lifecycle/rules.py:271-297 | some run of the program from a launch fails for a loop at QA exactly when max(1, limit) is at most the stage retries, at the reviewer exactly when limit - 1 is at most max(0, retries), in single mode only with a limit of one or less |
| `HookRuns.HookIdsNameTheirPoint` | litehive/lifecycle/nodes/hook.py:181-187 | equal hook fingerprints name the same hook point |
| `HookRuns.StreakIsCountedRejects` | litehive/domain/lifecycle_deltas.py:384-421 | in every state of every run, failed ones included, the stored streak is the journal's count for the stored hook, all other counts are zero, and it is positive exactly when a hook is stored; while the task lives it is below the limit |
| `HookRuns.BreakerTripsExactlyAtLimit` | litehive/domain/lifecycle_deltas.py:368-381 | a hook reject fails the task for a hook loop exactly when the count with it reaches the limit |
| `HookRuns.BreakerOnlyGuardsAfterImplementing` | litehive/lifecycle/runner.py:240-260 | with a limit of two or more only after_implementing hooks can trip the breaker |
| `ReachableRuns.BreakerTripsAfterImplementing` | litehive/lifecycle/transitions.py:252-312 | a run of the program in which it does trip there |
| `ReachableRuns.StreaksArePaid` | litehive/lifecycle/transitions.py:252-312 | a streak at the after_implementing hooks cost as many implementing retries |
| `ReachableRuns.HookBreakerCanTripExactly` | litehive/lifecycle/transitions.py:252-312 | some run of the program from a launch fails for a hook loop exactly when limit - 1 is at most max(0, stage retries) |
| `HookRuns.HookLoopRecoverySticksExactlyInPlace` | litehive/domain/lifecycle_deltas.py:581-643 | a hook-loop recovery keeps streak and identity exactly when it resumes into its own bucket; the next reject then continues the count instead of restarting at one |
| `LandingRuns.LandedWorkWasAccepted` | litehive/lifecycle/rules.py:109-275 | in full mode, work at or past commit was accepted after it was last handed in, unless recovery or the launch put it there |
| `PathRuns.EntryGoesThroughHooks` | litehive/lifecycle/transitions.py:38-249 | a work stage is entered through the phase named before_ and its name, any other position directly |
| `PathRuns.EpochIsTheName` | litehive/domain/common.py:81-121 | the retry epoch of a work phase is the stage its name is made of |
| `PathRuns.ReportIsJournal` | litehive/lifecycle/runner.py:195-237 | over every run the reported file and test counts are those of the last pass that carried one, and the hook bit is the last hook's result |
| `PathRuns.SuccessMovesOn` | litehive/lifecycle/rules.py:109-275 | every pass or green hook leads to the next position of the pipeline; in single mode green after-implementing hooks lead to DONE without changes and to COMMIT with some |
| `PathRuns.LaunchEntry` | litehive/lifecycle/transitions.py:212-249 | a launch enters where it says; without an entry stage full mode grooms first and single mode implements |
| `PathRuns.SideSteps` | litehive/lifecycle/rules.py:109-250 | a clean checkout is synchronised, a dirty one repaired; a conflict goes to the merge agent, whose pass goes on to the after-commit hooks |
| `PathRuns.ResumeGoesThroughHooks` | litehive/lifecycle/transitions.py:186-209 | a recovery resumes at the place its report names, through the hooks of a work stage |
| `PathRuns.LandsOnlyByCommit` | litehive/lifecycle/rules.py:109-275 | in either mode a run ends DONE only by green after-commit hooks following a pass of commit or merge agent, by green single-mode after-implementing hooks when the journal's reports leave no changed file and no added test, or by a jump of recovery or launch |
| `PathRuns.SingleModeCommitsChanges` | litehive/lifecycle/rules.py:190-201 | over every single-mode run green after-implementing hooks lead to COMMIT exactly when the journal reports a changed file or an added test, and to DONE otherwise |
| `PathRuns.EventsAreTakenExactly` | litehive/lifecycle/transitions.py:157-180 | for every event, the positions at which evaluation finds a rule; everywhere else it raises |
| `PathRuns.SuccessForgetsHooks` | litehive/lifecycle/runner.py:240-280 | a success that leaves a work stage or commits forgets streak, hook and flag; one within a stage keeps streak and hook |
| `RetryRuns.ResumeResetsOrigin` | litehive/domain/lifecycle_deltas.py:599-643 | a successful recovery clears the retry counter of the stage that broke down and changes no other |
| `RetryRuns.RetriesStep` | litehive/domain/lifecycle_deltas.py:647-679 | otherwise exactly a reject that is sent back to implementing moves a counter, that of its own epoch, by one |
| `RetryRuns.RetriesAreCounted` | litehive/domain/lifecycle_deltas.py:599-679 | over every run each retry counter is the number of rejects of its epoch sent back to implementing since the last resume that concluded a recovery entered from that epoch |
| `RetryRuns.ActiveOrigin` | litehive/domain/lifecycle_deltas.py:317-337 | over every run the active trigger is the cause of the journal's last move and names the position that broke down |
| `JudgedRuns.RejectsAreDecidedByTheJournal` | litehive/lifecycle/transitions.py:252-312 | over every run from a launch, journal and limits alone decide whether a reject is sent back, handed on to the reviewer, or fails the task, and for which of the three reasons |
| `JudgedRuns.FailuresAreExplainedByTheJournal` | litehive/domain/lifecycle_deltas.py:839-947 | over every run a failed task holds the reason and the message that its journal's last move gives |
| `OutcomeRuns.HistoryIsJournal` | litehive/domain/lifecycle_deltas.py:599-643 | over every run the whole recovery history, with trigger, verdict, disposition, reason and message of each entry, is what the journal gives |
| `OutcomeRuns.AttemptsAreCounted` | litehive/domain/lifecycle_deltas.py:814-836 | over every run the merge context is the last conflict with the number of conflicts found so far, and the pre-exec attempts are the repairs asked for |
| `OutcomeRuns.ExplanationIsJournal` | litehive/domain/lifecycle_deltas.py:865-947 | over every run the recovery failure explanation is that of the last recovery that ended badly or was denied, until one begins or helps |
| `OutcomeRuns.FlagIsNeverRaised` | litehive/domain/lifecycle_deltas.py:494-523 | no run ever raises the flag that a hook-loop recovery was invoked |
| `OutcomeRuns.VerdictsAreRecorded` | litehive/roles/recovery.py:148-174 | a submitted verdict is recorded once, under its own name and with its own disposition |
| `OutcomeRuns.VerdictsTakeEffect` | litehive/roles/recovery.py:148-174 | a submitted verdict has the effect it names: resumed at the place spelled, done, or failed with the reason given |
| `FinishingRuns.SmoothStep` | litehive/lifecycle/rules.py:109-275 | at every position on the pipeline a node can answer so that the task moves strictly forward |
| `FinishingRuns.EveryRunCanFinish` | litehive/lifecycle/rules.py:109-275 | every run past pre-exec recovery extends to DONE by passes, green hooks and, where it recovers, the verdict done, within the positions left; a run of the program extends to one |
| `FinishingRuns.EveryLaunchCanFinish` | litehive/lifecycle/runner.py:97-127 | every launch with a forward entry stage has a run of the program that ends in DONE |
| `Settings.Deduped` | litehive/config/model.py:553-573 | no duplicates, the same engines, and the list itself when it had none |
| `Settings.DedupedKeepsOrder` | litehive/config/model.py:553-573 | engines come in the order of their first occurrence |
| `Settings.NormalizeEngineSequence` | litehive/config/model.py:553-573 | the validating loop yields the first occurrences, and refuses exactly the lists with an unknown name |
| `Settings.Bootstrapped` | litehive/config/runtime_settings.py:124-156 | existing rows and the audit log stay, missing rows hold what the files say, and a complete store is unchanged |
| `Settings.SeededFromFiles` | litehive/config/runtime_settings.py:381-401 | an empty store is seeded with the files' default engine, their preference without repeats and their freezes |
| `Settings.SettingsRepository.Bootstrap` | litehive/config/runtime_settings.py:124-156 | the missing rows are seeded from the files, or nothing changes where the files are invalid and needed |
| `Settings.SettingsRepository.ApplyToConfigData` | litehive/config/runtime_settings.py:167-178 | the effective settings are exactly the stored ones |
| `Settings.SettingsRepository.Set` | litehive/config/runtime_settings.py:186-245 | row and audit row change together, and only for a different value |
| `Settings.SettingsRepository.SetEngineFreeze` | litehive/config/runtime_settings.py:472-506 | one engine's entry is set in the stored map with its old and new value in the audit context |
| `Settings.SettingsRepository.ClearEngineFreeze` | litehive/config/runtime_settings.py:509-590 | one engine's entry is removed; without one, nothing is written |
| `AuditRuns.Perform` | litehive/config/runtime_settings.py:124-245 | any call on the live repository is the specified step |
| `AuditRuns.CallKeepsTyped` | litehive/config/runtime_settings.py:422-590 | setters keep every row of its key's type |
| `AuditRuns.PerformAll` | litehive/config/runtime_settings.py:124-245 | any sequence of calls on the live repository is the specified run |
| `AuditRuns.CallIsExplained` | litehive/config/runtime_settings.py:186-245 | every call keeps the log truthful and replayable |
| `AuditRuns.AuditIsHistory` | litehive/config/runtime_settings.py:124-245 | from an empty database over any calls and file drift, rows are the log replayed over the first valid files, and every log row is a real change from the value before it |
| `AuditRuns.FilesAreReadOnce` | litehive/config/runtime_settings.py:124-178 | once rows exist, the same requests give the same store whatever the files say |
| `AuditRuns.RowsChain` | litehive/config/runtime_settings.py:214-244 | consecutive log rows of a key chain old value to new value |
| `AuditRuns.FirstRowStartsAtBase` | litehive/config/runtime_settings.py:214-244 | the first log row of a key starts at the bootstrap value |
| `AuditRuns.RewindUndoesReplay` | litehive/config/runtime_settings.py:214-244 | writing old values back, newest first, restores the bootstrap values |
| `Routing.WithoutIsElementwise` | litehive/config/engine_models.py:365-381 | each candidate is kept or dropped on its own, so order and repetitions stay |
| `Routing.ResolveModel` | litehive/config/engine_models.py:214-233 | an engine without model support gets none; otherwise the request's model beats the task's, which beats the one pinned for the engine in the config |
| `Routing.ActiveFreezes` | litehive/config/engine_freezes.py:29-46 | the dictionary filled in any order holds exactly the engines frozen now, with their end times |
| `Routing.FirstEligible` | litehive/config/engine_models.py:138-183 | the first position whose engine is not skipped |
| `Routing.EngineRoutingPolicy.PersistEngineFreeze` | litehive/config/engine_models.py:384-411 | config and store get the freeze; an equal one writes nothing |
| `Routing.EngineRoutingPolicy.ClearEngineFreeze` | litehive/config/engine_models.py:414-426 | config and store drop the entry |
| `Routing.EngineRoutingPolicy.Consider` | litehive/config/engine_models.py:139-173 | one candidate: the skip reason and what happens to its freeze entry |
| `Routing.EngineRoutingPolicy.Select` | litehive/config/engine_models.py:111-194 | attempts are the unfrozen candidates; skipped engines then the chosen one are a prefix of them with their reasons; the model name; the new config and store |
| `Routing.EngineRoutingPolicy.Freeze` | litehive/config/engine_models.py:255-272 | both places get the freeze, whatever the files say |
| `Routing.EngineRoutingPolicy.Unfreeze` | litehive/config/engine_models.py:274-291 | both places drop it when the store has it; the result says whether it did |
| `Routing.EngineRoutingPolicy.SetDefault` | litehive/config/engine_models.py:293-308 | both places get the default |
| `Routing.EngineRoutingPolicy.SetPreference` | litehive/config/engine_models.py:310-325 | the store gets the deduplicated list, the config the list as given, or nothing changes |
| `Routing.EngineRoutingPolicy.ClearExpiredFreezes` | litehive/config/engine_models.py:337-350 | the sweep over any order of the entries |
| `RoutingRuns.ExaminedEntries` | litehive/config/engine_models.py:152-173 | every freeze entry after a walk, whatever the order and repetitions of the candidates |
| `RoutingRuns.ChoiceIsExact` | litehive/config/engine_models.py:126-194 | the promised selection is the first engine that is unfrozen and can run; none exactly when every candidate is frozen or skipped |
| `RoutingRuns.SelectionFollowsThePlan` | litehive/config/engine_models.py:365-381 | explicit names are tried in their order; otherwise the override, else the task's switch for its stage, else the default is selected if it is not excluded, frozen, unavailable or out of quota, and if it is, the first engine of the preference that is not |
| `RoutingRuns.BlockedSelectionsSayWhy` | litehive/config/engine_models.py:129-194 | an empty selection says that no candidate was left, that all left were frozen, or the failed probe of the last one |
| `RoutingRuns.UnreachedEntriesStay` | litehive/config/engine_models.py:138-183 | freeze entries of engines not looked at are unchanged |
| `RoutingRuns.SecondAttempts` | litehive/config/engine_models.py:126-138 | a second selection tries the first one's attempts less engines it froze and skipped |
| `RoutingRuns.SelectionIsIdempotent` | litehive/config/engine_models.py:111-194 | the engine returned is not frozen afterwards; selecting again returns it and changes neither config nor audit log, duplicates included |
| `RoutingRuns.SweepRemovesExpired` | litehive/config/engine_models.py:337-350 | exactly the entries whose end time parses and is not in the future go; unparsable and future ones stay |
| `RoutingRuns.CommandsTakeEffect` | litehive/config/engine_models.py:255-308 | after each command the live config and the store hold the given engine or end time, and nothing else changed |
| `RoutingRuns.RowsNameTheirActor` | litehive/config/engine_models.py:255-426 | every operation only adds log rows, signed system and quota by selection and sweep, operator and cli by the commands |
| `RoutingRuns.FreezeRowTells` | litehive/config/runtime_settings.py:472-506 | the row of a freeze tells engine, old and new end time, and the reason if one was given |
| `RoutingRuns.UnfreezeRowTells` | litehive/config/runtime_settings.py:509-590 | so does the row of an unfreeze |
| `RoutingRuns.MirrorHoldsExactlyWithoutDuplicates` | litehive/config/engine_models.py:255-350 | over any operations default and freezes agree with the store, and the whole mirror holds exactly when the last accepted preference has no duplicates |
| `RoutingRuns.DuplicatesBreakTheMirror` | litehive/config/engine_models.py:310-325 | a list with a duplicate breaks the mirror |
| `RoutingRuns.RoutingIsAudited` | litehive/config/engine_models.py:111-350 | every sequence of policy operations keeps the log a truthful history of the stored rows |
| `SubagentIds.PrintIsInjective` | litehive/agents/subagent_ids.py:38 | different numbers never print alike, past four digits too |
| `SubagentIds.ParsePrint` | litehive/agents/subagent_ids.py:128-135 | printed ids parse back below 10000 and are not recognised from there on |
| `SubagentIds.PrintParse` | litehive/agents/subagent_ids.py:128-135 | a recognised id is the print of its number, up to a final newline |
| `SubagentIds.Above` | litehive/agents/subagent_ids.py:118-125 | the least number above every canonical id |
| `SubagentIds.NextNumberAfter` | litehive/agents/subagent_ids.py:80-125 | the running maximum computes that number |
| `SubagentIds.NextNumber` | litehive/agents/subagent_ids.py:52-62 | at least the counter and both lower bounds, and equal to one of them |
| `SubagentIds.SubagentIdRepository.ReserveNextId` | litehive/agents/subagent_ids.py:30-62 | the id printed and the counter saved |
| `SubagentIds.PerformAll` | litehive/agents/subagent_ids.py:30-95 | any sequence of reservations and session rows on the live repository is the specified run, with the ids it hands out |
| `SubagentIds.ReservedIdsNeverRepeat` | litehive/agents/subagent_ids.py:30-62 | over any run, two reservations of a task give increasing numbers and different ids |
| `SubagentIds.ReservedIdIsNew` | litehive/agents/subagent_ids.py:52-135 | a reserved id differs from every recognised id present |
| `SubagentIds.FirstIds` | litehive/agents/subagent_ids.py:30-78 | a task without any ids gets SA-0001 |
| `SubagentIds.IdsLookAlike` | litehive/agents/subagent_ids.py:38 | every id is SA- and at least four digits |
| `SubagentIds.ReservationsStayNewExactly` | litehive/agents/subagent_ids.py:30-135 | going on reserving never hands out an id now present exactly when every present id past 9999 lies below the next number |
| `SubagentIds.CollisionsNeedForeignLongIds` | litehive/agents/subagent_ids.py:52-135 | over any run, a reserved id equals a present one only past 9999, only if it was not reserved in this run, and only where such an id is not below the next number |
| `SubagentIds.LongIdsWithoutCounterCollide` | litehive/agents/subagent_ids.py:118-135 | with SA-9999 and SA-10000 present and no counter, SA-10000 is handed out |
| `Traces.ChunksAreClean` | litehive/domain/agent.py:39-44 | chunks are trimmed, non-empty and free of separators |
| `Traces.RoundTripExactlyWhenClean` | litehive/domain/agent.py:39-49 | splitting the join gives the chunks back exactly when all are clean |
| `Traces.TraceRoundTrip` | litehive/domain/agent.py:39-49 | for every text the chunks survive join and split, and normalising is idempotent |
| `Traces.BlankLineSeparates` | litehive/domain/agent.py:39-49 | two clean chunks are joined by one blank line and split there |
| `Traces.NothingVisibleIsLost` | litehive/domain/agent.py:39-49 | split and join keep every non-space character in order |
| `ConfigLayers.MergeConfigLayers` | litehive/config/loading.py:41-58 | the loop over overlay items in any order computes the recursive merge |
| `ConfigLayers.SamePathsSameNode` | litehive/config/loading.py:41-58 | a configuration is determined by what is at its paths |
| `ConfigLayers.MergeByPath` | litehive/config/loading.py:41-58 | at each path: the overlay's value, nothing below an overlay scalar, otherwise the base's |
| `ConfigLayers.EmptyIsIdentity` | litehive/config/loading.py:41-58 | the empty layer changes nothing on either side |
| `ConfigLayers.MergingTwiceChangesNothing` | litehive/config/loading.py:41-58 | applying an overlay twice is applying it once |
| `ConfigLayers.MergeAssociatesExactly` | litehive/config/loading.py:41-58 | grouping is irrelevant exactly when no value cut by the middle layer resurfaces under the top one |
| `ConfigLayers.MergeAssociatesForSameKinds` | litehive/config/loading.py:41-58 | in particular when the upper layers agree on what is a mapping |
| `ConfigLayers.MixedKindsDoNotAssociate` | litehive/config/loading.py:41-58 | three layers for which grouping matters |
| `ConfigLayers.EffectiveData` | litehive/config/loading.py:78-89 | at each path workspace beats user beats defaults, and a scalar hides what is below it |
| `StopProtocol.Polls` | litehive/daemon/termination.py:31-38 | the ceiling of timeout over interval |
| `StopProtocol.PollsCover` | litehive/daemon/termination.py:31-38 | fewer polls than the ceiling do not cover the timeout |
| `StopProtocol.Host.WaitForPidExit` | litehive/daemon/termination.py:22-38 | the exact probe and sleep pattern, ending with the probe that decides; at most ceil(timeout / interval) sleeps; a false return means the whole timeout has passed |
| `StopProtocol.Host.ForceKillRecordedDaemon` | litehive/daemon/termination.py:41-67 | the exact trace of each outcome and the sleep bound; a daemon reported still alive was given the whole kill timeout after the delivered SIGKILL |
| `StopProtocol.Host.TerminateRecordedDaemon` | litehive/daemon/termination.py:70-96 | the exact trace of each outcome, escalation included, and the total sleep bound |
| `StopProtocol.StopSafety` | litehive/daemon/termination.py:41-96 | a normal return means seen gone, then unregistered once; an error means never unregistered; SIGKILL only after a live probe and no sooner than the full grace period after a delivered SIGTERM; still alive is reported no sooner than the kill timeout after a delivered SIGKILL |
| `Migrations.Database.ApplyPendingMigrations` | litehive/db/schema.py:368-429 | the new database and the outcome for every fault, dry run and refused rebuild |
| `Migrations.PendingIsTheRest` | litehive/db/schema.py:401-404 | after a prefix history, pending is exactly the remaining suffix |
| `Migrations.AppliedKeepsPrefix` | litehive/db/schema.py:407-427 | applying the suffix leaves the prefix up to the first fault |
| `Migrations.ResumesWithTheRest` | litehive/db/schema.py:401-429 | a call without rebuild extends the old log by exactly the migrations up to the first fault; the log is the whole list exactly when nothing failed or only the last hook did |
| `Migrations.SuccessMeansComplete` | litehive/db/schema.py:380-429 | on any database a reported success means the whole list is logged; a failure with the whole list logged was the last hook |
| `Migrations.RebuiltExactlyWhenBroken` | litehive/db/schema.py:271-335 | an existing database is rebuilt exactly when its file cannot be read, its log is no prefix of the bundled list, or the log is not empty and a table of the baseline or of a logged version is missing |
| `Migrations.RebuildKeepsOrStartsOver` | litehive/db/schema.py:380-429 | a refused rebuild loses nothing; an allowed one logs the list from its start up to the first fault |
| `Migrations.DryRunWritesNothingExactly` | litehive/db/schema.py:216-268 | a dry run changes nothing exactly when the database exists and, if readable, has its bookkeeping table |
| `Migrations.DryRunCreatesDatabase` | litehive/db/schema.py:193-250 | on a missing file a dry run creates the database |
| `Migrations.DryRunAnnouncesTheCall` | litehive/db/schema.py:380-429 | a dry run announces exactly the migrations that a call which nothing stops goes on to log |
| `Migrations.LogStaysPrefix` | litehive/db/schema.py:294-335 | whatever fails, the log stays a prefix of the bundled list |
| `Migrations.LoggedOnce` | litehive/db/schema.py:407-427 | no version is logged twice |
| `Migrations.LoggedHooksAreFinal` | litehive/db/schema.py:421-427 | a call without rebuild never runs the hook of a logged migration |
| `Migrations.HooksFollowScripts` | litehive/db/schema.py:407-427 | of the migrations a call logs, exactly the one whose hook failed is left without its hook |
| `Migrations.UndoneHookStaysUndone` | litehive/db/schema.py:401-429 | past the first migration, a logged migration whose hook is undone stays so over every sequence of calls |
| `Migrations.FailedHookIsNeverRetried` | litehive/db/schema.py:421-427 | the run: migration 7's hook fails on a new database, and no later calls complete it |
| `Migrations.RebuildsExactlyAfterFirst` | litehive/db/schema.py:32-58 | a database the bundled scripts built needs a rebuild exactly after migration 1 alone |
| `Migrations.BundledRuns` | litehive/db/schema.py:313-429 | from a new database every run leaves what some prefix of the scripts creates, rebuilding exactly at length one |
| `PoolDrain.PoolService.Run` | litehive/cli/pool.py:287-338 | the run ends at the first round that stops it; exit code and written text are those the callbacks' last answer calls for; with a limit it always ends |
| `PoolDrain.RunIsDetermined` | litehive/cli/pool.py:287-338 | the callbacks' answers fix where and why a run ends |
| `PoolDrain.DrainGuarantees` | litehive/cli/pool.py:308-338 | no callback in a dirty round, at most max(1, limit) callbacks, only the last may not be a task, and earlier tasks ended DONE under stop-on-failure |
| `PoolDrain.ReasonMatchesLastRound` | litehive/cli/pool.py:309-338 | failure_detected is written exactly when stop-on-failure is set and the last task did not end DONE, max_tasks_reached exactly when max(1, limit) tasks ran and no failure stopped the run, dirty_git_state exactly when the checker answers so, nothing exactly after an error, a consecutive-failure answer or no task |
| `StreamLogs.SubagentStreamLog.AppendDelta` | litehive/agents/session_streams.py:29-38 | offsets and file after one callback |
| `StreamLogs.KeysDoNotCollide` | litehive/agents/session_streams.py:33 | offset keys are equal exactly for the same id and stream |
| `StreamLogs.LogIsSpliced` | litehive/agents/session_streams.py:29-38 | a log depends only on its own stream's snapshots, and the offset is its length |
| `StreamLogs.SplicedLength` | litehive/agents/session_streams.py:34-38 | its length is the greatest snapshot length |
| `StreamLogs.SplicedFromFirst` | litehive/agents/session_streams.py:34-38 | every character comes from the first snapshot that has it |
| `StreamLogs.GrowingStreamIsLoggedExactly` | litehive/agents/session_streams.py:29-38 | for prefix-comparable snapshots the log is the longest one |
| `Artifacts.ArtifactService.PutIfChanged` | litehive/agents/artifacts.py:112-124 | nothing is written when the file reads as the content |
| `Artifacts.ArtifactService.WriteStreamFile` | litehive/agents/artifacts.py:47-75 | final files and every intermediate step; the empty-content branch agrees with the general one |
| `Artifacts.ArtifactService.WriteTextFile` | litehive/agents/artifacts.py:77-97 | final files, every intermediate step and the path written |
| `Artifacts.ArtifactService.RemoveTextFile` | litehive/agents/artifacts.py:99-109 | both variants are gone |
| `Artifacts.OthersStay` | litehive/agents/artifacts.py:47-109 | operations on one artifact never touch another's files |
| `Artifacts.RunSettles` | litehive/agents/artifacts.py:47-109 | after any operations the two files are what the last operation on the artifact asks for |
| `Artifacts.ArtifactsGoByName` | litehive/agents/artifacts.py:47-97 | after any operations the last write on an artifact left the gzip file, and not the plain one, exactly when compression was asked for and the content has at least 4096 bytes of UTF-8 |
| `Artifacts.Utf8Bytes` | litehive/agents/artifacts.py:47-97 | a character counts one to four bytes by its code point |
| `Artifacts.LineEndsReadAsOne` | litehive/agents/artifacts.py:112-124 | CR LF and a lone CR read as one newline |
| `Artifacts.NeverBothVariants` | litehive/agents/artifacts.py:47-109 | at every single file step at most one variant exists |
| `Artifacts.StreamContentExactly` | litehive/agents/artifacts.py:112-124 | a stream write leaves its content exactly unless the old file differs only in spelling of line ends |
| `Artifacts.RespelledLineEndIsLost` | litehive/agents/artifacts.py:112-124 | CR LF stays when LF is written over it |
| `Artifacts.LastContentHeldExactly` | litehive/agents/artifacts.py:47-124 | over any operations one variant exists, and it holds the last content exactly when that write did not merely respell line ends of the file in place |
| `Artifacts.LastContentIsHeld` | litehive/agents/artifacts.py:47-124 | so after every text or gzip write, every stream write with a carriage return, and every write preceded by plain writes without one |

## Left out

- Runs.Answers: engine turns and prompts are not modelled; a node's answer is any event of the kinds it can return, and the time-budget event is admitted wherever the runner does not rule it out by position.
- Runner.StateMachineRunner.RunTask: session resets, persistence, journal text and agent-time accounting are outside; the time-budget event may come whenever the runner may raise it.
- Runner.ApplyDelta: `set_last_rejection` and `record_failed_run` only feed prompts and reports and no guard reads them, so these fields are not modelled.
- Deltas.FailDelta: the wording of explanations is kept as the data it is rendered from, not as sentences; timestamps are dropped.
- Runner.StateMachineRunner.ApplyTransition: of the report metadata only the numbers and flags that guards read are kept; commit results and file lists are not.
- Recovery payload encoding and its lenient decoding, launch-state selection and the task record are not modelled.
- Settings.SettingsRepository.SetEngineFreeze: JSON encoding, malformed rows and update times are not modelled; stored values have the type their setter writes.
- Routing.EngineRoutingPolicy.Select: an engine name unknown to the adapter registry, for which the model lookup raises, is not modelled; one call sees one clock reading and fixed probe answers.
- Routing.EngineRoutingPolicy.ClearExpiredFreezes: the dictionary's iteration order is a parameter.
- SubagentIds.ParsePrint: decimal digits outside ASCII, which the pattern also accepts, are not modelled; each repository call is one atomic step.
- StreamLogs.LogIsSpliced: assumes one directory per subagent and starts with an empty log; a process that restarts loses its offsets, which is not modelled.
- Artifacts.NeverBothVariants: assumes no artifact's plain name is another's gzip name; temporary files, I/O errors and gzip encoding are not modelled.
- Migrations.Database.ApplyPendingMigrations: scripts are reduced to the tables they create and to whether they fail; backups and the safety check before a rebuild are one yes-or-no answer.
- StopProtocol.Host.TerminateRecordedDaemon: what clearing the registration does inside the registry, and stopping child process groups, are not modelled.
- PoolDrain.PoolService.Run: the messages printed and the queue lookup for an idle pool are not modelled; without a limit the loop returns only if some round stops it, which is the method's precondition.
- Git operations, the daemon registry's locks, sandboxing, CLI commands, status rendering and reports are not modelled.
