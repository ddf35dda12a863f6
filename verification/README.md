# Deploy engine verification

A Dafny model of skipper-cd's deploy engine and of the small stateful policies that run beside it. The
engine is a state machine over many runs: a run takes the repository's HEAD and the state file, orders the
stacks, gates each on its dependencies, and skips, queues, blocks, holds or deploys it; afterwards it saves
hashes, holds and a base commit per stack, from which a rollback or a self-heal later rebuilds the last
deployed version. What Docker, git, nix and the clock do is an input, chosen arbitrarily.

The modules follow the program:

- `StackGraph`, `Ordering`: dependency cycles and the deploy order.
- `DeployState`, `DeployStack`, `DeployRun`: the persisted state, one stack's turn, the whole run.
- `RunFacts`, `CommitBases`, `TurnFacts`, `Heal`, `HoldLimits`: what holds over a run and over every history of
  runs.
- `NixosRebuild`, `NixosRuns`: the pre-save protocol of the system rebuild, and its histories.
- `Host`, `Rollout`, `Apply`, `Attempt`: the trace of commands that applying one stack issues, and a stack's
  turn joined with it.
- `HealthPolicy`, `HealthRestart`, `HealthWatch`: the health watchdog, per service, after a restart that lost a
  save, and over snapshots.
- `SelfHealPolicy`, `SelfHeal`: the self-heal policy per stack, and the engine whose lock is not held while
  a redeploy runs.
- `Collapse`, `History`, `AuditLog`: collapsing repeated outcomes, the event history, the audit log.
- `LogBuffer`, `LogStream`: the log ring and a client's stream.
- `TagShape`: version-shaped tags and the newer-tag hint.
- `Options`, `Sequences`: helpers.

Classes stand for the objects the program updates in place. Each of their methods is proved against a
function of the old state, or against a ghost history, and the main results are lemmas about that function
over all inputs, runs and histories. `dafny verify dfyconfig.toml` checks everything.

## What the model shows about the code

- `trackedStackNames` says that pseudo stacks are left out, but it filters only the recorded names: a
  NixOS rebuild pending in the queue is announced as a removed stack and its record dropped
  (`NixosRuns.PendingRebuildIsForgottenIff`, `NixosRuns.PausedRunForgetsTheSystem`).
- A removed stack is announced and forgotten when it is recorded or pending. One that never deployed is neither,
  so the hold of its failed first deploy stays in the state file when the stack leaves the set, unless a paused or
  deferred change of it is pending (`CommitBases.StackIsForgottenIff`, `CommitBases.HoldOutlivesItsStack`).
- The in-flight marker is saved before `systemd-run` and kept on every shutdown, before the error is looked at.
  A shutdown that is requested before the launch, a kill in between, or a unit that fails after either leaves a
  marker of a rebuild that was never applied: the next start reports it as applied and the change is never made
  up (`NixosRebuild.ShutdownLosesTheChange`, `NixosRuns.MarkIsTrueIff`, `NixosRuns.LostRebuildIsNeverMadeUp`).
- When the save that undoes a failed rebuild does not arrive, the next start reports the failed rebuild as
  done (`NixosRebuild.ObservedFailureIsRetriedIff`).
- A run goes on from an unreadable state file as from an empty one. A phase that fails then loses every stack's
  record, exactly when it saved anything: the pre-save of a rebuild, or the undoing of a failed one
  (`NixosRuns.UnreadableStateIsOverwrittenIff`, `NixosRuns.FailedPhaseForgetsTheStacks`).
- The new-version mark is put on errors of `up` that come before anything is issued. A marked error stands for
  the new version's up exactly when the env files are readable at the moment of the first up and, in a rollout
  of nothing but rolled services, the first listing succeeds (`Apply.ApplyStack`, `Attempt.DeployOnHost`);
  otherwise a change is held as broken after its start although nothing was applied
  (`Apply.MarkedByUnreadableEnv`, `Apply.MarkedByFailedListing`).
- A cutover forgets a canary that it saw. Each poll replaces the list of new containers, and `ps` shows running
  ones only: a canary that exits between two polls is left behind (`Rollout.CanaryIsLeftBehind`). None is
  exactly when the newest successful listing shows every new container that an earlier one did
  (`Rollout.NoCanaryIsLeftIff`).
- The gate looks ahead with its own reading. In a run a stack deploys behind a dependency that is not ready
  exactly when that reading misses a change that the deploy itself sees and nothing else keeps the stack
  (`RunFacts.LeaksBehindNotReadyIff`, `RunFacts.DeploysBehindBrokenDependency`). Dependencies first is
  therefore proved for a look-ahead that saw what the deploy saw.
- When `finishRun` cannot read HEAD the stacks that deployed keep their old base. The bases then hold iff
  their compose files did not change since (`Heal.WithoutHeadReadIff`); otherwise a heal can bring back the
  version before the last one (`Heal.LostHeadReadMisleadsHeal`).
- A dependency outside the list of stacks makes the order fall back to config order for everything it
  keeps from progress (`Ordering.RemainderIsUnresolvable`, `Ordering.OrderRespectsIff`). Two stacks of the same
  name would keep `orderStacks` from ending, since what it collects takes no name twice
  (`Ordering.RepeatedNamesAreNeverFilled`); unique names are required there, as config loading provides them.
- `AbsorbInto` adds one whatever the newcomer stands for, so a collapse conserves occurrences iff what it
  absorbs is single (`Collapse.CollapseConservesIff`).
- A log ring smaller than a subscriber's channel can lose entries between replay and drain without any
  overflow (`LogStream.NeverGapsIff`); the default capacity of 2000 is far above.
- A failed save of the watchdog's state is not tried again before the next accepted change: the dirty flag
  is cleared either way (`HealthWatch.Watcher.Observe`). After a restart the alerts it missed no longer count
  for the cooldown (`HealthRestart.LostSaveSpacingIff`), and a failure can go untold for good
  (`HealthRestart.LostRecoveryHidesAFailure`), unless the state it goes back to meets the condition of
  `HealthRestart.StaysToldIff`.
- A redeploy that is running when its stack is reset is not counted in the new budget, and the new budget's
  first redeploy need not wait for its cooldown: the budget is stated per epoch between resets
  (`SelfHeal.BudgetHolds`).

## Model

| member | source | states |
|---|---|---|
| `StackGraph.CyclicStacks` | internal/config/stack.go:189-227 | names, in config order, exactly the members of the greatest set in which every stack waits for a member |
| `StackGraph.StuckIffReachesCycle` | internal/config/stack.go:184-227 | those are exactly the stacks from which a walk along depends_on edges inside the set comes back to a stack it visited |
| `StackGraph.NothingStuckIffRanked` | internal/config/stack.go:184-227 | nothing is named iff a rank that falls along every edge exists |
| `StackGraph.DropDependencyCycles` | internal/config/repo.go:248-269 | splits the stacks into the named ones and the rest, both in config order, and among the rest no stack is stuck |
| `StackGraph.KeptHasNoCycle` | internal/config/repo.go:244-269 | one drop is enough for every graph |
| `StackGraph.ValidateStackDependencies` | internal/config/stack.go:162-182 | accepts iff every edge names another listed stack and no stack is stuck |
| `Ordering.OrderStacks` | internal/deploy/ordering.go:46-79 | terminates with all stacks, each once: those that progress resolves by (round, config index), then the others in config order; a round is the first pass in which every dependency was emitted before the turn |
| `Ordering.DeployOrderIsUnique` | internal/deploy/ordering.go:46-70 | that specification admits one order only |
| `Ordering.RoundIsMaximum` | internal/deploy/ordering.go:46-70 | a round is the maximum over the dependencies of their rounds, plus one for a dependency listed later, and 1 without dependencies |
| `Ordering.DependenciesComeFirst` | internal/deploy/ordering.go:30-70 | a stack emitted by progress comes after each of its dependencies |
| `Ordering.OrderIsPermutation` | internal/deploy/ordering.go:46-70 | an order of that specification holds every stack and is as long as the list |
| `Ordering.ValidGraphIsResolved` | internal/deploy/ordering.go:30-70 | for a graph that validation accepts progress resolves every stack: there is no remainder |
| `Ordering.RemainderIsUnresolvable` | internal/deploy/ordering.go:54-67 | the stacks that progress leaves over are exactly those of sets in which every member depends on a member or on a name outside the list |
| `Ordering.OrderRespectsIff` | internal/deploy/ordering.go:54-67 | the whole order puts dependencies first iff the config lists whatever depends on such a stack after it |
| `Ordering.OutsideDependencyBreaksOrder` | internal/deploy/ordering.go:54-67 | a shared dependency on a stack outside the list puts a dependent before its listed dependency |
| `Ordering.RepeatedNamesAreNeverFilled` | internal/deploy/ordering.go:46-70 | an order that takes no name twice stays shorter than a list that repeats one, so that a loop that waits for equal lengths does not end |
| `DeployState.ChangedFiles` | internal/deploy/hash.go:79-87 | lists exactly the current inputs whose recorded hash differs |
| `DeployState.DifferingInputs` | internal/deploy/heal.go:125-134 | lists exactly the inputs that differ on either side |
| `DeployState.NothingDiffersIffEqual` | internal/deploy/heal.go:122-134 | nothing differs on either side iff the inputs are the recorded ones |
| `DeployState.UnchangedIffRecorded` | internal/deploy/hash.go:79-87 | unchanged means only that the recorded hashes contain the current ones |
| `DeployState.PersistedState.AdvanceCommitBases` | internal/deploy/state.go:118-136 | pins every recorded stack without a base to the global base, then moves the settled stacks, and only those, to HEAD |
| `DeployState.PersistedState.ForgetStack` | internal/deploy/state.go:158-164 | drops hashes, images, base and hold of one stack |
| `DeployState.PersistedState.RecordPreStartFailure` | internal/deploy/held.go:119-130 | counts failures of the same inputs, with a backoff until the third, which holds the change |
| `DeployState.StateFile.Save` | internal/deploy/state.go:288-297 | the file takes the state without its settled list, or keeps its content when the write fails |
| `DeployStack.Deployer.IsHeld` | internal/deploy/held.go:223-234 | consumes the retry request; a hold for other inputs is dropped; held iff the hold is for these inputs, unrequested and not due |
| `DeployStack.Deployer.DeployStackIfChanged` | internal/deploy/stackrun.go:74-198 | refines the decision function over recorded hashes, holds, queue and retry requests, for every outcome of hashing and applying |
| `DeployStack.Deployer.DeployStackGated` | internal/deploy/ordering.go:127-179 | refines the gate over that decision, and the outcome its dependents see |
| `DeployStack.Deployer.RecordStackSuccess` | internal/deploy/stackrun.go:291-309 | a success records hashes and images, settles the stack and releases its hold |
| `DeployStack.Deployer.RecordFailure` | internal/deploy/stackrun.go:165-179 | a marked failure holds the change, a failure before the start counts, a cancelled one leaves no trace |
| `DeployStack.TurnKeepsTheRest` | internal/deploy/stackrun.go:74-198 | a turn touches only its own stack, settles at most it, and keeps its recorded hashes and images unless it deployed |
| `DeployStack.GateLeaksIff` | internal/deploy/ordering.go:127-163 | one turn behind a constraining gate: a stack deploys iff the look-ahead misses a change that the deploy itself then sees, unpaused and not held |
| `DeployStack.GateLeaks` | internal/deploy/ordering.go:194-219 | a look-ahead that cannot hash the stack lets it deploy behind a blocked dependency |
| `DeployRun.DecideGate` | internal/deploy/ordering.go:104-120 | a blocked dependency wins over a queued one, unrecorded names are ready, and the cause is a dependency with that outcome |
| `DeployRun.DeployStacksGated` | internal/deploy/deploy.go:595-628 | the loop refines the fold of gated turns over the deploy order |
| `DeployRun.AnnounceRemovedStacks` | internal/deploy/removed.go:28-111 | forgets and unqueues exactly the names that are recorded, other than the three reserved ones, or pending, and not known any more; none at all over a discovery that found nothing |
| `DeployRun.FinishRun` | internal/deploy/deploy.go:631-676 | moves the settled bases to HEAD when it can be read, the global base only when nothing is pending, and saves |
| `DeployRun.Engine.DeployAllStacks` | internal/deploy/deploy.go:507-562 | one whole run over the deployer and the state file equals the run function applied to the order that orderStacks computes |
| `DeployRun.Engine.RequestRetry` | internal/deploy/held.go:174-185 | records a retry iff the stack is held |
| `RunFacts.DeploysOnlyBehindReady` | internal/deploy/ordering.go:104-138 | over a valid graph a stack starts deploying only if each dependency had an earlier turn in this run that deployed it or found it unchanged, given a look-ahead that saw what the deploy saw |
| `RunFacts.ReadyInLogMeans` | internal/deploy/ordering.go:165-179 | in every run a stack ends ready iff it was deployed or found at its recorded inputs |
| `RunFacts.GateIsReadyIff` | internal/deploy/ordering.go:104-138 | in every run a stack's gate is open iff none of its dependencies, errored configurations included, was left not ready before its turn |
| `RunFacts.GateIsIff` | internal/deploy/ordering.go:104-120 | in every stack phase the gate is blocked iff a dependency was left blocked before the turn, else queued iff one was left queued |
| `RunFacts.LeaksBehindNotReadyIff` | internal/deploy/ordering.go:127-163 | in every run a stack with a dependency that was left not ready before its turn deploys all the same iff the look-ahead misses a change that the deploy then sees, unpaused and not held by the state the run began with |
| `RunFacts.DeploysBehindBrokenDependency` | internal/deploy/ordering.go:127-219 | a concrete run: a look-ahead that cannot hash the stack lets it deploy behind a dependency with a broken configuration |
| `RunFacts.PendingBehindGateIsDeferred` | internal/deploy/ordering.go:145-163 | in every run a stack with a visible change behind a dependency that was left not ready is deferred: its record, images and hold are as before the run, it is queued, and it closes the gate of its own dependents |
| `RunFacts.UnchangedNeverBlocks` | internal/deploy/ordering.go:165-179 | in every run a stack at its recorded inputs is reported unchanged whatever its gate says, and closes the gate of no dependent |
| `RunFacts.RunIsChain` | internal/deploy/deploy.go:611-624 | every run is a chain of turns, each moving only its own stack |
| `TurnFacts.TurnInPhase` | internal/deploy/stackrun.go:74-198 | in every stack phase, which of the seven actions a stack's turn takes, and the record, images, hold, pending change and retry request it leaves, stated on the readings, what was recorded and held of the stack when the phase began, and its gate |
| `TurnFacts.WhatARunDoes` | internal/deploy/deploy.go:507-676 | the same over a whole run that gets to its stacks and saves, from the state file before the run to the one after it: deferred iff the gate is closed and the look-ahead shows a file recorded otherwise; held iff exactly these inputs are held, unrequested, more than a minute before the backoff ends; early failures back off 5 and 10 minutes and then hold; ready iff deployed or unchanged, queued iff paused or deferred behind a queued dependency; and a stack left at its desired state, and only such a one, moves to HEAD |
| `TurnFacts.GateOfARun` | internal/deploy/ordering.go:90-138 | over such a run a gate is blocked iff a dependency's earlier turn left it blocked or its configuration is broken, else queued iff one's earlier turn left it queued, else open |
| `TurnFacts.GlobalBaseMovesIff` | internal/deploy/deploy.go:631-654 | the global base moves to HEAD iff HEAD was read and nothing is left pending |
| `TurnFacts.StopsBeforeTheStacks` | internal/deploy/deploy.go:507-562 | a run that does not get to its stacks deploys nothing and keeps every stack's record, images, hold and base; one that cannot read its variables changes nothing at all |
| `TurnFacts.HeldCanBeRetried` | internal/deploy/held.go:163-215 | after a run that saved, and after a restart, a retry can be requested of exactly the stacks that the state file holds |
| `CommitBases.RunKeepsBases` | internal/deploy/state.go:97-136 | after a run whose HEAD read succeeds, the base commit of each recorded stack holds the compose file of its recorded hashes |
| `CommitBases.HistoryKeepsBases` | internal/deploy/deploy.go:631-654 | so it is after every history of runs, kills, restarts and retry requests |
| `CommitBases.KillKeepsBases` | internal/deploy/deploy.go:507-562 | a run that is killed before it saves leaves that true |
| `CommitBases.StackIsForgottenIff` | internal/deploy/removed.go:28-111 | a completed run leaves nothing recorded or pending of a stack without a turn iff it was recorded or pending, is not in the set any more and the set is not an empty discovery; or nothing was recorded of it and it was not pending |
| `CommitBases.HoldOutlivesItsStack` | internal/deploy/removed.go:92-111 | a concrete stack that never deployed: when it leaves the set its hold stays, whatever the run |
| `Heal.HealStack` | internal/deploy/heal.go:45-134 | issues an up iff the stack is recorded, everything loads, and the clone is the recorded version, or only its compose file differs and the base commit's can be restored; the up applies the clone, or the clone with the base's compose file; declines iff nothing is recorded, anything else differs, or there is nothing to restore from; fails iff something cannot be loaded, hashed or restored |
| `Heal.HealAppliesRecorded` | internal/deploy/heal.go:84-120 | when the bases hold, an up applies inputs that hash exactly to the recorded ones |
| `Heal.HealsNeverApplyPendingChanges` | internal/deploy/heal.go:84-133 | in every history from an empty state, a pending, held or failed change never reaches the host through a heal |
| `Heal.DeployedStackIsHealed` | internal/deploy/heal.go:84-106 | in every history: a stack that a saved run deployed at a HEAD it could read, and that no later event settles again, is healed from a clone with those inputs, as it is |
| `Heal.WithoutHeadReadIff` | internal/deploy/deploy.go:641-649 | when HEAD cannot be read the bases hold afterwards iff every stack that deployed kept the compose file of its old base |
| `Heal.UnmovedComposeKeepsBases` | internal/deploy/deploy.go:641-649 | so they hold whenever no stack's inputs bring a compose file other than its base commit's |
| `Heal.LostHeadReadMisleadsHeal` | internal/deploy/deploy.go:641-649 | otherwise a later heal can restore a version that is not the recorded one |
| `Heal.UnsettledRun` | internal/deploy/stackrun.go:81-198 | a run that queues, blocks, holds or fails a recorded stack keeps its hashes, images and base |
| `Heal.FailuresKeepTheBase` | internal/deploy/state.go:97-136 | however often a stack fails at whatever HEADs, record and base stay those of its last settled version |
| `HoldLimits.AttemptsAreBounded` | internal/deploy/held.go:115-130 | while inputs stay the same and runs complete, at most 3 (1 + retries consumed) attempts fail |
| `HoldLimits.HoldCountsFailures` | internal/deploy/held.go:119-130 | in every history of steady runs the hold's counter is the number of consecutive failures before start; attempts that were cut short do not break the row |
| `HoldLimits.NextAttemptWaits` | internal/deploy/held.go:66-71 | over any number of runs, with attempts that were cut short or without, the next unrequested attempt begins no earlier than a minute before the backoff ends, and there is none when the change is held until someone asks |
| `HoldLimits.FailureBacksOff` | internal/deploy/held.go:109-130 | after any history, the k-th consecutive failure before start leaves the stack backing off until 5 minutes after its own start for the first, 10 for the second, and held without an end from the third on |
| `HoldLimits.BackoffIsKept` | internal/deploy/held.go:66-130 | so every unrequested attempt after the k-th consecutive failure, until one comes to an end, begins no earlier than that failure's start plus 5 minutes for the first and 10 for the second, less a minute; after the third there is none |
| `HoldLimits.BackoffDoubles` | internal/deploy/held.go:109-113 | the wait is 5 minutes, and twice as long after each further failure |
| `HoldLimits.TurnSpends` | internal/deploy/held.go:119-130 | each failing attempt spends one of the remaining attempts and a consumed request buys three |
| `NixosRebuild.RebuildNixOSIfChanged` | internal/deploy/nixos_rebuild.go:26-194 | refines the phase function over readings, the three saves of its own, the rebuild's outcome, and a shutdown or process death before or after the launch |
| `NixosRebuild.RebuildStartsIff` | internal/deploy/nixos_rebuild.go:26-105 | a rebuild starts iff the phase is readable, not paused, and in derivation mode the record lacks the derivation or holds another one, otherwise some file other than the derivation's key is recorded otherwise or not at all; a paused phase queues the system iff that holds, with exactly those files; an unreadable one aborts and changes nothing; the run proceeds iff it is readable and no rebuild started that did not apply |
| `NixosRebuild.PhaseRecords` | internal/deploy/nixos_rebuild.go:80-180 | a phase that proceeds records what it read when it rebuilt, and in derivation mode also when nothing is to be rebuilt; otherwise it keeps the record |
| `NixosRebuild.PhaseKeepsMarker` | internal/deploy/nixos_rebuild.go:26-158 | a marker that a phase leaves on disk goes with the inputs the phase pre-saved, or is the one it found with its record; proceeding clears it in memory |
| `NixosRebuild.RebuildsOnlyChanges` | internal/deploy/nixos_rebuild.go:80-120 | a rebuild starts only for inputs that differ from the recorded ones |
| `NixosRebuild.CutShortIsNotRepeated` | internal/deploy/nixos_rebuild.go:50-129 | a rebuild cut short by its own restart is reconciled by the next phase, not repeated; so is one that was never launched or that failed unseen |
| `NixosRebuild.FalseMarkStaysIff` | internal/deploy/nixos_rebuild.go:107-145 | a phase leaves a marker whose rebuild was not launched, or does not switch the system, iff the pre-save arrived and a shutdown or the end of the process came first, or the failure could not be undone on disk |
| `NixosRebuild.ShutdownLosesTheChange` | internal/deploy/nixos_rebuild.go:115-130 | concrete phases: a shutdown comes before the launch, or before the unit fails; the system is not switched, and the next phase reports success and proceeds |
| `NixosRebuild.ObservedFailureIsRetriedIff` | internal/deploy/nixos_rebuild.go:112-158 | the next unpaused phase repeats a rebuild that was seen to fail iff the undoing save arrived or the pre-save did not; otherwise it reports the failed rebuild as done |
| `NixosRebuild.PhaseFrame` | internal/deploy/nixos_rebuild.go:26-158 | the phase moves only its reserved entry and the marker |
| `NixosRuns.MarkerAlwaysNamesPreSave` | internal/deploy/nixos_rebuild.go:107-148 | in every history of runs, kills and restarts, whatever is saved, a marker on disk means that the recorded inputs are those of the newest pre-saved rebuild |
| `NixosRuns.MarkIsTrueIff` | internal/deploy/nixos_rebuild.go:53-145 | through a whole history that rebuild was launched iff no phase was cut between its pre-save and the launch, and the success that the next start reports of it is true iff no phase was cut before a rebuild that does not switch the system |
| `NixosRuns.LostRebuildIsNeverMadeUp` | internal/deploy/nixos_rebuild.go:53-87 | the change of such a phase is never applied by any later run over the same inputs |
| `NixosRuns.RecordedIsNeverRebuilt` | internal/deploy/nixos_rebuild.go:38-87 | a recorded system is never rebuilt, over any history, whatever is saved |
| `NixosRuns.RebuildsAreNotRepeated` | internal/deploy/nixos_rebuild.go:26-158 | one system is rebuilt at most once more than its rebuild was seen to fail, over any history |
| `NixosRuns.FailedPhaseDeploysNothing` | internal/deploy/nixos_rebuild.go:160-167 | a phase that does not proceed deploys no stack and leaves every stack record on disk, unless the state file could not be read and the phase saved something; then none is left |
| `NixosRuns.UnreadableStateIsOverwrittenIff` | internal/deploy/deploy.go:507-562 | a run that does not get to the stacks loses a stack's record, images, base and hold to an unreadable state file iff its phase began a rebuild and the pre-save arrived, or the save that undoes a failed one; otherwise the file is untouched |
| `NixosRuns.FailedPhaseForgetsTheStacks` | internal/deploy/nixos_rebuild.go:107-158 | a concrete failed rebuild over an unreadable state file that forgets every stack |
| `NixosRuns.PendingRebuildIsForgottenIff` | internal/deploy/removed.go:85-111 | a run drops the recorded nix inputs from the state file iff its phase found the system changed while paused, the stack set resolved, it was not a discovery without stacks, and the save arrived |
| `NixosRuns.PausedRunForgetsTheSystem` | internal/deploy/removed.go:28-111 | a concrete paused run over a changed flake that drops them |
| `Apply.ApplyStack` | internal/deploy/stackrun.go:205-284 | the error lacks the new-version mark iff a context, a hook, the pull, the build or the rollout section fails, and then the commands are an initial part of the preparation; otherwise all of it ran. The new version's up is issued iff the env files can be read at its moment (in a rollout without other services, and the first listing succeeds). It succeeds iff everything comes up and the probe and every post hook pass, in place with exactly the commands of a deploy, in a rollout ending with all checks. Every other failure, with rollbacks enabled, issues the base commit's up iff there is one to restore and its env files can be read at the moment of the failure, which in place is determined; it reads rolled back iff that up passes its gate, still unhealthy iff there is a gate that it does not pass; an unhealthy canary reads rolled back and restores nothing. Every up applies the clone's compose file or, with rollbacks enabled, the base commit's; containers are removed in safe cutovers only |
| `Apply.UpInPlace` | internal/deploy/stackrun.go:243-284 | succeeds iff the up comes up, its probe answers and every post hook passes, with exactly these commands; every error is marked and rolled back as of the moment of what failed; the new version's up is issued iff the env files can be read at its moment |
| `Apply.MarkedByUnreadableEnv` | internal/deploy/stackrun.go:252-258 | a concrete marked failure without a single up: the env files cannot be read |
| `Apply.MarkedByFailedListing` | internal/deploy/rollout.go:74-78 | and one of a rollout whose first listing fails |
| `Apply.RollBackFailedDeploy` | internal/deploy/rollback.go:50-74 | always marks the error; enabled, with a reader, a base and its compose file, it issues the base's up iff the env files can be read then, reads rolled back iff that up passes its gate, and still unhealthy iff there is a gate that it does not pass; otherwise failed |
| `Apply.RollbackStack` | internal/deploy/rollback.go:83-148 | issues the up of the base commit under the same gate iff there is a reader, a base, its compose file and readable env files; restored iff that up comes up and the probe, when there is one, answers; still unhealthy iff it was to be restored, there is a gate, and one of the two fails |
| `Apply.Verify` | internal/deploy/stackrun.go:260-284 | passes iff the probe answers and every post hook does, with exactly these commands and the on-demand stop; otherwise it ends at the first that fails, at a known moment |
| `Apply.RollOut` | internal/deploy/rollout.go:30-69 | the other services first, then the cutovers in order up to the first that fails; it succeeds iff the other services' up comes up and every cutover is done; an unhealthy canary ends it without a restore, everything else is rolled back; the error is unmarked iff the section cannot be used, and the new version is started iff the first up's env files are readable and, without other services, the first listing succeeds |
| `Apply.RollServices` | internal/deploy/rollout.go:57-68 | the trace is one safe cutover per service, each of them decided by the environment at its moment, only the last can have failed, and an up is issued iff the first service can be listed and its env files read |
| `Apply.LaterServicesUntouched` | internal/deploy/rollout.go:57-68 | no read and no up names a service after the one that failed, and every container that is stopped or removed was listed before for a service whose turn had come |
| `Rollout.RollService` | internal/deploy/rollout.go:74-115 | every stop or remove of a container that ran when the cutover began comes after a read showing a healthy new one, and a finished cutover removed them all; the state is unknown iff the listing or the up fails, and then the new containers of a fresh listing are removed; the up starts one container more than ran, or the service when none did; an unhealthy canary was polled to the end, leaves all old containers and removes exactly the new containers of the newest successful listing; whatever is removed was listed for the service earlier; an up is issued iff the first listing succeeds and the env files are readable |
| `Rollout.UnhealthyRemovesIff` | internal/deploy/rollout.go:94-98 | an unhealthy cutover removes a container iff it is a new one of the newest successful listing |
| `Rollout.NoCanaryIsLeftIff` | internal/deploy/rollout.go:94-157 | every new container that some listing showed is removed iff the newest successful listing shows them all |
| `Rollout.CanaryIsLeftBehind` | internal/deploy/rollout.go:120-187 | a concrete cutover whose canary is listed by one poll and not by the next: it is not removed |
| `Rollout.WaitCanaryHealthy` | internal/deploy/rollout.go:120-157 | reports healthy iff a read showed a healthy container that is not among the old ones, and gives up only after all polls |
| `Rollout.CleanupCanary` | internal/deploy/rollout.go:162-169 | removes exactly the containers that its fresh listing of the service shows and that are not among the old ones, when that listing succeeds |
| `Rollout.RemoveContainers` | internal/deploy/rollout.go:191-203 | stops and removes exactly the given non-empty ids |
| `Attempt.DeployOnHost` | internal/deploy/stackrun.go:74-198 | one turn joined with its commands: nothing is issued without an attempt, ups restore no commit but the stack's recorded base; the turn counts as deployed iff the attempt succeeded, as broken with the status of a marked failure, as cut short iff an unmarked one was cancelled; what an attempt that reaches the new version comes to, and when it is rolled back, is as in ApplyStack; a failure counted as one before start issued no up, and a hold for a broken version stands for that version's up iff the up is issued at its moment |
| `Attempt.RollbacksRestoreTheSettledVersion` | internal/deploy/rollback.go:83-107 | however often a stack failed before, at whatever HEADs, the ups of a further attempt apply the clone's version or that of its last settled commit |
| `Rollout.NewContainerIds` | internal/deploy/rollout.go:245-253 | the listed ids that are not among the old ones |
| `Rollout.AnyHealthy` | internal/deploy/rollout.go:256-263 | whether one of the ids is listed as healthy |
| `HealthPolicy.PhaseListStaysOk` | internal/healthwatch/watcher.go:189-231 | in every history 1 to 10 phases, adjacent statuses different, start times not increasing with age |
| `HealthPolicy.AcceptedAfterDebounce` | internal/healthwatch/watcher.go:205-224 | a status is accepted only after debounce equal observations in a row, and its phase begins at the first of them |
| `HealthPolicy.SteadyStatusIsAccepted` | internal/healthwatch/watcher.go:205-224 | a status observed debounce times in a row is the accepted one |
| `HealthPolicy.ObservationRecords` | internal/healthwatch/watcher.go:189-231 | the first observation is the baseline, one of the accepted status ends a pending change, another one is counted and starts a phase when it completes the debounce, with the time of the first and the newest deploy's commit; the newest ten phases are kept |
| `HealthPolicy.ObservationSendsIff` | internal/healthwatch/watcher.go:205-300 | an observation sends an alert iff it completes the debounce of another status, the service failed or recovers from a failure, and the newest alert of the direction is a cooldown old; what it says; otherwise a change that is cooling down is owed |
| `HealthPolicy.CatchUpSendsIff` | internal/healthwatch/watcher.go:308-353 | the end of a snapshot sends the current phase's alert iff one is owed, the service failed and no failure was the newest alert or it recovered and one was, and the direction is not cooling down; what is not owed any more is dropped |
| `HealthPolicy.AlertIsSentIff` | internal/healthwatch/watcher.go:189-300 | over every history an observation sends an alert iff its status has now been observed debounce times in a row, is not the accepted one, is worth telling, and the newest alert of its direction is a cooldown old; the alert begins with the first of these observations |
| `HealthPolicy.AlertsAreSpaced` | internal/healthwatch/watcher.go:270-300 | two delivered alerts of one direction are at least the cooldown apart, restarts included, and the record names exactly the newest deliveries |
| `HealthPolicy.FailuresAreTold` | internal/healthwatch/watcher.go:242-353 | an accepted failure is what the newest alert says or a catch-up is pending, and the first snapshot end after the cooldown delivers it |
| `HealthPolicy.CatchUpIsAccounted` | internal/healthwatch/watcher.go:308-353 | a catch-up keeps the account and delivers an owed failure as soon as its cooldown is over |
| `HealthWatch.Watcher.ObserveService` | internal/healthwatch/watcher.go:189-265 | one observation moves exactly the observed service, by the policy |
| `HealthWatch.Watcher.Deliver` | internal/healthwatch/watcher.go:288-300 | fires the alert and, with a cooldown, records its time and settles what was owed |
| `HealthWatch.Watcher.CatchUpStack` | internal/healthwatch/watcher.go:308-353 | every service of the stack takes its end-of-snapshot step |
| `HealthWatch.Watcher.Observe` | internal/healthwatch/watcher.go:143-184 | every service's history grows by what the snapshot means for it: listed containers, Stopped for a known service that is missing, the catch-up, nothing for an unreadable stack; the file holds the state unless its write failed, and then an earlier part of every history |
| `HealthWatch.SnapshotMeans` | internal/healthwatch/watcher.go:143-184 | one snapshot is, for one service, nothing when its stack was not read, otherwise one observation of its status when it is listed, of a stopped service when a known one is not, and the catch-up |
| `HealthWatch.Watcher.ObserveDeploy` | internal/healthwatch/watcher.go:125-137 | a success replaces the stack's last deploy and touches no service |
| `HealthWatch.Watcher.Reload` | internal/healthwatch/state.go:94-155 | a restart loses nothing but the running debounce of a service the file is up to date about; any other goes back to the last saved part of its history |
| `HealthRestart.LostSaveSpacingIff` | internal/healthwatch/watcher.go:270-300 | after a restart that lost a save the next alert keeps the cooldown iff no alert of its direction was sent within the cooldown since the last save that arrived |
| `HealthRestart.LostSaveIsSound` | internal/healthwatch/watcher.go:189-353 | whatever state a restart goes back to has a well-formed phase list and delivery times in the past |
| `HealthRestart.StaysToldIff` | internal/healthwatch/watcher.go:242-353 | from such a state, whatever follows, an accepted failure is told or owed iff it is at the start and either the record is right that the newest alert was a failure, or none is accepted yet and the debounce outlasts the cooldown of the one on record |
| `HealthRestart.LostRecoveryHidesAFailure` | internal/healthwatch/watcher.go:308-353 | a concrete history: a recovery alert whose save is lost, a restart, a failure that is neither told nor owed |
| `HealthWatch.WatcherTells` | internal/healthwatch/watcher.go:189-353 | in every reachable state of the watcher, from whatever state the process loaded: well-formed phases; the spacing when the record loaded knew the alerts sent; an accepted failure told or owed when the state loaded meets the condition of StaysToldIff |
| `HealthWatch.NewWatchIsSound` | internal/healthwatch/watcher.go:189-353 | a service that nothing is known of meets all of these conditions |
| `HealthWatch.SnapshotsArePaced` | internal/healthwatch/watcher.go:143-166 | later snapshots with distinct service names give strictly later observations |
| `SelfHealPolicy.SelfHealStatus` | internal/selfheal/selfheal.go:178-211 | unhealthy iff a service is, starting iff one is and none is unhealthy, stopped iff one that is not on demand is and every service is stopped or unreadable; the health package's roll-up of the services that are not idle on-demand containers; healthy when none of them is readable, the given status without detail |
| `SelfHealPolicy.DriftedServices` | internal/selfheal/selfheal.go:158-169 | lists exactly the services that are unhealthy, or stopped and not on demand, in order |
| `SelfHealPolicy.DegradedNamesDrift` | internal/selfheal/selfheal.go:151-169 | a service that is unhealthy, or stopped and not on demand, is named in the drift with its status |
| `SelfHealPolicy.PollActsIff` | internal/selfheal/selfheal.go:222-357 | from the statuses polled alone: a poll redeploys iff minPolls unhealthy or stopped looks in a row, budget left and cooldown over; gives up iff the budget is spent instead, once; ends an outage iff minPolls healthy looks in a row, as healed iff a redeploy ran and it did not give up; a starting or unknown stack changes nothing |
| `SelfHealPolicy.PollIsSound` | internal/selfheal/selfheal.go:222-294 | a poll keeps budget, cooldown and announcements in order |
| `SelfHealPolicy.ReturnIsSound` | internal/selfheal/selfheal.go:300-313 | the end of a redeploy keeps them, also when the stack was reset while it ran |
| `SelfHealPolicy.ResetIsSound` | internal/selfheal/selfheal.go:216-220 | a reset keeps them, whether or not a redeploy is running |
| `SelfHeal.Engine.StartEvaluate` | internal/selfheal/selfheal.go:222-294 | the locked part of a poll, for one stack only: it starts a redeploy or gives up only over an unhealthy or stopped roll-up, ends an outage only over a healthy one, names the drift by the services' own statuses, and over a starting or unknown one changes nothing |
| `SelfHeal.Engine.FinishHeal` | internal/selfheal/selfheal.go:299-333 | counts an attempt iff the redeploy ran and the stack was not reset meanwhile |
| `SelfHeal.Engine.Prune` | internal/selfheal/selfheal.go:134-142 | resets exactly the tracked stacks that are not probed or not opted in |
| `SelfHeal.Engine.Reset` | internal/selfheal/selfheal.go:216-220 | resets one stack at any time |
| `SelfHeal.BudgetHolds` | internal/selfheal/selfheal.go:216-314 | between two resets at most maxAttempts redeploys run, each the cooldown after the one before ended; giving up takes exactly maxAttempts and healing at least one; at most one of the two is announced, once |
| `Collapse.CollapseRuns` | internal/audit/log.go:95-105 | the loop computes the collapse of a list |
| `Collapse.PushAbsorbsIff` | internal/events/span.go:16-61 | one more outcome is absorbed iff it tells again, with the same error, that a deploy failed, was rolled back, is still unhealthy, or that healing was given up: the newest entry then counts one more and its times widen |
| `Collapse.CollapseIsIdempotent` | internal/audit/log.go:92-105 | collapsing a collapsed list changes nothing |
| `Collapse.CollapsedHasNoRepeats` | internal/audit/log.go:92-105 | no entry repeats the one before |
| `Collapse.CollapsedSummarisesRuns` | internal/events/span.go:16-61 | of single occurrences it holds one entry per maximal run of repeats, with the run's length and its earliest and latest times |
| `Collapse.RunBounds` | internal/events/span.go:16-61 | those times bound every occurrence and are attained, in whatever order the occurrences came |
| `Collapse.CollapseConservesIff` | internal/events/span.go:16-36 | occurrences are conserved iff every absorbed entry stands for one; none is ever invented |
| `History.Ring.AddLocked` | internal/events/history.go:81-94 | the history with the event absorbed or appended, trimmed to the newest 100, and the event as stored |
| `History.AdditionAbsorbsIff` | internal/events/history.go:81-119 | with a newest terminal event of the stack an addition is absorbed iff it repeats that one's failure, rollback or exhaustion with the same error: it moves to the end as one occurrence more, names the event it absorbed, and the other stacks' events stay; otherwise it is appended as it is |
| `History.FirstIsAppended` | internal/events/history.go:81-119 | without one it is appended as it is |
| `History.Ring.LastOutcomeForStack` | internal/events/history.go:112-119 | the newest event of the stack that is not deploying, skipped, queued, blocked or held |
| `History.Ring.KeepOthers` | internal/events/history.go:98-106 | exactly the other stacks' events, in order |
| `History.KeptIsCollapsed` | internal/events/history.go:81-94 | in every history at most 100 events and no stack with an outcome that repeats the one before |
| `History.LongerKeepsOthers` | internal/events/history.go:81-106 | an addition takes nothing from the other stacks' interleaved events |
| `History.TrimmedKeepsNewest` | internal/events/history.go:90-92 | trimming keeps the newest 100 and drops the oldest of each stack only |
| `History.KeptIsTheCollapse` | internal/events/history.go:81-94 | until the first eviction a stack's outcomes are the collapse of all its outcomes |
| `History.KeptCountsEveryOccurrence` | internal/events/history.go:81-94 | so their counts sum to the single outcomes that were added, run by run |
| `History.StoredHistoryReloads` | internal/events/history.go:155-171 | replaying a stored history through the additions reproduces it |
| `AuditLog.Log.Record` | internal/audit/log.go:136-168 | the lists are the capped collapse of all records whatever the writes do; from a file that holds the lists, with increasing times, every content it passes through reloads the old or the new lists, and successful writes keep it so, at most 2 total + 8 lines long once all its lines are counted |
| `AuditLog.Log.Compact` | internal/audit/log.go:251-274 | rewrites the file from the lists in any time-sorted order without changing what a reload gives |
| `AuditLog.Log.AppendLine` | internal/audit/log.go:227-247 | appends one line and compacts a file that outgrew the lists |
| `AuditLog.Log.constructor` | internal/audit/log.go:279-305 | a load rebuilds each stack's list as the capped collapse of its lines; after a failed rewrite the file's lines are not counted, and an unreadable file is left alone |
| `AuditLog.HeldIsRebuilt` | internal/audit/log.go:279-305 | a file that holds the lists reloads to exactly them |
| `AuditLog.SortingKeepsLines` | internal/audit/log.go:251-260 | any time-sorted permutation of records with distinct times within a stack keeps each stack's order |
| `AuditLog.RecordingCommutesWithTheCap` | internal/audit/log.go:149-157 | capping before or after a record gives the same list |
| `AuditLog.Log.Total` | internal/audit/log.go:307-313 | the number of records of all stacks |
| `LogBuffer.IsPinnedOutcome` | internal/logbuf/log.go:60-73 | one of the six outcome lines, or a run summary with one of its four counters present, not empty and not zero |
| `LogBuffer.Log.Append` | internal/logbuf/log.go:117-141 | stores the entry with the next id and offers it to every subscriber; exactly the full channels lose it |
| `LogBuffer.Log.EntriesAfter` | internal/logbuf/log.go:162-184 | increasing ids, and exactly the entries above the id that are among the newest capacity entries or the newest 50 outcome lines |
| `LogBuffer.ReplayHolds` | internal/logbuf/log.go:158-184 | the same of the specification, for every log |
| `LogBuffer.IncreasingIsUnique` | internal/logbuf/log.go:162-184 | which determines the replay: increasing lists with the same entries are equal |
| `LogBuffer.Log.Subscribe` | internal/logbuf/log.go:189-202 | an empty channel under an unused id |
| `LogStream.Stream.SendBacklog` | internal/ui/logs.go:33-51 | sends exactly the kept entries above the client's last id, all of them without a header, none for an unreadable one, in id order |
| `LogStream.Stream.Drain` | internal/ui/logs.go:61-71 | sends the oldest queued entry unless the replay covered it; ids sent stay increasing |
| `LogStream.Stream.OthersAppend` | internal/logbuf/log.go:117-141 | an append by anyone else at any moment keeps the stream in order |
| `LogStream.Stream.OthersSubscribe` | internal/logbuf/log.go:189-202 | so does another client's subscription |
| `LogStream.Stream.OthersReceive` | internal/ui/logs.go:61-71 | and an entry that another client takes |
| `LogStream.Stream.DrainedStreamMissesNothing` | internal/ui/logs.go:30-71 | a drained stream whose channel never overflowed has sent everything logged since it subscribed above the id it asked from |
| `LogStream.NeverGapsIff` | internal/logbuf/log.go:20-31 | streams lose nothing between replay and channel iff the ring holds a full channel of 256 entries |
| `TagShape.ParsesIffHasShape` | internal/updatecheck/tags.go:14-59 | a tag parses to a shape iff it is the optional v, digit groups spelling the numbers joined by dots, and a suffix that does not continue them |
| `TagShape.PrintedIsParsed` | internal/updatecheck/tags.go:25-59 | parsing inverts printing on every well-formed shape |
| `TagShape.ParsedIsWellFormed` | internal/updatecheck/tags.go:25-59 | only well-formed shapes are parsed |
| `TagShape.ParseTagShape` | internal/updatecheck/tags.go:25-59 | the loop computes that parse, and fails iff the tag has no shape |
| `TagShape.ValueIsDecimal` | internal/updatecheck/tags.go:31-52 | the digits count 0 to 9, and a further digit ten times what was read plus itself |
| `TagShape.Less` | internal/updatecheck/tags.go:71-78 | whether the first number that differs is smaller |
| `TagShape.OlderIsAnOrder` | internal/updatecheck/tags.go:61-78 | a strict total order on comparable shapes |
| `TagShape.NewerTag` | internal/updatecheck/tags.go:85-103 | empty iff no tag of the list spells, by the grammar, a newer version of the running tag's prefix, suffix and count of numbers; otherwise one that does, than which none spells a newer one, the first of those spelling the same numbers |
| `TagShape.HintIgnoresOrder` | internal/updatecheck/tags.go:80-103 | the order of the list changes at most how the numbers of the hint are spelled |

## Left out

- Running images, project directories, pull and build decisions: they do not steer what is deployed; the decisions are boolean inputs of `Apply.Plan`.
- The look-ahead run plan, attribution, image deltas, metrics, notifications and event texts: views of the same decisions.
- SHA-256 and fingerprints: a hash is an opaque value and a fingerprint is the hash map itself.
- The order of removed-stack announcements and of differing paths: both are specified as sets.
- YAML, JSON and file writing: a save is one atomic step that succeeds or leaves the file; a torn audit line is no line.
- Git synchronisation, the derivation cache, config and env-file parsing: they produce the inputs of a run.
- A deployer without a queue: the queue is always there, as in production; without one a paused stack reads as ready.
- Lifecycle of on-demand containers and orphaned services after a deploy: only their failure to be cleaned up is an input.
- Hooks and probes: they appear in traces by name and outcome, not by content or duration.
- Rollout timeouts and drain delays: the number of polls is an input.
- The time of day: clocks are integers; the watchdog's are whole seconds as in the code.
- Several watchdog observations of one service in one snapshot: allowed by the watcher, excluded where a statement needs strictly later observations.
- A recovery that passes through starting: the code sends no recovery alert for it, so completeness is about failures only.
- A crash of the watchdog in the middle of a snapshot: restarts come between snapshots; what it loses is what a failed save loses.
- HealthRestart.LostSaveSpacingIff: is about the first save that is lost in a service's history, and the next alert after it.
- Rollout.CanaryIsLeftBehind: is a trace that keeps every promise of the cutover; that the polls list what they list is the environment's choice.
- Heal.WithoutHeadReadIff: says which stacks deployed by the run's log; the sufficient condition on inputs alone is stated beside it.
- The in-memory mode of the audit log and the history without a file: the same methods with every write failing.
- Views of the stores, newest first or by id, and the message texts of outcome lines: simple projections; the seven outcome messages are constructors.
- AuditLog.SortingKeepsLines: needs distinct times within a stack, because the sort is not stable; records with equal times may change places on a reload.
- Ordering of publication in the deploy-event stream, the UI, peers and registries: not part of this model.
