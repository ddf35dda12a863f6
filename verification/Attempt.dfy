/** One stack's turn on the host: the bookkeeping of the run joined with the commands the attempt issues
    (internal/deploy/stackrun.go deployStackIfChanged around applyStack). */
module Attempt {
  import opened Options
  import opened StackGraph
  import opened DeployState
  import opened DeployStack
  import opened NixosRebuild
  import opened DeployRun
  import opened RunFacts
  import opened CommitBases
  import opened Heal
  import opened Host
  import A = Apply

  /** The turn gets as far as an attempt, however that one ends. */
  predicate ReachesApply(st: State, mem: Mem, n: Name, t: Turn, gate: Outcome) {
    Gated(st, mem, n, t.(apply := Applied), gate).action.Attempted?
  }

  lemma EndingDoesNotDecide(st: State, mem: Mem, n: Name, t: Turn, gate: Outcome)
    ensures var r := Gated(st, mem, n, t, gate);
      && (r.action.Attempted? <==> ReachesApply(st, mem, n, t, gate))
      && (r.action.Attempted? ==> r.action == Attempted(t.apply))
  {
  }

  /** The turn recorded a hold for a version that broke after it started. */
  ghost predicate RecordsBreak(before: State, after: State, n: Name) {
    n in after.held && after.held[n].attempts == 0 && !SameAt(before.held, after.held, n)
  }

  lemma OnlyBreaksAreRecorded(st: State, mem: Mem, n: Name, t: Turn, gate: Outcome)
    ensures var r := Gated(st, mem, n, t, gate);
      RecordsBreak(st, r.st, n) ==> r.action.Attempted? && r.action.apply.Broke?
  {
  }

  /** Every up applies the clone's version or restores the given commit. */
  ghost predicate RestoresOnly(steps: seq<Step>, base: Commit) {
    forall i :: 0 <= i < |steps| && steps[i].cmd.Up? ==> steps[i].cmd.version in {Clone, AtCommit(base)}
  }

  /** The commands of the attempt, when there is one, and how the run counts it. */
  method ApplyWhen(host: Runner, plan: A.Plan, attempted: bool, cancelled: bool)
    returns (ending: Apply, ghost f: Option<A.Failure>, ghost steps: seq<Step>, ghost cuts: seq<A.CutoverTrace>,
             ghost when: A.Moments)
    modifies host
    ensures host.trace == old(host.trace) + steps && RestoresOnly(steps, plan.base)
    ensures if attempted then ending == A.Outcome(f, cancelled) && A.Keeps(plan, f, steps) else steps == []
    ensures attempted && A.Reaches(host, old(host.clock), plan) ==>
              A.Concludes(host, old(host.clock) + A.PrepareTicks(plan), when, plan, f, steps, cuts)
    ensures attempted && f.None? && plan.rollout.None? ==> A.DeployedInPlace(plan, steps)
    ensures A.AppliesClone(steps) <==> attempted && A.Reaches(host, old(host.clock), plan)
                                         && A.Issues(host, old(host.clock) + A.PrepareTicks(plan), plan)
    ensures attempted ==> (ending in {FailedEarly, Cut} <==> !A.Reaches(host, old(host.clock), plan))
    ensures attempted && ending in {FailedEarly, Cut} ==> NoUp(steps)
    ensures plan.rollout.None? && host.EnvUnreadable(old(host.clock), host.clock) ==> NoUp(steps)
  {
    ending, f, steps, cuts, when := Applied, None, [], [], A.Moments(0, 0);
    if attempted {
      var failure;
      ghost var at;
      failure, steps, cuts, at, when := A.ApplyStack(host, plan);
      f, ending := failure, A.Outcome(failure, cancelled);
    }
  }

  /** The turn on the host. The commands and the records touch different things, so that the attempt is
      made first shows in neither. Nothing is issued without an attempt, an up restores no commit but the
      stack's base, and a failure that is counted as one before start issued no up. A hold for a broken
      version stands for that version's up exactly when the up is issued at its moment. */
  method DeployOnHost(host: Runner, plan: A.Plan, d: Deployer, n: Name, t: Turn, state: PersistedState,
                      gate: Outcome, cancelled: bool)
    returns (action: Action, outcome: Outcome, ghost ending: Apply, ghost f: Option<A.Failure>,
             ghost steps: seq<Step>, ghost cuts: seq<A.CutoverTrace>, ghost when: A.Moments)
    requires plan.base == BaseCommitFor(state.View(), n)
    modifies host, d, state
    ensures var r := Gated(old(state.View()), old(d.View()), n, t.(apply := ending), gate);
      Result(state.View(), d.View(), action) == r && outcome == OutcomeOf(r, n, gate)
    ensures host.trace == old(host.trace) + steps
    ensures RestoresOnly(steps, BaseCommitFor(old(state.View()), n))
    ensures if action.Attempted? then action.apply == A.Outcome(f, cancelled) && A.Keeps(plan, f, steps)
            else steps == []
    ensures A.AppliesClone(steps) <==> action.Attempted? && A.Reaches(host, old(host.clock), plan)
                                         && A.Issues(host, old(host.clock) + A.PrepareTicks(plan), plan)
    ensures action.Attempted? && A.Reaches(host, old(host.clock), plan) ==>
              A.Concludes(host, old(host.clock) + A.PrepareTicks(plan), when, plan, f, steps, cuts)
    ensures action == Attempted(Applied) <==> action.Attempted? && f.None?
    ensures action == Attempted(Cut) <==> action.Attempted? && f.Some? && !f.value.marked && cancelled
    ensures forall s :: action == Attempted(Broke(s)) <==> action.Attempted? && f == Some(A.Failure(true, s))
    ensures action == Attempted(Applied) && plan.rollout.None? ==> A.DeployedInPlace(plan, steps)
    ensures action in {Attempted(FailedEarly), Attempted(Cut)} ==> NoUp(steps)
    ensures RecordsBreak(old(state.View()), state.View(), n) ==>
              (A.AppliesClone(steps) <==> A.Issues(host, old(host.clock) + A.PrepareTicks(plan), plan))
    ensures plan.rollout.None? && host.EnvUnreadable(old(host.clock), host.clock) ==> NoUp(steps)
  {
    var attempted := ReachesApply(state.View(), d.View(), n, t, gate);
    var applied;
    applied, f, steps, cuts, when := ApplyWhen(host, plan, attempted, cancelled);
    var used := if attempted then t.(apply := applied) else t;
    ending := used.apply;
    EndingDoesNotDecide(state.View(), d.View(), n, used, gate);
    OnlyBreaksAreRecorded(state.View(), d.View(), n, used, gate);
    action, outcome := d.DeployStackGated(n, used, state, gate);
  }

  // ---------- rollbacks over whole histories ----------

  /** The state before the turn at position k of the event's run. */
  ghost function BeforeTurn(sys: Sys, input: RunInput, k: nat): State
    requires k <= |input.order|
  {
    var ph := NixosPhase(sys.disk, sys.disk, sys.mem, input.nixos);
    Trace(PhaseStart(ph.st, ph.mem, input), input.order, input.turns)[k].st
  }

  lemma BaseBeforeTurn(sys: Sys, input: RunInput, k: nat, n: Name)
    requires sys.disk.settled == [] && !Reserved(n) && k <= |input.order|
    requires n in input.known || (input.discovery && input.known == {})
    ensures BaseCommitFor(BeforeTurn(sys, input, k), n) == BaseCommitFor(sys.disk, n)
  {
    var ph := NixosPhase(sys.disk, sys.disk, sys.mem, input.nixos);
    NixosPhaseFrame(sys.disk, sys.disk, sys.mem, input.nixos);
    SameRecordAfterNixos(sys.disk, ph.st, n);
    RollbackTarget(PhaseStart(ph.st, ph.mem, input), input.order, input.turns, k, n);
  }

  /** The stack's deploys fail all through the history, and then it has a turn in a further run, at the
      given position, with the plan's base taken from the state at that moment. */
  ghost predicate AttemptsAgain(sys: Sys, events: seq<Event>, input: RunInput, k: nat, n: Name, plan: A.Plan) {
    && NeverSettled(sys, events, n) && sys.disk.settled == []
    && n in sys.disk.stacks && !Reserved(n) && BaseCommitFor(sys.disk, n) != ""
    && (n in input.known || (input.discovery && input.known == {}))
    && k < |input.order| && input.order[k].name == n
    && plan.base == BaseCommitFor(BeforeTurn(AfterAll(sys, events), input, k), n)
  }

  /** However often a stack's deploy failed before, at whatever HEADs, a further attempt's ups apply the
      clone's version or restore the version the stack last settled at, and no other. */
  lemma RollbacksRestoreTheSettledVersion(sys: Sys, events: seq<Event>, input: RunInput, k: nat, n: Name,
                                          plan: A.Plan, f: Option<A.Failure>, steps: seq<Step>)
    requires AttemptsAgain(sys, events, input, k, n, plan) && A.Keeps(plan, f, steps)
    ensures RestoresOnly(steps, BaseCommitFor(sys.disk, n))
  {
    FailuresKeepTheBase(sys, events, n);
    BaseBeforeTurn(AfterAll(sys, events), input, k, n);
  }
}
