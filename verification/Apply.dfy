/** Applying one stack's change (internal/deploy/stackrun.go applyStack, rollback.go, rollout.go
    rollout), stated about the trace of commands it issues. */
module Apply {
  import opened Options
  import opened DeployState
  import D = DeployStack
  import opened Host
  import opened Rollout
  import opened Sequences

  datatype Gate = Gate(url: bool)

  /** What is resolved about the stack before it is applied, and what files do: the build contexts,
      the hooks, the pull and build decisions, the rollout section, the health gate, the rollback
      policy, the base commit and whether its compose file can be materialised. */
  datatype Plan = Plan(contextsOk: bool, preHooks: nat, postHooks: nat, pulls: bool, builds: bool,
                       rollout: Option<RolloutPlan>, gate: Option<Gate>, rollbackEnabled: bool,
                       reader: bool, base: Commit, restoreOk: bool, onDemand: bool)

  datatype RolloutPlan = RolloutPlan(readable: bool, parsed: bool, valid: bool,
                                     services: seq<string>, others: seq<string>, polls: Polls)

  /** An error of applyStack: marked when the new version was applied and then failed. */
  datatype Failure = Failure(marked: bool, status: FailureStatus)

  /** What the error means to the run (the deferred failure handler). */
  function Outcome(f: Option<Failure>, cancelled: bool): D.Apply {
    if f.None? then D.Applied
    else if f.value.marked then D.Broke(f.value.status)
    else if cancelled then D.Cut
    else D.FailedEarly
  }

  // ---------- what a trace says ----------

  /** Every up applies the clone's compose file or, with rollbacks enabled, the base commit's. */
  ghost predicate UpsAllowed(plan: Plan, steps: seq<Step>) {
    forall i :: 0 <= i < |steps| && steps[i].cmd.Up? ==> VersionAllowed(plan, steps[i].cmd.version)
  }

  predicate VersionAllowed(plan: Plan, v: Version) {
    v == Clone || (v == AtCommit(plan.base) && plan.base != "" && plan.rollbackEnabled)
  }

  /** The new version's up was issued. */
  ghost predicate AppliesClone(steps: seq<Step>) {
    exists i :: 0 <= i < |steps| && steps[i].cmd.Up? && steps[i].cmd.version == Clone
  }

  lemma AppliesCloneBoth(a: seq<Step>, b: seq<Step>)
    ensures AppliesClone(a + b) <==> AppliesClone(a) || AppliesClone(b)
  {
    if i :| 0 <= i < |a| && a[i].cmd.Up? && a[i].cmd.version == Clone {
      assert (a + b)[i] == a[i];
    }
    if i :| 0 <= i < |b| && b[i].cmd.Up? && b[i].cmd.version == Clone {
      assert (a + b)[|a| + i] == b[i];
    }
  }

  ghost predicate NoRemoval(steps: seq<Step>) {
    forall i :: 0 <= i < |steps| ==> !Removes(steps[i])
  }

  predicate Probes(plan: Plan) {
    plan.gate.Some? && plan.gate.value.url
  }

  /** The up of a version under the stack's gate, and the probe when there is one: all of it succeeded. */
  function GatedUp(plan: Plan, v: Version): seq<Step> {
    [Step(Up(v, plan.gate.Some?, Everything), true, [])]
        + When(Probes(plan), Command.Probe)
  }

  ghost predicate EndsWith(steps: seq<Step>, tail: seq<Step>) {
    |steps| >= |tail| && steps[|steps| - |tail|..] == tail
  }

  lemma EndsWithLater(before: seq<Step>, steps: seq<Step>, tail: seq<Step>)
    requires EndsWith(steps, tail)
    ensures EndsWith(before + steps, tail)
  {
    assert (before + steps)[|before + steps| - |tail|..] == steps[|steps| - |tail|..];
  }

  /** The trace ends with the base commit's compose file applied and its gate passed. */
  ghost predicate EndsRestored(plan: Plan, steps: seq<Step>) {
    plan.base != "" && EndsWith(steps, GatedUp(plan, AtCommit(plan.base)))
  }

  /** So many commands of a kind, all of which succeeded. */
  function Repeated(cmd: Command, count: nat): seq<Step> {
    seq(count, _ => Step(cmd, true, []))
  }

  /** The command, when it is wanted. */
  function When(wanted: bool, cmd: Command): seq<Step> {
    if wanted then [Step(cmd, true, [])] else []
  }

  /** Everything before a container is touched: the pre hooks, the pull and the build, when they pass. */
  function PreparedTrace(plan: Plan): seq<Step> {
    Repeated(PreHook, plan.preHooks) + When(plan.pulls, Pull) + When(plan.builds, Build)
  }

  /** What follows the new version's up when it passes: the probe, every post hook, and the stop of the
      containers that run on demand, which may fail. */
  function Checks(plan: Plan, stopped: bool): seq<Step> {
    When(Probes(plan), Command.Probe) + Repeated(PostHook, plan.postHooks)
        + (if plan.onDemand then [Step(StopOnDemand, stopped, [])] else [])
  }

  /** The in-place deploy of the clone's version that passed. */
  function Deployment(plan: Plan, stopped: bool): seq<Step> {
    [Step(Up(Clone, plan.gate.Some?, Everything), true, [])] + Checks(plan, stopped)
  }

  /** The commands begin as the given ones, and only the last one of them may have failed. */
  ghost predicate Begins(steps: seq<Step>, whole: seq<Step>) {
    |steps| <= |whole|
      && forall i :: 0 <= i < |steps| ==> steps[i].cmd == whole[i].cmd && (i < |steps| - 1 ==> steps[i].ok)
  }

  lemma BeginsFurther(done: seq<Step>, more: seq<Step>, rest: seq<Step>, later: seq<Step>)
    requires (forall i :: 0 <= i < |done| ==> done[i].ok) && Begins(more, rest)
    ensures Begins(done + more, done + rest + later)
  {
  }

  /** Commands that begin as harmless ones are harmless. */
  lemma BeginsHarmless(steps: seq<Step>, whole: seq<Step>)
    requires Begins(steps, whole) && NoUp(whole) && NoRemoval(whole)
    ensures NoUp(steps) && NoRemoval(steps)
  {
    forall i | 0 <= i < |steps|
      ensures !steps[i].cmd.Up? && !Removes(steps[i])
    {
      assert !whole[i].cmd.Up? && !Removes(whole[i]);
    }
  }

  ghost predicate EndsChecked(plan: Plan, steps: seq<Step>) {
    exists stopped :: EndsWith(steps, Checks(plan, stopped))
  }

  ghost predicate Deploys(plan: Plan, steps: seq<Step>) {
    exists stopped :: steps == Deployment(plan, stopped)
  }

  /** The commands of a successful deploy in place, all of them in their order. */
  ghost predicate DeployedInPlace(plan: Plan, steps: seq<Step>) {
    exists stopped :: steps == PreparedTrace(plan) + Deployment(plan, stopped)
  }

  /** What the pipeline promises. An unmarked error means that no up was issued, so every error after an
      up is marked; rolled back, for a stack without rollout, means that the trace ends with the base
      commit's compose file applied and its gate passed. */
  ghost predicate Keeps(plan: Plan, f: Option<Failure>, steps: seq<Step>) {
    && UpsAllowed(plan, steps)
    && (f.Some? && !f.value.marked ==> NoUp(steps) && f.value.status == Failed)
    && (f.Some? && f.value.status == RolledBackUnhealthy ==> plan.gate.Some? && plan.rollbackEnabled)
    && (f.Some? && f.value.status == RolledBack && plan.rollout.None? ==> EndsRestored(plan, steps))
  }

  // ---------- when the new version's up is issued ----------

  ghost predicate AllAnswer(host: Runner, at: nat, count: nat) {
    forall t :: at <= t < at + count ==> host.answers(t)
  }

  ghost predicate PullsAndBuilds(host: Runner, at: nat, plan: Plan) {
    && (plan.pulls ==> host.Composes(at))
    && (plan.builds ==> host.Composes(at + (if plan.pulls then 2 else 0)))
  }

  /** The hooks, the pull and the build pass, from the moment on. */
  ghost predicate Prepares(host: Runner, at: nat, plan: Plan) {
    && plan.contextsOk && AllAnswer(host, at, plan.preHooks)
    && PullsAndBuilds(host, at + plan.preHooks, plan)
  }

  /** How long they take: a docker compose command reads the env files, then runs. */
  function PrepareTicks(plan: Plan): nat {
    plan.preHooks + (if plan.pulls then 2 else 0) + (if plan.builds then 2 else 0)
  }

  predicate Usable(plan: Plan) {
    plan.rollout.Some? ==> plan.rollout.value.readable && plan.rollout.value.parsed && plan.rollout.value.valid
  }

  /** The pipeline gets as far as applying the new version. */
  ghost predicate Reaches(host: Runner, at: nat, plan: Plan) {
    Prepares(host, at, plan) && Usable(plan)
  }

  /** The first rolled service's up is issued: its containers have to be listed before. */
  ghost predicate CutoverIssues(host: Runner, at: nat) {
    host.answers(at) && host.envReadable(at + 2)
  }

  /** The rollout's first up is issued: the other services', or the first rolled one's. */
  ghost predicate RolloutIssues(host: Runner, at: nat, rp: RolloutPlan) {
    if rp.others != [] then host.envReadable(at + 1) else rp.services != [] && CutoverIssues(host, at)
  }

  predicate NamesServices(rp: RolloutPlan) {
    rp.others != [] || rp.services != []
  }

  /** The new version's up is issued by an attempt that gets as far as that at the moment. */
  ghost predicate Issues(host: Runner, at: nat, plan: Plan) {
    match plan.rollout
    case None => host.envReadable(at + 1)
    case Some(rp) => RolloutIssues(host, at, rp)
  }

  // ---------- when it fails, and when it is rolled back ----------

  function ProbeTicks(plan: Plan): nat {
    if Probes(plan) then 1 else 0
  }

  /** The moment after the first of so many commands that fails, or after the last one. */
  ghost function StopsAt(host: Runner, at: nat, count: nat): nat
    decreases count
  {
    if count == 0 then at else if host.answers(at) then StopsAt(host, at + 1, count - 1) else at + 1
  }

  lemma {:induction false} StopsAfterFailure(host: Runner, at: nat, done: nat, count: nat)
    requires done < count && AllAnswer(host, at, done) && !host.answers(at + done)
    ensures StopsAt(host, at, count) == at + done + 1
    decreases done
  {
    if done > 0 {
      assert AllAnswer(host, at + 1, done - 1);
      StopsAfterFailure(host, at + 1, done - 1, count - 1);
    }
  }

  /** The new version passes the probe and the post hooks that begin at the moment. */
  ghost predicate ChecksPass(host: Runner, at: nat, plan: Plan) {
    (Probes(plan) ==> host.answers(at)) && AllAnswer(host, at + ProbeTicks(plan), plan.postHooks)
  }

  /** Otherwise, when the first of them has failed. */
  ghost function ChecksFailAt(host: Runner, at: nat, plan: Plan): nat {
    if Probes(plan) && !host.answers(at) then at + 1 else StopsAt(host, at + ProbeTicks(plan), plan.postHooks)
  }

  /** When the in-place deploy that begins at the moment has failed: the env files cannot be read, the up
      fails, or one of the checks does. */
  ghost function FailsAt(host: Runner, at: nat, plan: Plan): nat {
    if !host.envReadable(at + 1) then at + 1
    else if !host.answers(at + 1) then at + 2
    else ChecksFailAt(host, at + 2, plan)
  }

  /** An up under the gate that begins at the moment comes up, and its probe, if there is one, answers. */
  ghost predicate GatePasses(host: Runner, at: nat, plan: Plan) {
    host.Composes(at) && (Probes(plan) ==> host.answers(at + 2))
  }

  ghost predicate RestoresBase(plan: Plan, steps: seq<Step>) {
    exists i :: 0 <= i < |steps| && steps[i].cmd == Up(AtCommit(plan.base), plan.gate.Some?, Everything)
  }

  lemma RestoresBaseBoth(plan: Plan, a: seq<Step>, b: seq<Step>)
    ensures RestoresBase(plan, a + b) <==> RestoresBase(plan, a) || RestoresBase(plan, b)
  {
    var up := Up(AtCommit(plan.base), plan.gate.Some?, Everything);
    if i :| 0 <= i < |a| && a[i].cmd == up {
      assert (a + b)[i].cmd == up;
    }
    if i :| 0 <= i < |b| && b[i].cmd == up {
      assert (a + b)[|a| + i].cmd == up;
    }
  }

  /** What the failure of a new version at the moment leads to. The base commit's up is issued exactly when
      rollbacks are enabled, there is a base to restore and the env files can be read at the up's moment. The
      failure reads rolled back exactly when that up passes its gate, and still unhealthy exactly when there
      is a gate that it does not pass. */
  ghost predicate RollsBack(host: Runner, at: nat, plan: Plan, status: FailureStatus, steps: seq<Step>) {
    var restorable := plan.rollbackEnabled && plan.reader && plan.base != "" && plan.restoreOk;
    && (RestoresBase(plan, steps) <==> restorable && host.envReadable(at + 1))
    && (status == RolledBack <==> restorable && GatePasses(host, at, plan))
    && (status == RolledBackUnhealthy <==> restorable && plan.gate.Some? && !GatePasses(host, at, plan))
  }

  // ---------- rollback ----------

  datatype Restored = Restored | StillUnhealthy | NotRestored

  method RunHooks(host: Runner, cmd: Command, count: nat) returns (ok: bool, ghost steps: seq<Step>)
    requires cmd.PreHook? || cmd.PostHook?
    modifies host
    ensures host.trace == old(host.trace) + steps && Begins(steps, Repeated(cmd, count))
    ensures ok <==> AllAnswer(host, old(host.clock), count)
    ensures ok ==> host.clock == old(host.clock) + count && steps == Repeated(cmd, count)
    ensures !ok ==> host.clock == StopsAt(host, old(host.clock), count)
    ensures !ok ==> steps != [] && !steps[|steps| - 1].ok
    ensures host.clock >= old(host.clock)
  {
    steps := [];
    for i := 0 to count
      invariant host.trace == old(host.trace) + steps && |steps| == i && host.clock == old(host.clock) + i
      invariant AllAnswer(host, old(host.clock), i)
      invariant steps == Repeated(cmd, i)
    {
      var passed := host.Run(cmd);
      steps := steps + [Step(cmd, passed, [])];
      if !passed {
        StopsAfterFailure(host, old(host.clock), i, count);
        return false, steps;
      }
    }
    return true, steps;
  }

  method ProbeHealth(host: Runner, plan: Plan) returns (ok: bool, ghost steps: seq<Step>)
    modifies host
    ensures host.trace == old(host.trace) + steps && host.clock == old(host.clock) + ProbeTicks(plan)
    ensures steps == if Probes(plan) then [Step(Command.Probe, ok, [])] else []
    ensures ok <==> (Probes(plan) ==> host.answers(old(host.clock)))
  {
    if !Probes(plan) {
      return true, [];
    }
    ok := host.Run(Command.Probe);
    steps := [Step(Command.Probe, ok, [])];
  }

  /** Restores the base commit's compose file, under the same gate as the deploy. */
  method RollbackStack(host: Runner, plan: Plan) returns (r: Restored, ghost steps: seq<Step>)
    modifies host
    ensures host.trace == old(host.trace) + steps && host.clock >= old(host.clock)
    ensures r.Restored? ==> plan.base != "" && steps == GatedUp(plan, AtCommit(plan.base))
    ensures r.Restored? <==>
              plan.reader && plan.base != "" && plan.restoreOk && GatePasses(host, old(host.clock), plan)
    ensures r.StillUnhealthy? <==> plan.reader && plan.base != "" && plan.restoreOk && plan.gate.Some?
                                     && !GatePasses(host, old(host.clock), plan)
    ensures RestoresBase(plan, steps) <==>
              plan.reader && plan.base != "" && plan.restoreOk && host.envReadable(old(host.clock) + 1)
    ensures forall i :: 0 <= i < |steps| ==>
              steps[i].cmd in {Up(AtCommit(plan.base), plan.gate.Some?, Everything), Command.Probe}
    ensures plan.base == "" || host.EnvUnreadable(old(host.clock), host.clock) ==> steps == []
  {
    if !plan.reader || plan.base == "" || !plan.restoreOk {
      return NotRestored, [];
    }
    var up;
    up, steps := host.Compose(Up(AtCommit(plan.base), plan.gate.Some?, Everything));
    assert host.envReadable(old(host.clock) + 1) ==> RestoresBase(plan, steps) by {
      assert host.envReadable(old(host.clock) + 1) ==> steps[0].cmd.Up?;
    }
    if !up {
      return if plan.gate.Some? then StillUnhealthy else NotRestored, steps;
    }
    ghost var probe;
    var healthy;
    healthy, probe := ProbeHealth(host, plan);
    RestoresBaseBoth(plan, steps, probe);
    steps := steps + probe;
    return if healthy then Restored.Restored else StillUnhealthy, steps;
  }

  /** A marked failure and the rollback it went through. */
  ghost predicate RolledBackBy(plan: Plan, f: Failure, steps: seq<Step>) {
    && f.marked && UpsAllowed(plan, steps) && NoRemoval(steps) && !AppliesClone(steps)
    && (f.status == RolledBack ==>
         plan.rollbackEnabled && plan.base != "" && steps == GatedUp(plan, AtCommit(plan.base)))
    && (f.status == RolledBackUnhealthy ==> plan.rollbackEnabled && plan.gate.Some?)
    && (!plan.rollbackEnabled ==> steps == [])
  }

  /** A failure after the new version was applied: marked, rolled back unless that is disabled. */
  method RollBackFailedDeploy(host: Runner, plan: Plan) returns (f: Failure, ghost steps: seq<Step>)
    modifies host
    ensures host.trace == old(host.trace) + steps && host.clock >= old(host.clock)
    ensures RolledBackBy(plan, f, steps)
    ensures RollsBack(host, old(host.clock), plan, f.status, steps)
    ensures host.EnvUnreadable(old(host.clock), host.clock) ==> steps == []
  {
    if !plan.rollbackEnabled {
      return Failure(true, Failed), [];
    }
    var r;
    r, steps := RollbackStack(host, plan);
    match r
    case Restored => return Failure(true, RolledBack), steps;
    case StillUnhealthy => return Failure(true, RolledBackUnhealthy), steps;
    case NotRestored => return Failure(true, Failed), steps;
  }

  // ---------- rollout ----------

  /** One service's cutover within the rollout. */
  datatype CutoverTrace = CutoverTrace(from: nat, steps: seq<Step>, result: Cutover, olds: set<string>,
                                       canaries: seq<string>)

  ghost function Flat(cuts: seq<CutoverTrace>): seq<Step> {
    if cuts == [] then [] else Flat(cuts[..|cuts| - 1]) + cuts[|cuts| - 1].steps
  }

  /** Each cutover was safe, and only the last one can have failed. */
  ghost predicate SafeCutovers(cuts: seq<CutoverTrace>, services: seq<string>) {
    && |cuts| <= |services|
    && (forall j :: 0 <= j < |cuts| ==> RolledAs(cuts[j], services[j]))
    && (forall j :: 0 <= j < |cuts| - 1 ==> cuts[j].result.Done?)
  }

  ghost predicate AllDone(cuts: seq<CutoverTrace>) {
    forall j :: 0 <= j < |cuts| ==> cuts[j].result.Done?
  }

  ghost predicate RolledAs(c: CutoverTrace, service: string) {
    Rolled(c.steps, service, c.result, c.olds, c.canaries)
  }

  /** How the environment decided a cutover that began at its moment: it is left in an unknown state exactly
      when its containers cannot be listed or its up fails, and then a fresh listing's new containers are
      removed; its canary is given up on only after so many polls. */
  ghost predicate Ran(host: Runner, c: CutoverTrace, service: string, polls: Polls) {
    && (c.result.Unknown? <==> !(host.answers(c.from) && host.Composes(c.from + 1)))
    && (c.result.Unknown? && c.olds != {} ==> CleansUp(c.steps, service, c.olds, if NoUp(c.steps) then 1 else 2))
    && (c.result.CanaryUnhealthy? ==> PolledFrom(c.steps, service, 2, polls))
  }

  /** Every cutover of the rollout ran so, the first of them at the moment. */
  ghost predicate AllRan(host: Runner, from: nat, cuts: seq<CutoverTrace>, services: seq<string>, polls: Polls) {
    && |cuts| <= |services| && (cuts != [] ==> cuts[0].from == from)
    && forall j :: 0 <= j < |cuts| ==> Ran(host, cuts[j], services[j], polls)
  }

  lemma FlatMore(cuts: seq<CutoverTrace>, c: CutoverTrace)
    ensures Flat(cuts + [c]) == Flat(cuts) + c.steps
    ensures NoUp(Flat(cuts + [c])) <==> NoUp(Flat(cuts)) && NoUp(c.steps)
  {
    assert (cuts + [c])[..|cuts|] == cuts;
    NoUpBoth(Flat(cuts), c.steps);
  }

  /** The cutovers begun at the moment, as far as they came up. */
  ghost predicate CameUpSoFar(host: Runner, from: nat, cuts: seq<CutoverTrace>, rp: RolloutPlan) {
    && SafeCutovers(cuts, rp.services) && AllDone(cuts)
    && AllRan(host, from, cuts, rp.services, rp.polls)
    && (!NoUp(Flat(cuts)) <==> cuts != []) && (cuts != [] ==> CutoverIssues(host, from))
  }

  lemma SafeMore(cuts: seq<CutoverTrace>, c: CutoverTrace, services: seq<string>)
    requires SafeCutovers(cuts, services) && AllDone(cuts) && |cuts| < |services|
    requires RolledAs(c, services[|cuts|])
    ensures SafeCutovers(cuts + [c], services)
    ensures c.result.Done? ==> AllDone(cuts + [c])
  {
    var all := cuts + [c];
    forall j | 0 <= j < |all|
      ensures RolledAs(all[j], services[j]) && (j < |cuts| ==> all[j].result.Done?)
    {
      assert j < |cuts| ==> all[j] == cuts[j];
    }
  }

  lemma RanMore(host: Runner, from: nat, cuts: seq<CutoverTrace>, c: CutoverTrace, rp: RolloutPlan)
    requires AllRan(host, from, cuts, rp.services, rp.polls) && |cuts| < |rp.services|
    requires Ran(host, c, rp.services[|cuts|], rp.polls) && (cuts == [] ==> c.from == from)
    ensures AllRan(host, from, cuts + [c], rp.services, rp.polls)
  {
    var all := cuts + [c];
    forall j | 0 <= j < |all|
      ensures Ran(host, all[j], rp.services[j], rp.polls)
    {
      assert j < |cuts| ==> all[j] == cuts[j];
    }
  }

  lemma OneMoreCut(host: Runner, from: nat, cuts: seq<CutoverTrace>, c: CutoverTrace, rp: RolloutPlan)
    requires CameUpSoFar(host, from, cuts, rp) && |cuts| < |rp.services| && (cuts == [] ==> c.from == from)
    requires RolledAs(c, rp.services[|cuts|]) && Ran(host, c, rp.services[|cuts|], rp.polls)
    requires !NoUp(c.steps) <==> CutoverIssues(host, c.from)
    requires c.result.Done? ==> !NoUp(c.steps)
    ensures SafeCutovers(cuts + [c], rp.services) && AllRan(host, from, cuts + [c], rp.services, rp.polls)
    ensures !NoUp(Flat(cuts + [c])) <==> CutoverIssues(host, from)
    ensures c.result.Done? ==> CameUpSoFar(host, from, cuts + [c], rp)
  {
    FlatMore(cuts, c);
    SafeMore(cuts, c, rp.services);
    RanMore(host, from, cuts, c, rp);
  }

  /** One service's cutover, with its trace. */
  method CutOverNext(host: Runner, service: string, polls: Polls) returns (result: Cutover, ghost c: CutoverTrace)
    modifies host
    ensures host.trace == old(host.trace) + c.steps && host.clock >= old(host.clock)
    ensures RolledAs(c, service) && c.result == result
    ensures c.from == old(host.clock) && Ran(host, c, service, polls)
    ensures !NoUp(c.steps) <==> CutoverIssues(host, old(host.clock))
    ensures result.Done? ==> !NoUp(c.steps)
  {
    ghost var steps, olds, canaries;
    ghost var from := host.clock;
    result, steps, olds, canaries := RollService(host, service, polls);
    c := CutoverTrace(from, steps, result, olds, canaries);
  }

  /** Cuts the services over in order, up to the first that fails. */
  method RollServices(host: Runner, rp: RolloutPlan) returns (result: Cutover, ghost cuts: seq<CutoverTrace>)
    modifies host
    ensures host.trace == old(host.trace) + Flat(cuts) && SafeCutovers(cuts, rp.services)
    ensures host.clock >= old(host.clock) && AllRan(host, old(host.clock), cuts, rp.services, rp.polls)
    ensures result.Done? ==> |cuts| == |rp.services| && AllDone(cuts)
    ensures !result.Done? ==> cuts != [] && cuts[|cuts| - 1].result == result
    ensures !NoUp(Flat(cuts)) <==> rp.services != [] && CutoverIssues(host, old(host.clock))
    ensures result.Done? && rp.services != [] ==> CutoverIssues(host, old(host.clock))
  {
    cuts := [];
    for j := 0 to |rp.services|
      invariant host.trace == old(host.trace) + Flat(cuts) && |cuts| == j
      invariant host.clock >= old(host.clock) && (j == 0 ==> host.clock == old(host.clock))
      invariant CameUpSoFar(host, old(host.clock), cuts, rp)
    {
      var r;
      ghost var c;
      r, c := CutOverNext(host, rp.services[j], rp.polls);
      Joined(old(host.trace), Flat(cuts), c.steps);
      FlatMore(cuts, c);
      OneMoreCut(host, old(host.clock), cuts, c, rp);
      cuts := cuts + [c];
      if !r.Done? {
        return r, cuts;
      }
    }
    return Done, cuts;
  }

  /** The cutovers stand together in the trace, and nothing is stopped or removed outside them. */
  ghost predicate CutoversWithin(rp: RolloutPlan, steps: seq<Step>, cuts: seq<CutoverTrace>, at: nat) {
    && SafeCutovers(cuts, rp.services)
    && at + |Flat(cuts)| <= |steps| && steps[at..at + |Flat(cuts)|] == Flat(cuts)
    && NoRemoval(steps[..at]) && NoRemoval(steps[at + |Flat(cuts)|..])
  }

  lemma WithinAll(rp: RolloutPlan, head: seq<Step>, cuts: seq<CutoverTrace>, tail: seq<Step>)
    requires SafeCutovers(cuts, rp.services) && NoRemoval(head) && NoRemoval(tail)
    ensures CutoversWithin(rp, head + Flat(cuts) + tail, cuts, |head|)
  {
    var steps := head + Flat(cuts) + tail;
    assert steps[..|head|] == head && steps[|head| + |Flat(cuts)|..] == tail;
    assert steps[|head|..|head| + |Flat(cuts)|] == Flat(cuts);
  }

  lemma WithinMore(rp: RolloutPlan, before: seq<Step>, steps: seq<Step>, after: seq<Step>, cuts: seq<CutoverTrace>,
                   at: nat)
    requires CutoversWithin(rp, steps, cuts, at) && NoRemoval(before) && NoRemoval(after)
    ensures CutoversWithin(rp, before + steps + after, cuts, |before| + at)
  {
    var all, n := before + steps + after, |Flat(cuts)|;
    assert all[|before| + at..|before| + at + n] == steps[at..at + n];
    assert all[..|before| + at] == before + steps[..at];
    assert all[|before| + at + n..] == steps[at + n..] + after;
  }

  /** The rollout was rolled back: restored from the base commit, or stopped at an unhealthy canary, which
      left the old containers serving. */
  ghost predicate RolloutRolledBack(plan: Plan, steps: seq<Step>, cuts: seq<CutoverTrace>) {
    EndsRestored(plan, steps) || CanaryFailed(cuts)
  }

  /** How a rollout ends, by the three parts of its trace: the other services' up, the cutovers, and the
      restoring rollback. An unhealthy canary is reported as rolled back without touching anything else; an
      unknown state takes the rollback. */
  ghost predicate RolloutEnds(plan: Plan, rp: RolloutPlan, f: Option<Failure>,
                              head: seq<Step>, cuts: seq<CutoverTrace>, tail: seq<Step>)
  {
    && SafeCutovers(cuts, rp.services)
    && (forall i :: 0 <= i < |head| ==> head[i].cmd == Up(Clone, plan.gate.Some?, Only(rp.others)))
    && (f.None? ==> tail == [] && |cuts| == |rp.services| && AllDone(cuts))
    && (f.Some? && !f.value.marked ==> head == [] && cuts == [] && tail == [] && f.value.status == Failed)
    && (f.Some? && f.value.marked ==>
          if CanaryFailed(cuts) then f.value.status == RolledBack && tail == [] else RolledBackBy(plan, f.value, tail))
  }

  ghost predicate CanaryFailed(cuts: seq<CutoverTrace>) {
    cuts != [] && cuts[|cuts| - 1].result.CanaryUnhealthy?
  }

  /** What a failure at the moment leads to: an unhealthy canary is reported as rolled back and restores
      nothing, since the old containers never stopped serving. */
  ghost predicate Recovers(host: Runner, at: nat, plan: Plan, f: Failure, steps: seq<Step>,
                           cuts: seq<CutoverTrace>)
  {
    if CanaryFailed(cuts) then f.status == RolledBack && !RestoresBase(plan, steps)
    else RollsBack(host, at, plan, f.status, steps)
  }

  /** The other services and every cutover came up. */
  ghost predicate AllCameUp(host: Runner, from: nat, rp: RolloutPlan, cuts: seq<CutoverTrace>) {
    (rp.others != [] ==> host.Composes(from)) && |cuts| == |rp.services| && AllDone(cuts)
  }

  /** When the cutovers begin: after the other services' up. */
  function CutsFrom(from: nat, rp: RolloutPlan): nat {
    if rp.others == [] then from else from + 2
  }

  /** The cutovers begin exactly when the other services came up, and run as the environment decides. */
  ghost predicate CutsAreMade(host: Runner, from: nat, rp: RolloutPlan, cuts: seq<CutoverTrace>) {
    && AllRan(host, CutsFrom(from, rp), cuts, rp.services, rp.polls)
    && (cuts != [] <==> rp.services != [] && (rp.others != [] ==> host.Composes(from)))
  }

  /** How the rollout itself came out: it succeeded exactly when everything came up. */
  ghost predicate CameOut(host: Runner, from: nat, at: nat, plan: Plan, rp: RolloutPlan, f: Option<Failure>,
                          cuts: seq<CutoverTrace>, tail: seq<Step>)
  {
    && CutsAreMade(host, from, rp, cuts)
    && (f.None? <==> AllCameUp(host, from, rp, cuts))
    && (f.Some? ==> Recovers(host, at, plan, f.value, tail, cuts))
  }

  /** A rollout that ended before its first cutover. */
  lemma EndsEarly(before: seq<Step>, plan: Plan, rp: RolloutPlan, f: Failure, head: seq<Step>, tail: seq<Step>)
    requires forall i :: 0 <= i < |head| ==> head[i].cmd == Up(Clone, plan.gate.Some?, Only(rp.others))
    requires if f.marked then RolledBackBy(plan, f, tail) else head == [] && tail == [] && f.status == Failed
    ensures RolloutEnds(plan, rp, Some(f), head, [], tail)
    ensures before + head + Flat([]) + tail == before + head + tail && NoUp(Flat([]))
  {
    assert before + head + Flat([]) == before + head;
  }

  /** The cutovers, and the restoring rollback when one leaves an unknown state. */
  method CutOverServices(host: Runner, plan: Plan, rp: RolloutPlan, ghost head: seq<Step>)
    returns (f: Option<Failure>, ghost cuts: seq<CutoverTrace>, ghost tail: seq<Step>, ghost at: nat)
    requires forall i :: 0 <= i < |head| ==> head[i].cmd == Up(Clone, plan.gate.Some?, Only(rp.others))
    modifies host
    ensures host.trace == old(host.trace) + Flat(cuts) + tail && old(host.clock) <= at <= host.clock
    ensures AllRan(host, old(host.clock), cuts, rp.services, rp.polls) && (cuts != [] <==> rp.services != [])
    ensures f.None? <==> |cuts| == |rp.services| && AllDone(cuts)
    ensures f.Some? ==> Recovers(host, at, plan, f.value, tail, cuts)
    ensures RolloutEnds(plan, rp, f, head, cuts, tail) && (f.None? || f.value.marked)
    ensures !NoUp(Flat(cuts)) <==> rp.services != [] && CutoverIssues(host, old(host.clock))
    ensures f.None? && rp.services != [] ==> CutoverIssues(host, old(host.clock))
  {
    var result;
    result, cuts := RollServices(host, rp);
    tail, at := [], host.clock;
    match result
    case Done =>
      f := None;
    case CanaryUnhealthy =>
      f := Some(Failure(true, RolledBack));
    case Unknown =>
      var failure;
      failure, tail := RollBackFailedDeploy(host, plan);
      f := Some(failure);
  }

  /** How the rollout ran: its error is unmarked exactly when the rollout cannot be used, and it issues an up
      of the new version exactly when its first one is issued. */
  ghost predicate RolloutRan(host: Runner, from: nat, at: nat, plan: Plan, rp: RolloutPlan, f: Option<Failure>,
                             head: seq<Step>, cuts: seq<CutoverTrace>, tail: seq<Step>)
  {
    && RolloutEnds(plan, rp, f, head, cuts, tail)
    && (f.Some? && !f.value.marked <==> !Usable(plan))
    && (!NoUp(head) || !NoUp(Flat(cuts)) <==> Usable(plan) && RolloutIssues(host, from, rp))
    && (f.None? && NamesServices(rp) ==> RolloutIssues(host, from, rp))
    && (Usable(plan) ==> CameOut(host, from, at, plan, rp, f, cuts, tail))
  }

  method UpOthers(host: Runner, plan: Plan, rp: RolloutPlan) returns (ok: bool, ghost head: seq<Step>)
    modifies host
    ensures host.trace == old(host.trace) + head && host.clock >= old(host.clock)
    ensures ok <==> (rp.others != [] ==> host.Composes(old(host.clock)))
    ensures ok ==> host.clock == CutsFrom(old(host.clock), rp)
    ensures forall i :: 0 <= i < |head| ==> head[i].cmd == Up(Clone, plan.gate.Some?, Only(rp.others))
    ensures !NoUp(head) <==> rp.others != [] && host.envReadable(old(host.clock) + 1)
  {
    ok, head := true, [];
    if |rp.others| > 0 {
      ok, head := host.Compose(Up(Clone, plan.gate.Some?, Only(rp.others)));
    }
  }

  /** The other services first, then the cutovers. */
  method UpThenCutOver(host: Runner, plan: Plan, rp: RolloutPlan)
    returns (f: Option<Failure>, ghost head: seq<Step>, ghost cuts: seq<CutoverTrace>, ghost tail: seq<Step>,
             ghost at: nat)
    modifies host
    ensures host.trace == old(host.trace) + head + Flat(cuts) + tail && old(host.clock) <= at <= host.clock
    ensures CameOut(host, old(host.clock), at, plan, rp, f, cuts, tail)
    ensures RolloutEnds(plan, rp, f, head, cuts, tail) && (f.None? || f.value.marked)
    ensures !NoUp(head) || !NoUp(Flat(cuts)) <==> RolloutIssues(host, old(host.clock), rp)
    ensures f.None? && NamesServices(rp) ==> RolloutIssues(host, old(host.clock), rp)
  {
    var up;
    up, head := UpOthers(host, plan, rp);
    if !up {
      var failure;
      at := host.clock;
      failure, tail := RollBackFailedDeploy(host, plan);
      EndsEarly(old(host.trace), plan, rp, failure, head, tail);
      return Some(failure), head, [], tail, at;
    }
    f, cuts, tail, at := CutOverServices(host, plan, rp, head);
  }

  /** The rollout. */
  method RollOut(host: Runner, plan: Plan, rp: RolloutPlan)
    returns (f: Option<Failure>, ghost head: seq<Step>, ghost cuts: seq<CutoverTrace>, ghost tail: seq<Step>,
             ghost at: nat)
    requires plan.rollout == Some(rp)
    modifies host
    ensures host.trace == old(host.trace) + head + Flat(cuts) + tail && old(host.clock) <= at <= host.clock
    ensures RolloutRan(host, old(host.clock), at, plan, rp, f, head, cuts, tail)
  {
    if !rp.readable || !rp.parsed || !rp.valid {
      EndsEarly(host.trace, plan, rp, Failure(false, Failed), [], []);
      return Some(Failure(false, Failed)), [], [], [], host.clock;
    }
    f, head, cuts, tail, at := UpThenCutOver(host, plan, rp);
  }

  /** Whatever step of the cutovers names a service or a container, the service is one whose turn came, and
      the container was listed for such a service earlier: an unhealthy canary leaves every later service
      untouched. */
  ghost predicate WithinTurn(steps: seq<Step>, turned: seq<string>, i: nat)
    requires i < |steps|
  {
    var c := steps[i].cmd;
    && (c.Read? ==> c.service in turned)
    && (c.Up? ==> c.version == Clone && exists s :: s in turned && Targets(c.target, s))
    && (Removes(steps[i]) ==> exists s :: s in turned && ListedIn(steps[..i], s, c.id))
  }

  lemma CutoverWithinTurn(before: seq<Step>, steps: seq<Step>, turned: seq<string>, s: string, i: nat)
    requires i < |steps| && s in turned && AboutOnly(steps, s) && TouchesListed(steps, s, {})
    ensures WithinTurn(before + steps, turned, |before| + i)
  {
    var all := before + steps;
    assert all[|before| + i] == steps[i] && all[..|before| + i] == before + steps[..i];
    if Removes(steps[i]) {
      ListedLater(before, steps[..i], s, steps[i].cmd.id);
    }
  }

  lemma EarlierWithinTurn(steps: seq<Step>, after: seq<Step>, turned: seq<string>, more: seq<string>, i: nat)
    requires i < |steps| && WithinTurn(steps, turned, i) && forall s :: s in turned ==> s in more
    ensures WithinTurn(steps + after, more, i)
  {
    assert (steps + after)[i] == steps[i] && (steps + after)[..i] == steps[..i];
  }

  lemma {:induction false} LaterServicesUntouched(cuts: seq<CutoverTrace>, services: seq<string>, i: nat)
    requires SafeCutovers(cuts, services) && i < |Flat(cuts)|
    ensures WithinTurn(Flat(cuts), services[..|cuts|], i)
  {
    var front, last := cuts[..|cuts| - 1], cuts[|cuts| - 1];
    var s := services[|cuts| - 1];
    assert s in services[..|cuts|] && RolledAs(last, s);
    if i < |Flat(front)| {
      LaterServicesUntouched(front, services, i);
      EarlierWithinTurn(Flat(front), last.steps, services[..|front|], services[..|cuts|], i);
    } else {
      CutoverWithinTurn(Flat(front), last.steps, services[..|cuts|], s, i - |Flat(front)|);
    }
  }

  lemma CutoversApplyClone(plan: Plan, cuts: seq<CutoverTrace>, services: seq<string>)
    requires SafeCutovers(cuts, services)
    ensures UpsAllowed(plan, Flat(cuts)) && (AppliesClone(Flat(cuts)) <==> !NoUp(Flat(cuts)))
    ensures !RestoresBase(plan, Flat(cuts))
  {
    forall i | 0 <= i < |Flat(cuts)|
      ensures Flat(cuts)[i].cmd.Up? ==> Flat(cuts)[i].cmd.version == Clone
    {
      LaterServicesUntouched(cuts, services, i);
    }
  }

  // ---------- the pipeline ----------

  method ComposeWhen(host: Runner, wanted: bool, cmd: Command) returns (ok: bool, ghost steps: seq<Step>)
    modifies host
    ensures host.trace == old(host.trace) + steps && Begins(steps, When(wanted, cmd))
    ensures ok <==> (wanted ==> host.Composes(old(host.clock)))
    ensures ok ==> steps == When(wanted, cmd) && host.clock == old(host.clock) + (if wanted then 2 else 0)
    ensures host.clock >= old(host.clock)
  {
    ok, steps := true, [];
    if wanted {
      ok, steps := host.Compose(cmd);
    }
  }

  lemma NothingTouched(plan: Plan)
    ensures NoUp(PreparedTrace(plan)) && NoRemoval(PreparedTrace(plan))
    ensures forall stopped :: NoUp(Checks(plan, stopped)) && NoRemoval(Checks(plan, stopped))
  {
  }

  method PullAndBuild(host: Runner, plan: Plan) returns (ok: bool, ghost steps: seq<Step>)
    modifies host
    ensures host.trace == old(host.trace) + steps && Begins(steps, When(plan.pulls, Pull) + When(plan.builds, Build))
    ensures ok <==> PullsAndBuilds(host, old(host.clock), plan)
    ensures ok ==> steps == When(plan.pulls, Pull) + When(plan.builds, Build)
    ensures ok ==> host.clock == old(host.clock) + (if plan.pulls then 2 else 0) + (if plan.builds then 2 else 0)
    ensures host.clock >= old(host.clock)
  {
    ghost var more;
    ok, steps := ComposeWhen(host, plan.pulls, Pull);
    if ok {
      ok, more := ComposeWhen(host, plan.builds, Build);
      steps := steps + more;
    }
  }

  /** Hooks, pull and build: everything before a container is touched. */
  method Prepare(host: Runner, plan: Plan) returns (ok: bool, ghost steps: seq<Step>)
    modifies host
    ensures host.trace == old(host.trace) + steps
    ensures ok <==> Prepares(host, old(host.clock), plan)
    ensures Begins(steps, PreparedTrace(plan)) && (ok ==> steps == PreparedTrace(plan))
    ensures host.clock >= old(host.clock) && (ok ==> host.clock == old(host.clock) + PrepareTicks(plan))
  {
    ghost var more, images := [], When(plan.pulls, Pull) + When(plan.builds, Build);
    if !plan.contextsOk {
      return false, [];
    }
    ok, steps := RunHooks(host, PreHook, plan.preHooks);
    if ok {
      ok, more := PullAndBuild(host, plan);
      BeginsFurther(steps, more, images, []);
    } else {
      BeginsFurther([], steps, Repeated(PreHook, plan.preHooks), images);
    }
    steps := steps + more;
  }

  /** The probe and the post hooks after the new version is up, and the on-demand stop. */
  method Verify(host: Runner, plan: Plan) returns (ok: bool, ghost steps: seq<Step>, ghost stopped: bool)
    modifies host
    ensures host.trace == old(host.trace) + steps
    ensures ok <==> ChecksPass(host, old(host.clock), plan)
    ensures ok ==> steps == Checks(plan, stopped)
    ensures !ok ==> host.clock == ChecksFailAt(host, old(host.clock), plan) && Begins(steps, Checks(plan, true))
    ensures host.clock >= old(host.clock)
  {
    stopped := true;
    ok, steps := ProbeHealth(host, plan);
    if !ok {
      return;
    }
    ghost var hooks;
    ok, hooks := RunHooks(host, PostHook, plan.postHooks);
    if !ok {
      BeginsFurther(steps, hooks, Repeated(PostHook, plan.postHooks), When(plan.onDemand, StopOnDemand));
      steps := steps + hooks;
      return;
    }
    steps := steps + hooks;
    if plan.onDemand {
      var done := host.Run(StopOnDemand);
      stopped, steps := done, steps + [Step(StopOnDemand, done, [])];
    }
  }

  lemma ChecksAreHarmless(plan: Plan, ok: bool, checks: seq<Step>, stopped: bool)
    requires if ok then checks == Checks(plan, stopped) else Begins(checks, Checks(plan, true))
    ensures NoUp(checks) && NoRemoval(checks) && (ok ==> EndsChecked(plan, checks))
  {
    assert ok ==> EndsWith(checks, Checks(plan, stopped));
    NothingTouched(plan);
    if !ok {
      BeginsHarmless(checks, Checks(plan, true));
    }
  }

  /** What a rollout promises beyond that. */
  ghost predicate RolloutKeeps(plan: Plan, rp: RolloutPlan, f: Option<Failure>,
                               steps: seq<Step>, cuts: seq<CutoverTrace>, at: nat)
  {
    && Keeps(plan, f, steps) && CutoversWithin(rp, steps, cuts, at)
    && (f.None? ==> |cuts| == |rp.services| && AllDone(cuts))
    && (f.Some? && f.value.status == RolledBack ==> RolloutRolledBack(plan, steps, cuts))
  }

  /** The trace of a rollout, from its parts. */
  lemma {:induction false} RolloutTrace(plan: Plan, rp: RolloutPlan, f: Option<Failure>, head: seq<Step>,
                                        cuts: seq<CutoverTrace>, tail: seq<Step>)
    requires plan.rollout.Some? && RolloutEnds(plan, rp, f, head, cuts, tail)
    ensures RolloutKeeps(plan, rp, f, head + Flat(cuts) + tail, cuts, |head|)
    ensures AppliesClone(head + Flat(cuts) + tail) <==> !NoUp(head) || !NoUp(Flat(cuts))
    ensures RestoresBase(plan, head + Flat(cuts) + tail) <==> RestoresBase(plan, tail)
  {
    RestoresBaseBoth(plan, head, Flat(cuts));
    RestoresBaseBoth(plan, head + Flat(cuts), tail);
    CutoversApplyClone(plan, cuts, rp.services);
    WithinAll(rp, head, cuts, tail);
    AppliesCloneBoth(head, Flat(cuts));
    AppliesCloneBoth(head + Flat(cuts), tail);
    NoUpBoth(head, Flat(cuts));
    NoUpBoth(head + Flat(cuts), tail);
  }

  /** When the checks began, and when what failed had failed. */
  datatype Moments = Moments(checks: nat, fails: nat)

  /** How applying the new version, begun at the moment, came out: it succeeded exactly when everything came
      up and passed its checks, and every other outcome was recovered from. */
  ghost predicate Concludes(host: Runner, from: nat, when: Moments, plan: Plan, f: Option<Failure>,
                            steps: seq<Step>, cuts: seq<CutoverTrace>)
  {
    if plan.rollout.None? then InPlaceConcludes(host, from, plan, f, steps)
    else RolloutConcludes(host, from, when, plan, plan.rollout.value, f, steps, cuts)
  }

  ghost predicate InPlaceConcludes(host: Runner, from: nat, plan: Plan, f: Option<Failure>, steps: seq<Step>) {
    && (f.None? <==> host.Composes(from) && ChecksPass(host, from + 2, plan))
    && (f.None? ==> EndsChecked(plan, steps))
    && (f.Some? ==> RollsBack(host, FailsAt(host, from, plan), plan, f.value.status, steps))
  }

  ghost predicate RolloutConcludes(host: Runner, from: nat, when: Moments, plan: Plan, rp: RolloutPlan,
                                   f: Option<Failure>, steps: seq<Step>, cuts: seq<CutoverTrace>)
  {
    && CutsAreMade(host, from, rp, cuts)
    && (f.None? <==> AllCameUp(host, from, rp, cuts) && ChecksPass(host, when.checks, plan))
    && (f.None? ==> EndsChecked(plan, steps))
    && (f.Some? ==> Recovers(host, when.fails, plan, f.value, steps, cuts))
    && (f.Some? && AllCameUp(host, from, rp, cuts) ==> when.fails == ChecksFailAt(host, when.checks, plan))
  }

  /** A rollout that succeeded, then passed its checks, or failed them and was rolled back. */
  lemma RolloutChecked(plan: Plan, rp: RolloutPlan, f: Option<Failure>, steps: seq<Step>, checks: seq<Step>,
                       rollback: seq<Step>, cuts: seq<CutoverTrace>, at: nat)
    requires plan.rollout.Some? && RolloutKeeps(plan, rp, None, steps, cuts, at)
    requires NoUp(checks) && NoRemoval(checks)
    requires if f.None? then rollback == [] else RolledBackBy(plan, f.value, rollback)
    ensures RolloutKeeps(plan, rp, f, steps + checks + rollback, cuts, at)
    ensures AppliesClone(steps + checks + rollback) <==> AppliesClone(steps)
  {
    AppliesCloneBoth(steps, checks);
    AppliesCloneBoth(steps + checks, rollback);
    NoUpBoth(steps, checks);
    NoUpBoth(steps + checks, rollback);
    WithinMore(rp, [], steps, checks + rollback, cuts, at);
    assert [] + steps + (checks + rollback) == steps + checks + rollback;
  }

  lemma RolloutEnding(plan: Plan, steps: seq<Step>, checks: seq<Step>, rollback: seq<Step>)
    requires NoUp(checks)
    ensures RestoresBase(plan, steps + checks + rollback) <==> RestoresBase(plan, steps) || RestoresBase(plan, rollback)
    ensures rollback == [] && EndsChecked(plan, checks) ==> EndsChecked(plan, steps + checks + rollback)
  {
    RestoresBaseBoth(plan, steps, checks);
    RestoresBaseBoth(plan, steps + checks, rollback);
    if rollback == [] && EndsChecked(plan, checks) {
      EndsCheckedLater(plan, steps, checks);
      assert steps + checks + rollback == steps + checks;
    }
  }

  /** The rollout, verified, or rolled back. */
  method UpByRollout(host: Runner, plan: Plan, rp: RolloutPlan)
    returns (f: Option<Failure>, ghost steps: seq<Step>, ghost cuts: seq<CutoverTrace>, ghost at: nat,
             ghost when: Moments)
    requires plan.rollout == Some(rp)
    modifies host
    ensures host.trace == old(host.trace) + steps && host.clock >= old(host.clock)
    ensures RolloutKeeps(plan, rp, f, steps, cuts, at)
    ensures if Usable(plan) then Concludes(host, old(host.clock), when, plan, f, steps, cuts) else steps == []
    ensures f.Some? && !f.value.marked <==> !Usable(plan)
    ensures AppliesClone(steps) <==> Usable(plan) && RolloutIssues(host, old(host.clock), rp)
    ensures f.None? && NamesServices(rp) ==> AppliesClone(steps)
  {
    ghost var head, tail, checks, rollback;
    ghost var failed;
    f, head, cuts, tail, failed := RollOut(host, plan, rp);
    when := Moments(host.clock, failed);
    steps, at := head + Flat(cuts) + tail, |head|;
    Joined(old(host.trace), head, Flat(cuts));
    Joined(old(host.trace), head + Flat(cuts), tail);
    RolloutTrace(plan, rp, f, head, cuts, tail);
    if f.Some? {
      return;
    }
    var verified;
    ghost var stopped;
    verified, checks, stopped := Verify(host, plan);
    ChecksAreHarmless(plan, verified, checks, stopped);
    rollback := [];
    if !verified {
      var failure;
      when := when.(fails := host.clock);
      failure, rollback := RollBackFailedDeploy(host, plan);
      f := Some(failure);
    }
    RolloutChecked(plan, rp, f, steps, checks, rollback, cuts, at);
    RolloutEnding(plan, steps, checks, rollback);
    Joined(old(host.trace), steps, checks);
    Joined(old(host.trace), steps + checks, rollback);
    steps := steps + checks + rollback;
  }

  /** The trace of an in-place recreate that failed. */
  lemma RolledBackTrace(plan: Plan, f: Failure, up: seq<Step>, checks: seq<Step>, rollback: seq<Step>)
    requires plan.rollout.None?
    requires forall i :: 0 <= i < |up| ==> up[i].cmd == Up(Clone, plan.gate.Some?, Everything)
    requires NoUp(checks) && NoRemoval(checks) && RolledBackBy(plan, f, rollback)
    ensures Keeps(plan, Some(f), up + checks + rollback) && NoRemoval(up + checks + rollback)
    ensures NoUp(up + checks + rollback) <==> up == [] && NoUp(rollback)
    ensures AppliesClone(up + checks + rollback) <==> up != []
    ensures RestoresBase(plan, up + checks + rollback) <==> RestoresBase(plan, rollback)
  {
    RestoresBaseBoth(plan, up, checks);
    RestoresBaseBoth(plan, up + checks, rollback);
    AppliesCloneBoth(up, checks);
    AppliesCloneBoth(up + checks, rollback);
    NoUpBoth(up, checks);
    NoUpBoth(up + checks, rollback);
    if up != [] {
      assert up[0].cmd.Up?;
    }
  }

  /** And of one that passed. */
  lemma DeployedTrace(plan: Plan, up: seq<Step>, checks: seq<Step>, stopped: bool)
    requires NoUp(checks) && NoRemoval(checks) && checks == Checks(plan, stopped)
    requires up == [Step(Up(Clone, plan.gate.Some?, Everything), true, [])]
    ensures Keeps(plan, None, up + checks) && NoRemoval(up + checks) && AppliesClone(up + checks)
    ensures Deploys(plan, up + checks) && EndsChecked(plan, up + checks)
  {
    var steps := up + checks;
    assert steps[0].cmd.Up?;
    assert steps == Deployment(plan, stopped) && EndsWith(steps, Checks(plan, stopped));
  }

  /** The up of the clone's version, and its checks: when they fail is known. */
  method UpAndVerify(host: Runner, plan: Plan) returns (ok: bool, ghost up: seq<Step>, ghost checks: seq<Step>,
                                                   ghost stopped: bool)
    modifies host
    ensures host.trace == old(host.trace) + up + checks && host.clock > old(host.clock)
    ensures ok <==> host.Composes(old(host.clock)) && ChecksPass(host, old(host.clock) + 2, plan)
    ensures !ok ==> host.clock == FailsAt(host, old(host.clock), plan)
    ensures up == [] <==> !host.envReadable(old(host.clock) + 1)
    ensures forall i :: 0 <= i < |up| ==> up[i].cmd == Up(Clone, plan.gate.Some?, Everything)
    ensures ok ==> up == [Step(Up(Clone, plan.gate.Some?, Everything), true, [])]
    ensures ok ==> checks == Checks(plan, stopped)
    ensures NoUp(checks) && NoRemoval(checks)
  {
    checks, stopped := [], true;
    ok, up := host.Compose(Up(Clone, plan.gate.Some?, Everything));
    if ok {
      ok, checks, stopped := Verify(host, plan);
      ChecksAreHarmless(plan, ok, checks, stopped);
    }
  }

  /** The in-place recreate, verified, or rolled back. The new version's up is issued exactly when the env
      files can be read at its moment; the error is marked all the same. */
  method UpInPlace(host: Runner, plan: Plan) returns (f: Option<Failure>, ghost steps: seq<Step>)
    requires plan.rollout.None?
    modifies host
    ensures host.trace == old(host.trace) + steps && host.clock >= old(host.clock)
    ensures Keeps(plan, f, steps) && NoRemoval(steps)
    ensures f.Some? ==> f.value.marked
    ensures f.None? ==> Deploys(plan, steps)
    ensures InPlaceConcludes(host, old(host.clock), plan, f, steps)
    ensures AppliesClone(steps) <==> host.envReadable(old(host.clock) + 1)
    ensures !AppliesClone(steps) ==> f.Some?
    ensures host.EnvUnreadable(old(host.clock), host.clock) ==> f.Some? && NoUp(steps)
  {
    ghost var up, checks, stopped, rollback;
    var ok;
    ok, up, checks, stopped := UpAndVerify(host, plan);
    if ok {
      DeployedTrace(plan, up, checks, stopped);
      Joined(old(host.trace), up, checks);
      return None, up + checks;
    }
    var failure;
    failure, rollback := RollBackFailedDeploy(host, plan);
    RolledBackTrace(plan, failure, up, checks, rollback);
    Joined(old(host.trace), up, checks);
    Joined(old(host.trace), up + checks, rollback);
    return Some(failure), up + checks + rollback;
  }

  lemma EndsCheckedLater(plan: Plan, before: seq<Step>, steps: seq<Step>)
    requires EndsChecked(plan, steps)
    ensures EndsChecked(plan, before + steps)
  {
    var stopped :| EndsWith(steps, Checks(plan, stopped));
    EndsWithLater(before, steps, Checks(plan, stopped));
  }

  /** Preparing first changes nothing that is promised. */
  lemma PreparedFirst(plan: Plan, f: Option<Failure>, prepared: seq<Step>, steps: seq<Step>)
    requires NoUp(prepared) && Keeps(plan, f, steps)
    ensures Keeps(plan, f, prepared + steps)
    ensures NoUp(prepared + steps) <==> NoUp(steps)
    ensures AppliesClone(prepared + steps) <==> AppliesClone(steps)
    ensures EndsRestored(plan, steps) ==> EndsRestored(plan, prepared + steps)
  {
    NoUpBoth(prepared, steps);
    AppliesCloneBoth(prepared, steps);
    if EndsRestored(plan, steps) {
      EndsWithLater(prepared, steps, GatedUp(plan, AtCommit(plan.base)));
    }
  }

  lemma PreparedRollout(plan: Plan, rp: RolloutPlan, f: Option<Failure>, prepared: seq<Step>, steps: seq<Step>,
                        cuts: seq<CutoverTrace>, at: nat)
    requires NoUp(prepared) && NoRemoval(prepared) && RolloutKeeps(plan, rp, f, steps, cuts, at)
    ensures RolloutKeeps(plan, rp, f, prepared + steps, cuts, |prepared| + at)
  {
    PreparedFirst(plan, f, prepared, steps);
    WithinMore(rp, prepared, steps, [], cuts, at);
    assert prepared + steps + [] == prepared + steps;
  }

  /** Containers are removed in safe cutovers, or not at all. */
  ghost predicate RemovesSafely(plan: Plan, f: Option<Failure>, steps: seq<Step>, cuts: seq<CutoverTrace>, at: nat) {
    if plan.rollout.None? then NoRemoval(steps) else RolloutKeeps(plan, plan.rollout.value, f, steps, cuts, at)
  }

  /** Both parts of what an apply promises of its trace. */
  ghost predicate Promises(plan: Plan, f: Option<Failure>, steps: seq<Step>, cuts: seq<CutoverTrace>, at: nat) {
    Keeps(plan, f, steps) && RemovesSafely(plan, f, steps, cuts, at)
  }

  lemma PromisesAfter(plan: Plan, f: Option<Failure>, prepared: seq<Step>, steps: seq<Step>,
                      cuts: seq<CutoverTrace>, at: nat)
    requires NoUp(prepared) && NoRemoval(prepared) && Promises(plan, f, steps, cuts, at)
    ensures Promises(plan, f, prepared + steps, cuts, |prepared| + at)
    ensures NoUp(prepared + steps) <==> NoUp(steps)
    ensures AppliesClone(prepared + steps) <==> AppliesClone(steps)
  {
    PreparedFirst(plan, f, prepared, steps);
    if plan.rollout.Some? {
      PreparedRollout(plan, plan.rollout.value, f, prepared, steps, cuts, at);
    }
  }

  lemma PreparedIsHarmless(plan: Plan, prepared: seq<Step>)
    requires Begins(prepared, PreparedTrace(plan))
    ensures NoUp(prepared) && NoRemoval(prepared)
  {
    NothingTouched(plan);
    BeginsHarmless(prepared, PreparedTrace(plan));
  }

  /** An attempt that failed before it touched a container. */
  lemma PreparedOnly(plan: Plan, prepared: seq<Step>)
    requires NoUp(prepared) && NoRemoval(prepared)
    ensures Promises(plan, Some(Failure(false, Failed)), prepared, [], |prepared|) && !AppliesClone(prepared)
  {
    assert prepared[|prepared|..|prepared|] == Flat([]);
  }

  /** The new version, by rollout or in place. */
  method UpNewVersion(host: Runner, plan: Plan)
    returns (f: Option<Failure>, ghost steps: seq<Step>, ghost cuts: seq<CutoverTrace>, ghost at: nat,
             ghost when: Moments)
    modifies host
    ensures host.trace == old(host.trace) + steps && host.clock >= old(host.clock)
    ensures Promises(plan, f, steps, cuts, at)
    ensures if Usable(plan) then Concludes(host, old(host.clock), when, plan, f, steps, cuts) else steps == []
    ensures f.None? && plan.rollout.None? ==> Deploys(plan, steps)
    ensures f.Some? && !f.value.marked <==> !Usable(plan)
    ensures AppliesClone(steps) <==> Usable(plan) && Issues(host, old(host.clock), plan)
    ensures f.None? && (plan.rollout.Some? ==> NamesServices(plan.rollout.value)) ==> AppliesClone(steps)
    ensures plan.rollout.None? && host.EnvUnreadable(old(host.clock), host.clock) ==> f.Some? && NoUp(steps)
  {
    cuts, at, when := [], 0, Moments(0, 0);
    if plan.rollout.Some? {
      f, steps, cuts, at, when := UpByRollout(host, plan, plan.rollout.value);
    } else {
      f, steps := UpInPlace(host, plan);
    }
  }

  /** Preparing first does not change what came out. */
  lemma ConcludesAfter(host: Runner, from: nat, when: Moments, plan: Plan, f: Option<Failure>,
                       prepared: seq<Step>, steps: seq<Step>, cuts: seq<CutoverTrace>)
    requires NoUp(prepared) && Concludes(host, from, when, plan, f, steps, cuts)
    ensures Concludes(host, from, when, plan, f, prepared + steps, cuts)
  {
    if f.None? {
      EndsCheckedLater(plan, prepared, steps);
    }
    RestoresBaseBoth(plan, prepared, steps);
  }

  lemma AppliedAfter(host: Runner, from: nat, when: Moments, plan: Plan, f: Option<Failure>,
                     prepared: seq<Step>, steps: seq<Step>, cuts: seq<CutoverTrace>, at: nat)
    requires prepared == PreparedTrace(plan) && Promises(plan, f, steps, cuts, at)
    requires if Usable(plan) then Concludes(host, from, when, plan, f, steps, cuts) else steps == []
    requires f.None? && plan.rollout.None? ==> Deploys(plan, steps)
    ensures Promises(plan, f, prepared + steps, cuts, |prepared| + at)
    ensures Usable(plan) ==> Concludes(host, from, when, plan, f, prepared + steps, cuts)
    ensures !Usable(plan) ==> Begins(prepared + steps, prepared)
    ensures f.None? && plan.rollout.None? ==> DeployedInPlace(plan, prepared + steps)
    ensures NoUp(prepared + steps) <==> NoUp(steps)
    ensures AppliesClone(prepared + steps) <==> AppliesClone(steps)
  {
    NothingTouched(plan);
    PromisesAfter(plan, f, prepared, steps, cuts, at);
    if Usable(plan) {
      ConcludesAfter(host, from, when, plan, f, prepared, steps, cuts);
    }
  }

  /** The pipeline. Its error is unmarked exactly when it does not get as far as applying the new version. A
      success or a marked error stands for the new version's up exactly when that up is issued. */
  method ApplyStack(host: Runner, plan: Plan)
    returns (f: Option<Failure>, ghost steps: seq<Step>, ghost cuts: seq<CutoverTrace>, ghost at: nat,
             ghost when: Moments)
    modifies host
    ensures host.trace == old(host.trace) + steps && host.clock >= old(host.clock)
    ensures Promises(plan, f, steps, cuts, at)
    ensures Reaches(host, old(host.clock), plan) ==>
              && PreparedTrace(plan) <= steps
              && Concludes(host, old(host.clock) + PrepareTicks(plan), when, plan, f, steps, cuts)
    ensures f.None? && plan.rollout.None? ==> DeployedInPlace(plan, steps)
    ensures f.Some? && !f.value.marked ==> Begins(steps, PreparedTrace(plan))
    ensures f.Some? && !f.value.marked <==> !Reaches(host, old(host.clock), plan)
    ensures AppliesClone(steps) <==>
              Reaches(host, old(host.clock), plan) && Issues(host, old(host.clock) + PrepareTicks(plan), plan)
    ensures f.None? && (plan.rollout.Some? ==> NamesServices(plan.rollout.value)) ==> AppliesClone(steps)
    ensures plan.rollout.None? && host.EnvUnreadable(old(host.clock), host.clock) ==> f.Some? && NoUp(steps)
  {
    var ok;
    ghost var prepared, applied;
    ok, prepared := Prepare(host, plan);
    PreparedIsHarmless(plan, prepared);
    if !ok {
      assert !Reaches(host, old(host.clock), plan);
      PreparedOnly(plan, prepared);
      return Some(Failure(false, Failed)), prepared, [], |prepared|, Moments(0, 0);
    }
    ghost var from := host.clock;
    assert Reaches(host, old(host.clock), plan) <==> Usable(plan);
    f, applied, cuts, at, when := UpNewVersion(host, plan);
    AppliedAfter(host, from, when, plan, f, prepared, applied, cuts, at);
    Joined(old(host.trace), prepared, applied);
    steps, at := prepared + applied, |prepared| + at;
  }

  // ---------- a marked error without the new version ----------

  /** Nothing to run before the new version, in place, with rollbacks disabled. */
  const BARE := Plan(true, 0, 0, false, false, None, None, false, true, "", true, false)

  const BARE_ROLLOUT := BARE.(rollout := Some(RolloutPlan(true, true, true, ["web"], [], 1)))

  lemma BareReaches(host: Runner)
    ensures Reaches(host, 0, BARE) && PrepareTicks(BARE) == 0
    ensures Reaches(host, 0, BARE_ROLLOUT) && PrepareTicks(BARE_ROLLOUT) == 0
    ensures !host.answers(0) ==> !Issues(host, 0, BARE_ROLLOUT)
    ensures NamesServices(BARE_ROLLOUT.rollout.value)
  {
    assert AllAnswer(host, 0, 0);
  }

  /** The env files cannot be read: the error is marked, and not a single command was issued. */
  method MarkedByUnreadableEnv() returns (host: Runner, f: Option<Failure>)
    ensures !host.envReadable(1) && f == Some(Failure(true, Failed)) && NoUp(host.trace)
  {
    host := new Runner(_ => true, _ => [], _ => false);
    BareReaches(host);
    ghost var steps, cuts, at, when;
    f, steps, cuts, at, when := ApplyStack(host, BARE);
    assert host.trace == steps;
    assert host.EnvUnreadable(0, host.clock);
  }

  /** The rolled service's containers cannot be listed: the error is marked although no up was issued. */
  method MarkedByFailedListing() returns (host: Runner, f: Option<Failure>)
    ensures !host.answers(0) && host.envReadable(2) && f.Some? && f.value.marked && !AppliesClone(host.trace)
  {
    host := new Runner(_ => false, _ => [], _ => true);
    BareReaches(host);
    ghost var steps, cuts, at, when;
    f, steps, cuts, at, when := ApplyStack(host, BARE_ROLLOUT);
    assert host.trace == steps;
  }
}
