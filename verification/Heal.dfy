/** Self-heal's corrective up (internal/deploy/heal.go) applies the recorded version, whatever
    runs, failures, pauses, holds and restarts went before. */
module Heal {
  import opened Options
  import opened StackGraph
  import opened DeployState
  import opened DeployStack
  import opened NixosRebuild
  import opened DeployRun
  import opened RunFacts
  import opened CommitBases

  /** What the environment decides about one heal: a deploy holds the mutex, the stack is
      configured, the environment files load, state.yaml loads (or is corrupt and reads as
      empty), the clone's current inputs, a commit reader is wired, FileAtCommit succeeds. */
  datatype HealInput = HealInput(busy: bool, known: bool, envOk: bool, loadOk: bool, corrupt: bool,
                                 current: Option<Hashes>, reader: bool, restoreOk: bool)

  /** The heal did not run (a deploy is in progress, or it declined), failed before any up, or issued an up
      for these inputs, with the compose file restored from a commit when there is one. */
  datatype HealPlan = Busy | Declined | Errored | Up(applied: Hashes, restoredFrom: Option<Commit>)

  function DeployedVersion(git: Git, st: State, n: Name, h: HealInput): HealPlan {
    if h.busy then Busy
    else if !h.known || !h.envOk || !h.loadOk then Errored
    else
      var state := if h.corrupt then EMPTY else st;
      var recorded := RecordedFor(state, n);
      if recorded == map[] then Declined
      else if h.current.None? then Errored
      else
        var differing := Differing(h.current.value, recorded);
        if differing == {} then Up(h.current.value, None)
        else if differing != {ComposePath(n)} then Declined
        else
          var base := BaseCommitFor(state, n);
          if !h.reader || base == "" then Declined
          else if !h.restoreOk || git(base, n).None? then Errored
          else Up(h.current.value[ComposePath(n) := git(base, n).value], Some(base))
  }

  // ---------- what a heal decides, from what it finds ----------

  /** The heal gets to compare the clone with a record of the stack. */
  predicate Compares(st: State, n: Name, h: HealInput) {
    !h.busy && h.known && h.envOk && h.loadOk && RecordIsRead(st, n, h) && h.current.Some?
  }

  /** The state file is not corrupt and records inputs of the stack. */
  predicate RecordIsRead(st: State, n: Name, h: HealInput) {
    !h.corrupt && n in st.stacks && st.stacks[n] != map[]
  }

  /** The inputs agree off the compose file, and differ there. */
  ghost predicate OnlyComposeDiffers(n: Name, current: Hashes, recorded: Hashes) {
    var cp := ComposePath(n);
    && (forall p :: p != cp ==> (p in current <==> p in recorded))
    && (forall p :: p != cp && p in current && p in recorded ==> current[p] == recorded[p])
    && (cp in current || cp in recorded) && (cp in current && cp in recorded ==> current[cp] != recorded[cp])
  }

  /** There is a commit to restore the compose file from, and something to read it with. */
  predicate HasBase(st: State, n: Name, h: HealInput) {
    h.reader && BaseCommitFor(st, n) != ""
  }

  predicate Restorable(git: Git, st: State, n: Name, h: HealInput) {
    HasBase(st, n, h) && h.restoreOk && git(BaseCommitFor(st, n), n).Some?
  }

  /** The heal issues an up exactly of a clone that is the recorded version, or of one whose compose file alone
      has changed and can be restored. It declines exactly without a record, or over any other difference or
      one with nothing to restore from. It fails exactly when something cannot be loaded or read. */
  ghost predicate PlansByFindings(git: Git, st: State, n: Name, h: HealInput, plan: HealPlan) {
    && (plan.Busy? <==> h.busy)
    && (plan.Up? <==> Compares(st, n, h)
                      && (h.current.value == st.stacks[n]
                          || (OnlyComposeDiffers(n, h.current.value, st.stacks[n]) && Restorable(git, st, n, h))))
    && (plan.Up? && h.current.value == st.stacks[n] ==> plan == Up(st.stacks[n], None))
    && (plan.Up? && h.current.value != st.stacks[n] ==>
          var base := BaseCommitFor(st, n);
          plan == Up(h.current.value[ComposePath(n) := git(base, n).value], Some(base)))
    && (plan.Declined? <==>
          && !h.busy && h.known && h.envOk && h.loadOk
          && (RecordIsRead(st, n, h) ==>
                && h.current.Some? && h.current.value != st.stacks[n]
                && !(OnlyComposeDiffers(n, h.current.value, st.stacks[n]) && HasBase(st, n, h))))
    && (plan.Errored? <==>
          && !h.busy
          && (!h.known || !h.envOk || !h.loadOk || (RecordIsRead(st, n, h) && h.current.None?)
              || (Compares(st, n, h) && OnlyComposeDiffers(n, h.current.value, st.stacks[n])
                  && HasBase(st, n, h) && !Restorable(git, st, n, h))))
  }

  lemma ComposeDiffersIff(n: Name, current: Hashes, recorded: Hashes)
    ensures Differing(current, recorded) == {ComposePath(n)} <==> OnlyComposeDiffers(n, current, recorded)
  {
    var differing, cp := Differing(current, recorded), ComposePath(n);
    assert forall p :: p in differing <==>
        (p in current && p !in recorded) || (p !in current && p in recorded)
        || (p in current && p in recorded && current[p] != recorded[p]);
    if OnlyComposeDiffers(n, current, recorded) {
      assert forall p :: p in differing <==> p == cp;
    }
    if differing == {cp} {
      assert forall p :: p != cp ==> p !in differing;
      assert cp in differing;
    }
  }

  lemma VersionIsPlanned(git: Git, st: State, n: Name, h: HealInput)
    ensures PlansByFindings(git, st, n, h, DeployedVersion(git, st, n, h))
  {
    if Compares(st, n, h) {
      NothingDiffersIffEqual(h.current.value, st.stacks[n]);
      ComposeDiffersIff(n, h.current.value, st.stacks[n]);
    }
  }

  method HealStack(git: Git, file: StateFile, n: Name, h: HealInput) returns (plan: HealPlan)
    ensures plan == DeployedVersion(git, file.content, n, h)
    ensures PlansByFindings(git, file.content, n, h, plan)
  {
    VersionIsPlanned(git, file.content, n, h);
    if h.busy {
      return Busy;
    }
    if !h.known || !h.envOk || !h.loadOk {
      return Errored;
    }
    var state := new PersistedState(if h.corrupt then EMPTY else file.content);
    var recorded := RecordedFor(state.View(), n);
    if |recorded| == 0 {
      return Declined;
    }
    if h.current.None? {
      return Errored;
    }
    var current := h.current.value;
    var differing := DifferingInputs(current, recorded);
    ghost var paths := Differing(current, recorded);
    if |differing| == 0 {
      assert paths == {};
      return Up(current, None);
    }
    assert differing == [ComposePath(n)] <==> paths == {ComposePath(n)} by {
      SingletonListed(differing, paths, ComposePath(n));
    }
    if differing != [ComposePath(n)] {
      return Declined;
    }
    var base := BaseCommitFor(state.View(), n);
    if !h.reader || base == "" {
      return Declined;
    }
    var content := git(base, n);
    if !h.restoreOk || content.None? {
      return Errored;
    }
    return Up(current[ComposePath(n) := content.value], Some(base));
  }

  lemma SingletonListed(paths: seq<Path>, s: set<Path>, p: Path)
    requires Lists(paths, s)
    ensures paths == [p] <==> s == {p}
  {
    if s == {p} {
      assert |paths| == 1 && paths[0] in s;
    }
    if paths == [p] {
      assert p in paths && forall q :: q in s ==> q in paths;
    }
  }

  /** A reading of the stack's inputs holds its compose file. */
  predicate ReadsCompose(h: HealInput, n: Name) {
    h.current.Some? ==> ComposePath(n) in h.current.value
  }

  /** On a state whose bases hold, an up applies exactly the recorded inputs. */
  lemma HealAppliesRecorded(git: Git, st: State, n: Name, h: HealInput)
    requires BasesHold(git, st) && !Reserved(n)
    requires ReadsCompose(h, n)
    ensures var plan := DeployedVersion(git, st, n, h);
      plan.Up? ==>
        (n in st.stacks && plan.applied == st.stacks[n]
         && (plan.restoredFrom.Some? ==> plan.restoredFrom.value == BaseCommitFor(st, n)))
  {
    var plan := DeployedVersion(git, st, n, h);
    if plan.Up? {
      var recorded, current := st.stacks[n], h.current.value;
      assert BaseHolds(git, st, n);
      if plan.restoredFrom.None? {
        NothingDiffersIffEqual(current, recorded);
      } else {
        OnlyDifference(current, recorded, ComposePath(n));
      }
    }
  }

  /** Replacing the one differing input by its recorded hash gives the recorded inputs. */
  lemma OnlyDifference(current: Hashes, recorded: Hashes, p: Path)
    requires Differing(current, recorded) == {p} && p in recorded
    ensures current[p := recorded[p]] == recorded
  {
    var fixed := current[p := recorded[p]];
    forall q | q in recorded
      ensures q in fixed
    {
      assert q !in Differing(current, recorded) || q == p;
    }
    forall q | q in current && q != p
      ensures q in recorded && recorded[q] == current[q]
    {
      assert q !in Differing(current, recorded);
    }
    assert fixed.Keys == recorded.Keys;
  }

  /** In every history of runs, kills, restarts and retry requests, whenever a heal issues an up, what
      it applies hashes to what is recorded for the stack: a pending, held or failed change never
      reaches the host through a heal. */
  lemma HealsNeverApplyPendingChanges(git: Git, events: seq<Event>, n: Name, h: HealInput)
    requires HeadsRead(git, events) && !Reserved(n)
    requires ReadsCompose(h, n)
    ensures var st := AfterAll(Restarted(EMPTY), events).disk;
      var plan := DeployedVersion(git, st, n, h);
      plan.Up? ==> n in st.stacks && plan.applied == st.stacks[n]
  {
    HistoryKeepsBases(git, Restarted(EMPTY), events);
    HealAppliesRecorded(git, AfterAll(Restarted(EMPTY), events).disk, n, h);
  }

  /** A run that deploys a stack records what it read, with the run's HEAD as the base. */
  lemma DeployIsRecorded(sys: Sys, input: RunInput, k: nat)
    requires Configured(input) && input.writable && input.head.Some? && sys.disk.settled == []
    requires k < |Run(sys, input).log| && Run(sys, input).log[k].action == Attempted(Applied)
    ensures var after, n := Run(sys, input).sys.disk, Run(sys, input).log[k].stack;
      && input.turns(n).reading.Some? && !Reserved(n)
      && n in after.stacks && after.stacks[n] == input.turns(n).reading.value
      && BaseCommitFor(after, n) == input.head.value && after.settled == []
  {
    OrderKeepsStacks(input);
    var ph := NixosPhase(Loaded(sys.disk, input.loadOk), sys.disk, sys.mem, input.nixos);
    NixosPhaseFrame(Loaded(sys.disk, input.loadOk), sys.disk, sys.mem, input.nixos);
    var p := PhaseStart(ph.st, ph.mem, input);
    PhaseEffect(p, input.order, input.turns, k);
    PhaseSettles(p, input.order, input.turns);
  }

  /** The ordinary heal: whatever was deployed by a run, and never settled again since, is brought up again
      as it is whenever the clone still holds it, however many runs failed, queued or held it in between. */
  lemma DeployedStackIsHealed(git: Git, sys: Sys, input: RunInput, k: nat, events: seq<Event>, n: Name, h: HealInput)
    requires Configured(input) && input.writable && input.head.Some? && input.head.value != "" && sys.disk.settled == []
    requires k < |Run(sys, input).log|
    requires Run(sys, input).log[k].stack == n && Run(sys, input).log[k].action == Attempted(Applied)
    requires input.turns(n).reading != Some(map[]) && NeverSettled(Run(sys, input).sys, events, n)
    requires !h.busy && h.known && h.envOk && h.loadOk && !h.corrupt && h.current == input.turns(n).reading
    ensures h.current.Some?
    ensures DeployedVersion(git, AfterAll(Run(sys, input).sys, events).disk, n, h) == Up(h.current.value, None)
  {
    DeployIsRecorded(sys, input, k);
    FailuresKeepTheBase(Run(sys, input).sys, events, n);
    VersionIsPlanned(git, AfterAll(Run(sys, input).sys, events).disk, n, h);
  }

  // ---------- when the HEAD read fails ----------

  /** The deployed change of the stack leaves its compose file as it is at the base commit. */
  ghost predicate DeploysBaseCompose(git: Git, before: State, n: Name, reading: Hashes) {
    BaseCommitFor(before, n) != "" && ComposePath(n) in reading
    && git(BaseCommitFor(before, n), n) == Some(reading[ComposePath(n)])
  }

  /** Without the HEAD read finishRun moves no base, so the bases hold afterwards exactly when every
      stack that deployed kept the compose file of its old base. */
  lemma WithoutHeadReadIff(git: Git, p: Progress, input: RunInput)
    requires Configured(input) && input.head.None?
    requires p.log == [] && p.st.settled == [] && BasesHold(git, p.st)
    ensures var r := RunStacks(p, input.order, input.turns);
      && |r.log| == |input.order|
      && (BasesHold(git, Finished(r.st, r.mem, input.head)) <==>
           forall k :: 0 <= k < |input.order| && r.log[k].action == Attempted(Applied) ==>
             var t := input.turns(input.order[k].name);
             t.reading.Some? && DeploysBaseCompose(git, p.st, input.order[k].name, t.reading.value))
  {
    OrderKeepsStacks(input);
    var order := input.order;
    var r := RunStacks(p, order, input.turns);
    PhaseSettles(p, order, input.turns);
    forall n
      ensures (forall k :: 0 <= k < |order| && order[k].name == n ==> r.log[k].action != Attempted(Applied)) ==>
                BaseHolds(git, r.st, n)
    {
      assert BaseHolds(git, p.st, n);
      if k :| 0 <= k < |order| && order[k].name == n {
        PhaseEffect(p, order, input.turns, k);
      } else {
        PhaseLeavesAlone(p, order, input.turns, n);
      }
    }
    forall k | 0 <= k < |order| && r.log[k].action == Attempted(Applied)
      ensures input.turns(order[k].name).reading.Some?
      ensures BaseHolds(git, r.st, order[k].name)
         <==> DeploysBaseCompose(git, p.st, order[k].name, input.turns(order[k].name).reading.value)
    {
      PhaseEffect(p, order, input.turns, k);
      assert order[k] in input.stacks;
    }
  }

  /** So the bases hold whenever no stack's inputs bring a compose file other than its base commit's. */
  lemma UnmovedComposeKeepsBases(git: Git, p: Progress, input: RunInput)
    requires Configured(input) && input.head.None?
    requires p.log == [] && p.st.settled == [] && BasesHold(git, p.st)
    requires forall s :: s in input.stacks && input.turns(s.name).reading.Some? ==>
               DeploysBaseCompose(git, p.st, s.name, input.turns(s.name).reading.value)
    ensures var r := RunStacks(p, input.order, input.turns); BasesHold(git, Finished(r.st, r.mem, input.head))
  {
    var r := RunStacks(p, input.order, input.turns);
    WithoutHeadReadIff(git, p, input);
    OrderKeepsStacks(input);
    forall k | 0 <= k < |input.order| && r.log[k].action == Attempted(Applied)
      ensures var t := input.turns(input.order[k].name);
        t.reading.Some? && DeploysBaseCompose(git, p.st, input.order[k].name, t.reading.value)
    {
      PhaseEffect(p, input.order, input.turns, k);
      assert input.order[k] in input.stacks;
    }
  }

  /** A stack deployed at c1, and the run that deploys it at c2 without reading HEAD. */
  ghost function SettledAtC1(): State {
    EMPTY.(stacks := map["app" := map[ComposePath("app") := "1"]], commits := map["app" := "c1"], lastCommit := "c1")
  }

  ghost function DeployedAtC2(): Progress {
    var t := Turn(None, Some(map[ComposePath("app") := "2"]), None, false, 0, 0, 0, Applied, "c2", false);
    RunStacks(Progress(SettledAtC1(), Mem(map[], {}), map[], []), [Stack("app", [])], (n: Name) => t)
  }

  lemma DeployedAtC2Records()
    ensures var after := Finished(DeployedAtC2().st, DeployedAtC2().mem, None);
      after.stacks == map["app" := map[ComposePath("app") := "2"]] && after.commits == map["app" := "c1"]
  {
    var t := Turn(None, Some(map[ComposePath("app") := "2"]), None, false, 0, 0, 0, Applied, "c2", false);
    var start := Progress(SettledAtC1(), Mem(map[], {}), map[], []);
    assert [Stack("app", [])][..0] == [];
    assert DeployedAtC2() == StackStep(start, Stack("app", []), t);
    assert ComposePath("app") in Changed(map[ComposePath("app") := "2"], map[ComposePath("app") := "1"]);
  }

  /** Such a run makes a later heal restore a version that is not the recorded one: the stack was
      deployed at c2, its base still says c1, and the heal restores c1's compose file. */
  lemma LostHeadReadMisleadsHeal(git: Git)
    requires git("c1", "app") == Some("1") && git("c2", "app") == Some("2")
    ensures var cp := ComposePath("app");
      var after := Finished(DeployedAtC2().st, DeployedAtC2().mem, None);
      var h := HealInput(false, true, true, true, false, Some(map[cp := "3"]), true, true);
      && BasesHold(git, SettledAtC1())
      && after.stacks["app"] == map[cp := "2"]
      && DeployedVersion(git, after, "app", h) == Up(map[cp := "1"], Some("c1"))
  {
    var cp := ComposePath("app");
    forall n
      ensures BaseHolds(git, SettledAtC1(), n)
    {
    }
    DeployedAtC2Records();
    assert Differing(map[cp := "3"], map[cp := "2"]) == {cp};
    assert map[cp := "3"][cp := "1"] == map[cp := "1"];
  }

  // ---------- what a stack that does not settle keeps ----------

  ghost predicate NoneSettles(log: seq<Entry>, n: Name) {
    forall i :: 0 <= i < |log| && log[i].stack == n ==> !Settles(log[i].action)
  }

  /** The event leaves the stack queued, blocked, held, failed or without a turn, and does not remove it. */
  ghost predicate LeavesUnsettled(sys: Sys, e: Event, n: Name) {
    && (e.RanAndKilled? ==> e.input.loadOk)
    && (e.Ran? ==>
          && e.input.loadOk && Configured(e.input)
          && (n in e.input.known || (e.input.discovery && e.input.known == {}))
          && NoneSettles(Run(sys, e.input).log, n))
  }

  /** The recorded hashes, the images and the base of the stack: what it is rolled back to. */
  ghost predicate SameRecord(a: State, b: State, n: Name) {
    SameAt(a.stacks, b.stacks, n) && SameAt(a.images, b.images, n) && BaseCommitFor(a, n) == BaseCommitFor(b, n)
  }

  lemma FinishKeepsRecord(before: State, after: State, mem: Mem, head: Option<Commit>, n: Name)
    requires SameAt(before.stacks, after.stacks, n) && SameAt(before.images, after.images, n)
    requires after.commits == before.commits && after.lastCommit == before.lastCommit && n !in after.settled
    requires n in before.stacks && !Reserved(n) && BaseCommitFor(before, n) != ""
    ensures SameRecord(before, Finished(after, mem, head), n)
  {
    if head.Some? {
      var a := AdvanceBases(after, head.value);
      assert n in a.commits && a.commits[n] == BaseCommitFor(after, n);
    }
  }

  lemma UnsettledPhase(p: Progress, input: RunInput, n: Name)
    requires Configured(input) && p.log == [] && p.st.settled == []
    requires NoneSettles(RunStacks(p, input.order, input.turns).log, n)
    ensures var r := RunStacks(p, input.order, input.turns);
      && SameAt(p.st.stacks, r.st.stacks, n) && SameAt(p.st.images, r.st.images, n) && n !in r.st.settled
      && r.st.commits == p.st.commits && r.st.lastCommit == p.st.lastCommit
  {
    OrderKeepsStacks(input);
    var order := input.order;
    var r := RunStacks(p, order, input.turns);
    PhaseSettles(p, order, input.turns);
    forall j | 0 <= j < |order| && order[j].name == n
      ensures !Settles(r.log[j].action)
    {
      PhaseEffect(p, order, input.turns, j);
    }
    if k :| 0 <= k < |order| && order[k].name == n {
      PhaseEffect(p, order, input.turns, k);
    } else {
      PhaseLeavesAlone(p, order, input.turns, n);
    }
  }

  lemma SameRecordAfterNixos(st: State, ph: State, n: Name)
    requires SameStacks(st, ph) && !Reserved(n)
    ensures SameRecord(st, ph, n)
  {
    assert SameAt(st.stacks, ph.stacks, n);
  }

  lemma UnsettledStackPhase(st: State, mem: Mem, input: RunInput, n: Name)
    requires Configured(input) && st.settled == [] && (n in input.known || (input.discovery && input.known == {}))
    requires n in st.stacks && !Reserved(n) && BaseCommitFor(st, n) != ""
    requires NoneSettles(StackPhase(st, mem, input).log, n)
    ensures var r := StackPhase(st, mem, input); SameRecord(st, Finished(r.st, r.mem, input.head), n)
  {
    var p, r := PhaseStart(st, mem, input), StackPhase(st, mem, input);
    UnsettledPhase(p, input, n);
    FinishKeepsRecord(p.st, r.st, r.mem, input.head, n);
  }

  /** A run that does not settle a recorded stack keeps its record, images and base. */
  lemma UnsettledRun(sys: Sys, e: Event, n: Name)
    requires LeavesUnsettled(sys, e, n) && sys.disk.settled == []
    requires n in sys.disk.stacks && !Reserved(n) && BaseCommitFor(sys.disk, n) != ""
    ensures SameRecord(sys.disk, After(sys, e).disk, n) && After(sys, e).disk.settled == []
  {
    if (e.Ran? || e.RanAndKilled?) && e.input.varsOk {
      var input := e.input;
      var ph := NixosPhase(sys.disk, sys.disk, sys.mem, input.nixos);
      NixosPhaseFrame(sys.disk, sys.disk, sys.mem, input.nixos);
      SameRecordAfterNixos(sys.disk, ph.disk, n);
      SameRecordAfterNixos(sys.disk, ph.st, n);
      if e.Ran? && ph.verdict.Proceed? && input.stackSetOk {
        UnsettledStackPhase(ph.st, ph.mem, input, n);
      }
    }
  }

  ghost predicate NeverSettled(sys: Sys, events: seq<Event>, n: Name) {
    events != [] ==>
      var front := events[..|events| - 1];
      NeverSettled(sys, front, n) && LeavesUnsettled(AfterAll(sys, front), events[|events| - 1], n)
  }

  /** However often a stack's deploy fails, at whatever HEADs, it keeps the record and the base of
      the version it last settled at: every rollback and heal goes back to that one. */
  lemma {:induction false} FailuresKeepTheBase(sys: Sys, events: seq<Event>, n: Name)
    requires NeverSettled(sys, events, n) && sys.disk.settled == []
    requires n in sys.disk.stacks && !Reserved(n) && BaseCommitFor(sys.disk, n) != ""
    ensures SameRecord(sys.disk, AfterAll(sys, events).disk, n) && AfterAll(sys, events).disk.settled == []
  {
    if events != [] {
      var front := events[..|events| - 1];
      FailuresKeepTheBase(sys, front, n);
      UnsettledRun(AfterAll(sys, front), events[|events| - 1], n);
    }
  }

  /** The base a rollback inside a run restores from is the one on disk at the run's start. */
  lemma RollbackTarget(p: Progress, order: seq<Stack>, turns: Name -> Turn, k: nat, n: Name)
    requires p.log == [] && k <= |order|
    ensures BaseCommitFor(Trace(p, order, turns)[k].st, n) == BaseCommitFor(p.st, n)
  {
    var tr := Trace(p, order, turns);
    TraceSteps(p, order, turns);
    RunIsChain(p, order, turns);
    ChainSettles(tr, order, k);
  }
}
