/** Per-stack commit bases over whole histories of runs (internal/deploy/state.go,
    deploy.go finishRun): the version a rollback or a heal restores is the recorded one. */
module CommitBases {
  import opened Options
  import opened StackGraph
  import opened Ordering
  import opened DeployState
  import opened DeployStack
  import opened NixosRebuild
  import opened DeployRun
  import opened RunFacts

  /** The repository: the hash of a stack's compose file as of a commit. */
  type Git = (Commit, Name) -> Option<Hash>

  /** The tracked path of a stack's compose file, below the stacks directory. */
  function ComposePath(n: Name): Path {
    n + "/docker-compose.yml"
  }

  /** The stack's base commit holds the compose file of its recorded hashes. */
  ghost predicate BaseHolds(git: Git, st: State, n: Name) {
    n in st.stacks && !Reserved(n) ==>
      var base := BaseCommitFor(st, n);
      base != "" && ComposePath(n) in st.stacks[n] && git(base, n) == Some(st.stacks[n][ComposePath(n)])
  }

  ghost predicate BasesHold(git: Git, st: State) {
    forall n :: BaseHolds(git, st, n)
  }

  /** The clone is checked out at head: whatever is hashed there holds head's compose file. */
  ghost predicate ReadAt(git: Git, reading: Option<Hashes>, n: Name, head: Commit) {
    reading.Some? ==> ComposePath(n) in reading.value && git(head, n) == Some(reading.value[ComposePath(n)])
  }

  ghost predicate CloneAt(git: Git, input: RunInput, head: Commit) {
    && head != ""
    && forall s :: s in input.stacks ==> ReadAt(git, input.turns(s.name).reading, s.name, head)
  }

  /** What config loading guarantees about a run's stack set. */
  ghost predicate Configured(input: RunInput) {
    && UniqueNames(input.stacks)
    && InDeployOrder(input.stacks, input.order)
    && forall s :: s in input.stacks ==> !Reserved(s.name)
  }

  lemma OrderKeepsStacks(input: RunInput)
    requires Configured(input)
    ensures UniqueNames(input.order) && |input.order| == |input.stacks|
    ensures forall s :: s in input.order ==> s in input.stacks
    ensures forall s :: s in input.stacks ==> s in input.order
  {
    var rounds, idx :| OrderOf(input.stacks, input.order, rounds, idx);
    PickedNamesUnique(input.stacks, input.order, rounds, idx);
    OrderIsPermutation(input.stacks, input.order, rounds, idx);
  }

  // ---------- one run ----------

  /** The NixOS phase moves only its own reserved entry. */
  lemma NixosPhaseFrame(st: State, disk: State, mem: Mem, p: Option<Phase>)
    requires disk.settled == [] && st.settled == []
    ensures var r := NixosPhase(st, disk, mem, p);
      SameStacks(st, r.st) && (SameStacks(disk, r.disk) || SameStacks(st, r.disk)) && r.disk.settled == []
  {
    if p.Some? {
      PhaseFrame(st, disk, mem, p.value);
    }
  }

  lemma SameStacksSameBases(git: Git, a: State, b: State)
    requires SameStacks(a, b) && BasesHold(git, a)
    ensures BasesHold(git, b)
  {
    forall n
      ensures BaseHolds(git, b, n)
    {
      assert BaseHolds(git, a, n);
      assert !Reserved(n) ==> SameAt(a.stacks, b.stacks, n);
    }
  }

  lemma ForgettingKeepsBases(git: Git, st: State, gone: set<Name>)
    requires BasesHold(git, st)
    ensures BasesHold(git, Forgotten(st, gone))
  {
    forall n
      ensures BaseHolds(git, Forgotten(st, gone), n)
    {
      assert BaseHolds(git, st, n);
    }
  }

  /** A stack's base survives finishRun when the run settled it at head, or left its record alone. */
  lemma FinishKeepsBase(git: Git, before: State, after: State, mem: Mem, head: Commit, n: Name)
    requires BaseHolds(git, before, n) && head != ""
    requires after.commits == before.commits && after.lastCommit == before.lastCommit
    requires n in after.settled ==> BaseHolds(git, after.(commits := map[n := head]), n)
    requires n !in after.settled ==> SameAt(before.stacks, after.stacks, n)
    ensures BaseHolds(git, Finished(after, mem, Some(head)), n)
  {
    var a := AdvanceBases(after, head);
    if n in after.stacks && !Reserved(n) {
      if n in after.settled {
        assert n in a.commits && a.commits[n] == head;
      } else {
        assert BaseCommitFor(after, n) == BaseCommitFor(before, n);
      }
    }
  }

  /** The stack at position k is at its base after the run. */
  lemma StackKeepsBase(git: Git, p: Progress, input: RunInput, head: Commit, k: nat)
    requires Configured(input) && CloneAt(git, input, head) && input.head == Some(head)
    requires p.log == [] && p.st.settled == [] && BasesHold(git, p.st) && k < |input.order|
    ensures var r := RunStacks(p, input.order, input.turns);
      BaseHolds(git, Finished(r.st, r.mem, input.head), input.order[k].name)
  {
    var order, n := input.order, input.order[k].name;
    var r := RunStacks(p, order, input.turns);
    OrderKeepsStacks(input);
    assert order[k] in input.stacks;
    PhaseEffect(p, order, input.turns, k);
    PhaseSettles(p, order, input.turns);
    SettledIff(p, order, input.turns, k);
    var t := input.turns(n);
    assert ReadAt(git, t.reading, n, head);
    assert BaseHolds(git, p.st, n);
    if n in r.st.settled {
      SettledAtHead(git, p.st, r.st, n, t, r.log[k].action, head);
    }
    FinishKeepsBase(git, p.st, r.st, r.mem, head, n);
  }

  /** A settled stack's recorded compose hash is head's. */
  lemma SettledAtHead(git: Git, before: State, after: State, n: Name, t: Turn, a: Action, head: Commit)
    requires StackEffect(before, after, n, t, a) && Settles(a)
    requires t.reading.Some? && ReadAt(git, t.reading, n, head) && head != ""
    ensures n in after.stacks && ComposePath(n) in after.stacks[n]
         && git(head, n) == Some(after.stacks[n][ComposePath(n)])
  {
    if a != Attempted(Applied) {
      UnchangedIffRecorded(t.reading.value, RecordedFor(before, n));
      assert ComposePath(n) in RecordedFor(before, n);
    }
  }

  /** So is a stack that has no turn in the run. */
  lemma OtherKeepsBase(git: Git, p: Progress, input: RunInput, head: Commit, n: Name)
    requires p.log == [] && p.st.settled == [] && BaseHolds(git, p.st, n) && head != ""
    requires n !in Names(input.order)
    ensures var r := RunStacks(p, input.order, input.turns); BaseHolds(git, Finished(r.st, r.mem, Some(head)), n)
  {
    PhaseLeavesAlone(p, input.order, input.turns, n);
    PhaseSettles(p, input.order, input.turns);
    var r := RunStacks(p, input.order, input.turns);
    FinishKeepsBase(git, p.st, r.st, r.mem, head, n);
  }

  lemma StackPhaseKeepsBases(git: Git, p: Progress, input: RunInput, head: Commit)
    requires Configured(input) && CloneAt(git, input, head) && input.head == Some(head)
    requires p.log == [] && p.st.settled == [] && BasesHold(git, p.st)
    ensures var r := RunStacks(p, input.order, input.turns);
      BasesHold(git, Finished(r.st, r.mem, input.head))
  {
    var r := RunStacks(p, input.order, input.turns);
    forall n
      ensures BaseHolds(git, Finished(r.st, r.mem, input.head), n)
    {
      if k :| 0 <= k < |input.order| && input.order[k].name == n {
        StackKeepsBase(git, p, input, head, k);
      } else {
        assert BaseHolds(git, p.st, n);
        OtherKeepsBase(git, p, input, head, n);
      }
    }
  }

  /** After every run whose HEAD read succeeds, each recorded stack's base commit holds
      the compose file of its recorded hashes. */
  lemma RunKeepsBases(git: Git, sys: Sys, input: RunInput, head: Commit)
    requires BasesHold(git, sys.disk) && sys.disk.settled == []
    requires Configured(input) && CloneAt(git, input, head) && input.head == Some(head)
    ensures var after := Run(sys, input).sys; BasesHold(git, after.disk) && after.disk.settled == []
  {
    if input.varsOk {
      var st := Loaded(sys.disk, input.loadOk);
      assert BasesHold(git, st);
      var ph := NixosPhase(st, sys.disk, sys.mem, input.nixos);
      NixosPhaseFrame(st, sys.disk, sys.mem, input.nixos);
      SameStacksSameBases(git, st, ph.st);
      if SameStacks(sys.disk, ph.disk) {
        SameStacksSameBases(git, sys.disk, ph.disk);
      } else {
        SameStacksSameBases(git, st, ph.disk);
      }
      if ph.verdict.Proceed? && input.stackSetOk {
        var gone := RemovedNames(ph.st, ph.mem, input.discovery, input.known);
        ForgettingKeepsBases(git, ph.st, gone);
        var p := PhaseStart(ph.st, ph.mem, input);
        StackPhaseKeepsBases(git, p, input, head);
      }
    }
  }

  // ---------- stacks that left the set ----------

  /** The run gets to its stack phase and saves what it ends with. */
  ghost predicate Completes(sys: Sys, input: RunInput) {
    && input.varsOk && input.stackSetOk && input.writable
    && NixosPhase(Loaded(sys.disk, input.loadOk), sys.disk, sys.mem, input.nixos).verdict == Proceed
  }

  lemma AnnouncedIff(st: State, mem: Mem, input: RunInput, n: Name)
    requires !Reserved(n)
    ensures var p := PhaseStart(st, mem, input);
      if (n in st.stacks || n in mem.queue) && n !in input.known && !(input.discovery && input.known == {})
      then NothingRecorded(p.st, n) && n !in p.mem.queue
      else SameFor(st, p.st, n) && SameAt(st.commits, p.st.commits, n) && (n in p.mem.queue <==> n in mem.queue)
  {
  }

  lemma NixosLeavesQueue(st: State, disk: State, mem: Mem, p: Option<Phase>, n: Name)
    requires !Reserved(n)
    ensures n in NixosPhase(st, disk, mem, p).mem.queue <==> n in mem.queue
  {
  }

  lemma FinishingUntouched(before: State, after: State, mem: Mem, head: Option<Commit>, n: Name)
    requires after.commits == before.commits && SameFor(before, after, n) && n !in after.settled
    ensures NothingRecorded(Finished(after, mem, head), n) <==> NothingRecorded(before, n)
  {
  }

  /** A completed run drops everything that is recorded of a stack without a turn, and its pending change,
      exactly when something was recorded or pending, the stack is no longer in the set, and the set is not
      an empty discovery; otherwise it keeps what there was. A hold alone is not noticed. */
  lemma StackIsForgottenIff(sys: Sys, input: RunInput, n: Name)
    requires Completes(sys, input) && sys.disk.settled == [] && !Reserved(n) && n !in Names(input.order)
    ensures var st, after := Loaded(sys.disk, input.loadOk), Run(sys, input).sys;
      NothingRecorded(after.disk, n) && n !in after.mem.queue <==>
        if n in st.stacks || n in sys.mem.queue then n !in input.known && !(input.discovery && input.known == {})
        else NothingRecorded(st, n)
  {
    var st := Loaded(sys.disk, input.loadOk);
    var ph := NixosPhase(st, sys.disk, sys.mem, input.nixos);
    NixosPhaseFrame(st, sys.disk, sys.mem, input.nixos);
    NixosLeavesQueue(st, sys.disk, sys.mem, input.nixos, n);
    assert SameAt(st.stacks, ph.st.stacks, n);
    AnnouncedIff(ph.st, ph.mem, input, n);
    var p, r := PhaseStart(ph.st, ph.mem, input), StackPhase(ph.st, ph.mem, input);
    PhaseLeavesAlone(p, input.order, input.turns, n);
    PhaseSettles(p, input.order, input.turns);
    assert n !in r.st.settled;
    FinishingUntouched(p.st, r.st, r.mem, input.head, n);
  }

  /** A stack whose first deploy failed has a hold and nothing else. */
  const HELD_ONLY: State :=
    EMPTY.(held := map["app" := Hold(map["/app.yml" := "1"], 0, Failed, "c1", 3, None)])

  /** When it leaves the set its hold stays, run after run. */
  lemma HoldOutlivesItsStack(input: RunInput)
    requires Completes(Restarted(HELD_ONLY), input) && input.loadOk && "app" !in Names(input.order)
    ensures "app" in Run(Restarted(HELD_ONLY), input).sys.disk.held
  {
    var sys, n := Restarted(HELD_ONLY), "app";
    assert n[0] == 'a' && NIXOS[0] == '_';
    var ph := NixosPhase(HELD_ONLY, HELD_ONLY, sys.mem, input.nixos);
    NixosPhaseFrame(HELD_ONLY, HELD_ONLY, sys.mem, input.nixos);
    NixosLeavesQueue(HELD_ONLY, HELD_ONLY, sys.mem, input.nixos, n);
    assert SameAt(HELD_ONLY.stacks, ph.st.stacks, n);
    AnnouncedIff(ph.st, ph.mem, input, n);
    PhaseLeavesAlone(PhaseStart(ph.st, ph.mem, input), input.order, input.turns, n);
  }

  // ---------- histories ----------

  /** What can happen to the deployer: a run, a run whose process is killed before it
      saves, a restart between runs, a retry request. */
  datatype Event = Ran(input: RunInput) | RanAndKilled(input: RunInput) | ProcessRestart | RetryRequested(n: Name)

  function After(sys: Sys, e: Event): Sys {
    match e
    case Ran(input) => Run(sys, input).sys
    case RanAndKilled(input) =>
      var ph := NixosPhase(Loaded(sys.disk, input.loadOk), sys.disk, sys.mem, input.nixos);
      Restarted(if input.varsOk then ph.disk else sys.disk)
    case ProcessRestart => Restarted(sys.disk)
    case RetryRequested(n) => if n in sys.heldNow then sys.(mem := sys.mem.(retries := sys.mem.retries + {n})) else sys
  }

  function AfterAll(sys: Sys, events: seq<Event>): Sys {
    if events == [] then sys else After(AfterAll(sys, events[..|events| - 1]), events[|events| - 1])
  }

  /** Every run sees the clone at the HEAD that finishRun reads. */
  ghost predicate HeadsRead(git: Git, events: seq<Event>) {
    forall i :: 0 <= i < |events| && events[i].Ran? ==>
      var input := events[i].input;
      Configured(input) && input.head.Some? && CloneAt(git, input, input.head.value)
  }

  lemma {:induction false} HistoryKeepsBases(git: Git, sys: Sys, events: seq<Event>)
    requires BasesHold(git, sys.disk) && sys.disk.settled == [] && HeadsRead(git, events)
    ensures BasesHold(git, AfterAll(sys, events).disk) && AfterAll(sys, events).disk.settled == []
  {
    if events != [] {
      var front, last := events[..|events| - 1], events[|events| - 1];
      HistoryKeepsBases(git, sys, front);
      var before := AfterAll(sys, front);
      match last
      case Ran(input) =>
        RunKeepsBases(git, before, input, input.head.value);
      case RanAndKilled(input) =>
        KillKeepsBases(git, before, input);
      case _ =>
    }
  }

  lemma KillKeepsBases(git: Git, sys: Sys, input: RunInput)
    requires BasesHold(git, sys.disk) && sys.disk.settled == []
    ensures var after := After(sys, RanAndKilled(input)); BasesHold(git, after.disk) && after.disk.settled == []
  {
    if input.varsOk {
      var st := Loaded(sys.disk, input.loadOk);
      var ph := NixosPhase(st, sys.disk, sys.mem, input.nixos);
      NixosPhaseFrame(st, sys.disk, sys.mem, input.nixos);
      if SameStacks(sys.disk, ph.disk) {
        SameStacksSameBases(git, sys.disk, ph.disk);
      } else {
        SameStacksSameBases(git, st, ph.disk);
      }
    }
  }
}
