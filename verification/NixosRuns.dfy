/** The NixOS phase over whole histories of runs, shutdowns mid-rebuild and restarts. */
module NixosRuns {
  import opened Options
  import opened StackGraph
  import opened DeployState
  import opened DeployStack
  import opened NixosRebuild
  import opened DeployRun
  import opened RunFacts
  import opened CommitBases

  ghost function PhaseOf(sys: Sys, input: RunInput): PhaseResult {
    NixosPhase(Loaded(sys.disk, input.loadOk), sys.disk, sys.mem, input.nixos)
  }

  ghost predicate Runs(e: Event) {
    e.Ran? || e.RanAndKilled?
  }

  /** The rebuild an event begins, if any. */
  ghost function StartedBy(sys: Sys, e: Event): Option<Start> {
    if Runs(e) && e.input.varsOk then PhaseOf(sys, e.input).started else None
  }

  lemma FinishKeepsEntries(st: State, mem: Mem, head: Option<Commit>)
    ensures Finished(st, mem, head).stacks == st.stacks && Finished(st, mem, head).inFlight == st.inFlight
  {
  }

  /** What the rest of the run does to the reserved entry and the marker: the entry goes only when
      the phase left it pending, the marker stays as the phase left it. */
  lemma StackPhaseLeavesNixos(st: State, mem: Mem, input: RunInput)
    requires UniqueNames(input.order) && NIXOS !in Names(input.order) && NIXOS !in input.known && st.settled == []
    ensures var p := StackPhase(st, mem, input);
      var fin := Finished(p.st, p.mem, input.head);
      && fin.inFlight == st.inFlight
      && (if NIXOS in mem.queue && !(input.discovery && input.known == {}) then NIXOS !in fin.stacks
          else SameAt(st.stacks, fin.stacks, NIXOS))
  {
    var gone := RemovedNames(st, mem, input.discovery, input.known);
    var p := PhaseStart(st, mem, input);
    assert NIXOS in gone <==> NIXOS in mem.queue && !(input.discovery && input.known == {});
    PhaseLeavesAlone(p, input.order, input.turns, NIXOS);
    PhaseSettles(p, input.order, input.turns);
    var r := StackPhase(st, mem, input);
    FinishKeepsEntries(r.st, r.mem, input.head);
  }

  /** A run with NixOS enabled over a configured stack set. */
  ghost predicate NixosRun(e: Event) {
    Runs(e) ==> e.input.nixos.Some? && Configured(e.input) && NIXOS !in e.input.known
  }

  ghost predicate NixosHistory(events: seq<Event>) {
    forall i :: 0 <= i < |events| ==> NixosRun(events[i])
  }

  lemma NotAStack(input: RunInput)
    requires Configured(input)
    ensures UniqueNames(input.order) && NIXOS !in Names(input.order)
  {
    OrderKeepsStacks(input);
  }

  // ---------- the marker ----------

  /** A marker on disk goes with the given pre-save: its inputs are the recorded ones. */
  ghost predicate MarkedBy(disk: State, mark: Option<Start>) {
    disk.inFlight != {} ==> mark.Some? && Records(disk, mark.value.inputs)
  }

  /** The event pre-saves a rebuild and leaves its marker on disk. */
  ghost predicate Marks(sys: Sys, e: Event) {
    StartedBy(sys, e).Some? && e.input.nixos.Some? && e.input.nixos.value.writes.preSave
        && After(sys, e).disk.inFlight != {}
  }

  /** The rebuild whose pre-save put the newest marker on disk. */
  ghost function NewestMark(sys: Sys, events: seq<Event>): Option<Start> {
    if events == [] then None
    else
      var front, last := events[..|events| - 1], events[|events| - 1];
      var before := AfterAll(sys, front);
      if Marks(before, last) then StartedBy(before, last) else NewestMark(sys, front)
  }

  /** The rest of the run writes over the marker, or leaves the disk to the phase. */
  lemma RunClearsMarker(sys: Sys, input: RunInput, ph: PhaseResult)
    requires Configured(input) && NIXOS !in input.known
    requires ph.st.settled == ph.disk.settled == [] && (ph.verdict == Proceed ==> ph.st.inFlight == {})
    ensures var after := RunFrom(sys, input, ph).sys.disk;
      after.settled == [] && (after == ph.disk || after.inFlight == {})
  {
    if ph.verdict == Proceed {
      NotAStack(input);
      StackPhaseLeavesNixos(ph.st, ph.mem, input);
    }
  }

  lemma EventMarksOrKeeps(sys: Sys, e: Event)
    requires NixosRun(e) && sys.disk.settled == []
    ensures After(sys, e).disk.settled == []
    ensures Marks(sys, e) ==> Records(After(sys, e).disk, StartedBy(sys, e).value.inputs)
    ensures !Marks(sys, e) ==> KeepsMark(sys.disk, After(sys, e).disk)
  {
    if Runs(e) && e.input.varsOk {
      var st, ph := Loaded(sys.disk, e.input.loadOk), PhaseOf(sys, e.input);
      PhaseKeepsMarker(st, sys.disk, sys.mem, e.input.nixos.value);
      NixosPhaseFrame(st, sys.disk, sys.mem, e.input.nixos);
      if e.Ran? {
        RunClearsMarker(sys, e.input, ph);
      }
    }
  }

  /** In every history: a marker on disk means that the recorded inputs are those of the newest rebuild
      that was pre-saved, the one the next start reconciles into a success. */
  lemma {:induction false} MarkerAlwaysNamesPreSave(sys: Sys, events: seq<Event>)
    requires NixosHistory(events)
    requires sys.disk.inFlight == {} && sys.disk.settled == []
    ensures MarkedBy(AfterAll(sys, events).disk, NewestMark(sys, events))
    ensures AfterAll(sys, events).disk.settled == []
  {
    if events != [] {
      var front := events[..|events| - 1];
      MarkerAlwaysNamesPreSave(sys, front);
      EventMarksOrKeeps(AfterAll(sys, front), events[|events| - 1]);
    }
  }

  // ---------- markers that claim too much ----------

  lemma FalselyMarksIff(sys: Sys, e: Event, c: Claim)
    requires NixosRun(e) && StartedBy(sys, e).Some?
    ensures Readable(e.input.nixos.value)
    ensures Marks(sys, e) && !Bears(StartedBy(sys, e).value, c) <==> LeavesFalse(e.input.nixos.value, c)
  {
    FalseMarkStaysIff(Loaded(sys.disk, e.input.loadOk), sys.disk, sys.mem, e.input.nixos.value, c);
  }

  /** The marker on disk, if there is one, names a rebuild that bears the claim out. */
  ghost predicate MarkIsTrue(sys: Sys, events: seq<Event>, c: Claim) {
    AfterAll(sys, events).disk.inFlight != {} ==>
        NewestMark(sys, events).Some? && Bears(NewestMark(sys, events).value, c)
  }

  ghost predicate MarkIsAlwaysTrue(sys: Sys, events: seq<Event>, c: Claim) {
    MarkIsTrue(sys, events, c) && (events != [] ==> MarkIsAlwaysTrue(sys, events[..|events| - 1], c))
  }

  ghost predicate LosesItsRebuild(sys: Sys, e: Event, c: Claim) {
    && StartedBy(sys, e).Some? && e.input.nixos.Some? && Readable(e.input.nixos.value)
    && LeavesFalse(e.input.nixos.value, c)
  }

  ghost predicate NoneIsLost(sys: Sys, events: seq<Event>, c: Claim) {
    events != [] ==>
      var front := events[..|events| - 1];
      NoneIsLost(sys, front, c) && !LosesItsRebuild(AfterAll(sys, front), events[|events| - 1], c)
  }

  /** Through a whole history the marker names a rebuild that was launched exactly when no phase was cut
      short between its pre-save and the launch; and the success that the next start reports is a true one
      exactly when no phase was cut short before a rebuild that does not switch the system. */
  lemma {:induction false} MarkIsTrueIff(sys: Sys, events: seq<Event>, c: Claim)
    requires NixosHistory(events)
    requires sys.disk.inFlight == {} && sys.disk.settled == []
    ensures MarkIsAlwaysTrue(sys, events, c) <==> NoneIsLost(sys, events, c)
  {
    if events != [] {
      var front, last := events[..|events| - 1], events[|events| - 1];
      var before := AfterAll(sys, front);
      MarkIsTrueIff(sys, front, c);
      MarkerAlwaysNamesPreSave(sys, front);
      EventMarksOrKeeps(before, last);
      if StartedBy(before, last).Some? {
        FalselyMarksIff(before, last, c);
      }
    }
  }

  // ---------- how often one system is rebuilt ----------

  /** The phase reads the same inputs as the given one, or cannot read them. */
  ghost predicate SameInputs(e: Event, q: Phase) {
    Runs(e) ==>
      && e.input.loadOk && e.input.nixos.Some?
      && (Readable(e.input.nixos.value) ==> SameReading(e.input.nixos.value, q))
  }

  /** And what it saves arrives. */
  ghost predicate SameSystem(e: Event, q: Phase) {
    SameInputs(e, q) && (Runs(e) ==> e.input.writable && e.input.nixos.value.writes == Writes(true, true, true))
  }

  ghost predicate SameInputsThroughout(events: seq<Event>, q: Phase) {
    forall i :: 0 <= i < |events| ==> SameInputs(events[i], q)
  }

  ghost predicate SameSystemThroughout(events: seq<Event>, q: Phase) {
    forall i :: 0 <= i < |events| ==> SameSystem(events[i], q)
  }

  /** 1 while the system differs from the recorded one. */
  ghost function Owed(disk: State, q: Phase): nat
    requires Readable(q)
  {
    if SystemChanged(q, RecordedFor(disk, NIXOS)) then 1 else 0
  }

  ghost function Starts(sys: Sys, e: Event): nat {
    if StartedBy(sys, e).Some? then 1 else 0
  }

  /** A rebuild that failed while the process was there to see it. */
  ghost function ObservedFailures(sys: Sys, e: Event): nat {
    if StartedBy(sys, e).Some? && e.input.nixos.value.rebuild.Fails? then 1 else 0
  }

  /** A start is owed, and pays the debt unless the rebuild is seen to fail. */
  ghost predicate Pays(before: State, after: State, p: Phase, q: Phase, started: bool)
    requires Readable(q)
  {
    (if started then 1 else 0) + Owed(after, q) <= Owed(before, q) + (if started && p.rebuild.Fails? then 1 else 0)
  }

  /** What a rebuild leaves recorded: the old entry when it was seen to fail, otherwise its own inputs. */
  lemma RebuildRecords(st: State, disk: State, mem: Mem, p: Phase)
    requires Readable(p) && p.writes.preSave && p.writes.revert
    ensures var r := Rebuilt(st, disk, mem, p);
      if p.rebuild.Fails? then SameAt(st.stacks, r.disk.stacks, NIXOS) && SameAt(st.stacks, r.st.stacks, NIXOS)
      else Records(r.disk, Current(p)) && Records(r.st, Current(p))
  {
  }

  lemma RebuildPays(st: State, disk: State, mem: Mem, p: Phase, q: Phase)
    requires Readable(p) && Readable(q) && SameReading(p, q) && Owed(st, q) == 1
    requires p.writes.preSave && p.writes.revert
    ensures var r := Rebuilt(st, disk, mem, p); Pays(st, r.disk, p, q, true) && Pays(st, r.st, p, q, true)
  {
    RebuildRecords(st, disk, mem, p);
    var r := Rebuilt(st, disk, mem, p);
  }

  /** A phase that owes nothing begins nothing, and nothing is owed after it, whatever is saved. */
  lemma PaidPhase(disk: State, mem: Mem, p: Phase, q: Phase)
    requires Readable(q) && (Readable(p) ==> SameReading(p, q)) && Owed(disk, q) == 0
    ensures var r := RebuildIfChanged(disk, disk, mem, p);
      && r.started.None? && Owed(r.disk, q) == 0
      && (r.verdict == Proceed ==> Owed(r.st, q) == 0 && NIXOS !in r.mem.queue)
  {
    if Readable(p) {
      var st1, disk1 := Reconciled(disk), DiskAfterReconcile(disk, disk, p.writes.reconcile);
    }
  }

  lemma OwedPhasePays(disk: State, mem: Mem, p: Phase, q: Phase)
    requires Readable(p) && Readable(q) && SameReading(p, q) && Owed(disk, q) == 1
    requires p.writes == Writes(true, true, true)
    ensures var r := RebuildIfChanged(disk, disk, mem, p);
      && Pays(disk, r.disk, p, q, r.started.Some?)
      && (r.verdict == Proceed ==> Pays(disk, r.st, p, q, r.started.Some?))
      && (r.verdict == Proceed && NIXOS in r.mem.queue ==> r.started.None?)
  {
    var st1, disk1 := Reconciled(disk), DiskAfterReconcile(disk, disk, p.writes.reconcile);
    RebuildPays(st1, disk1, mem, p, q);
  }

  /** One phase. It is left pending only when it was paused while the rebuild was owed. */
  lemma PhasePays(disk: State, mem: Mem, p: Phase, q: Phase)
    requires Readable(q) && p.writes == Writes(true, true, true) && (Readable(p) ==> SameReading(p, q))
    ensures var r := RebuildIfChanged(disk, disk, mem, p);
      && Pays(disk, r.disk, p, q, r.started.Some?)
      && (r.verdict == Proceed ==> Pays(disk, r.st, p, q, r.started.Some?))
      && (r.verdict == Proceed && NIXOS in r.mem.queue ==> r.started.None? && Owed(disk, q) == 1)
  {
    if Owed(disk, q) == 0 {
      PaidPhase(disk, mem, p, q);
    } else if Readable(p) {
      OwedPhasePays(disk, mem, p, q);
    }
  }

  lemma RunPays(sys: Sys, input: RunInput, ph: PhaseResult, p: Phase, q: Phase)
    requires UniqueNames(input.order) && NIXOS !in Names(input.order) && NIXOS !in input.known && input.writable
    requires Readable(q) && Pays(sys.disk, ph.disk, p, q, ph.started.Some?)
    requires ph.verdict == Proceed ==>
               ph.st.settled == [] && Pays(sys.disk, ph.st, p, q, ph.started.Some?)
               && (NIXOS in ph.mem.queue ==> ph.started.None? && Owed(sys.disk, q) == 1)
    ensures Pays(sys.disk, RunFrom(sys, input, ph).sys.disk, p, q, ph.started.Some?)
  {
    if ph.verdict == Proceed && input.stackSetOk {
      StackPhaseLeavesNixos(ph.st, ph.mem, input);
    }
  }

  lemma EventPays(sys: Sys, e: Event, q: Phase)
    requires NixosRun(e) && SameSystem(e, q) && Readable(q) && sys.disk.settled == []
    ensures Starts(sys, e) + Owed(After(sys, e).disk, q) <= Owed(sys.disk, q) + ObservedFailures(sys, e)
    ensures After(sys, e).disk.settled == []
  {
    if Runs(e) && e.input.varsOk {
      var p, ph := e.input.nixos.value, PhaseOf(sys, e.input);
      PhasePays(sys.disk, sys.mem, p, q);
      NixosPhaseFrame(sys.disk, sys.disk, sys.mem, e.input.nixos);
      if e.Ran? {
        NotAStack(e.input);
        RunPays(sys, e.input, ph, p, q);
      }
    }
  }

  ghost function TotalStarts(sys: Sys, events: seq<Event>): nat {
    if events == [] then 0
    else
      var front := events[..|events| - 1];
      TotalStarts(sys, front) + Starts(AfterAll(sys, front), events[|events| - 1])
  }

  ghost function TotalObservedFailures(sys: Sys, events: seq<Event>): nat {
    if events == [] then 0
    else
      var front := events[..|events| - 1];
      TotalObservedFailures(sys, front) + ObservedFailures(AfterAll(sys, front), events[|events| - 1])
  }

  lemma {:induction false} HistoryPays(sys: Sys, events: seq<Event>, q: Phase)
    requires NixosHistory(events) && SameSystemThroughout(events, q)
    requires Readable(q) && sys.disk.settled == []
    ensures TotalStarts(sys, events) + Owed(AfterAll(sys, events).disk, q)
         <= Owed(sys.disk, q) + TotalObservedFailures(sys, events)
    ensures AfterAll(sys, events).disk.settled == []
  {
    if events != [] {
      var front := events[..|events| - 1];
      HistoryPays(sys, front, q);
      EventPays(AfterAll(sys, front), events[|events| - 1], q);
    }
  }

  /** One system is rebuilt at most once more than its rebuild was seen to fail, however often the
      process is restarted by the switch, shut down or killed in between. */
  lemma RebuildsAreNotRepeated(sys: Sys, events: seq<Event>, q: Phase)
    requires NixosHistory(events) && SameSystemThroughout(events, q)
    requires Readable(q) && sys.disk.settled == []
    ensures TotalStarts(sys, events) <= 1 + TotalObservedFailures(sys, events)
  {
    HistoryPays(sys, events, q);
  }

  lemma PaidEvent(sys: Sys, e: Event, q: Phase)
    requires NixosRun(e) && SameInputs(e, q) && Readable(q) && sys.disk.settled == [] && Owed(sys.disk, q) == 0
    ensures Starts(sys, e) == 0 && Owed(After(sys, e).disk, q) == 0 && After(sys, e).disk.settled == []
  {
    if Runs(e) && e.input.varsOk {
      var ph := PhaseOf(sys, e.input);
      PaidPhase(sys.disk, sys.mem, e.input.nixos.value, q);
      NixosPhaseFrame(sys.disk, sys.disk, sys.mem, e.input.nixos);
      if e.Ran? && ph.verdict == Proceed && e.input.stackSetOk {
        NotAStack(e.input);
        StackPhaseLeavesNixos(ph.st, ph.mem, e.input);
      }
    }
  }

  /** A system that is recorded is never rebuilt, whatever is saved: not by its own record, and not when
      the record is all that a rebuild left which was never launched. */
  lemma {:induction false} RecordedIsNeverRebuilt(sys: Sys, events: seq<Event>, q: Phase)
    requires NixosHistory(events) && SameInputsThroughout(events, q)
    requires Readable(q) && sys.disk.settled == [] && !SystemChanged(q, RecordedFor(sys.disk, NIXOS))
    ensures TotalStarts(sys, events) == 0 && !SystemChanged(q, RecordedFor(AfterAll(sys, events).disk, NIXOS))
    ensures AfterAll(sys, events).disk.settled == []
  {
    if events != [] {
      var front := events[..|events| - 1];
      RecordedIsNeverRebuilt(sys, front, q);
      PaidEvent(AfterAll(sys, front), events[|events| - 1], q);
    }
  }

  lemma LostRebuildIsRecorded(sys: Sys, cut: Event)
    requires NixosRun(cut) && LosesItsRebuild(sys, cut, HasSwitched) && sys.disk.settled == []
    ensures Records(After(sys, cut).disk, Current(cut.input.nixos.value))
    ensures After(sys, cut).disk.settled == [] && !StartedBy(sys, cut).value.switched
  {
    FalselyMarksIff(sys, cut, HasSwitched);
    EventMarksOrKeeps(sys, cut);
  }

  /** A phase that is cut short after its pre-save loses the change when its rebuild is not launched or
      fails unseen: as long as the inputs stay the same and state.yaml loads, no later run applies it. */
  lemma LostRebuildIsNeverMadeUp(sys: Sys, cut: Event, events: seq<Event>)
    requires NixosRun(cut) && LosesItsRebuild(sys, cut, HasSwitched) && sys.disk.settled == []
    requires NixosHistory(events) && SameInputsThroughout(events, cut.input.nixos.value)
    ensures !StartedBy(sys, cut).value.switched
    ensures TotalStarts(After(sys, cut), events) == 0
  {
    var p, after := cut.input.nixos.value, After(sys, cut);
    LostRebuildIsRecorded(sys, cut);
    RecordedIsNeverRebuilt(after, events, p);
  }

  // ---------- the records around a phase that does not proceed ----------

  /** The phase writes over a state file that it could not read: with the pre-save of a rebuild, or with the
      undoing of one that failed. */
  ghost predicate Overwrites(sys: Sys, input: RunInput) {
    input.varsOk && input.nixos.Some? && PhaseOf(sys, input).started.Some?
      && var p := input.nixos.value;
         p.writes.preSave || (p.rebuild.Fails? && p.writes.revert)
  }

  ghost predicate OnlyNixos(st: State) {
    st == EMPTY.(stacks := st.stacks, inFlight := st.inFlight) && forall n :: n in st.stacks ==> n == NIXOS
  }

  /** A phase over a state file that could not be read leaves either the file or nothing but the reserved
      entry. */
  lemma UnreadPhaseWrites(disk: State, mem: Mem, p: Phase)
    ensures var r := RebuildIfChanged(EMPTY, disk, mem, p);
      if r.started.Some? && (p.writes.preSave || (p.rebuild.Fails? && p.writes.revert)) then OnlyNixos(r.disk)
      else r.disk == disk
  {
    if Readable(p) {
      var marked := Marked(EMPTY, p);
      assert Reconciled(EMPTY) == EMPTY && OnlyNixos(marked) && OnlyNixos(Persisted(marked));
      assert OnlyNixos(Reverted(marked, None)) && OnlyNixos(Persisted(Reverted(marked, None)));
    }
  }

  /** A run that does not get to the stacks writes over a state file that it could not read exactly when the
      phase saves something: then every stack's record, images, base and hold are gone. */
  lemma UnreadableStateIsOverwrittenIff(sys: Sys, e: Event, n: Name)
    requires Runs(e) && !e.input.loadOk && n != NIXOS
    requires e.RanAndKilled? || PhaseOf(sys, e.input).verdict != Proceed || !e.input.stackSetOk
    ensures if Overwrites(sys, e.input) then NothingRecorded(After(sys, e).disk, n)
            else After(sys, e).disk == sys.disk
    ensures !NothingRecorded(sys.disk, n) ==>
              (NothingRecorded(After(sys, e).disk, n) <==> Overwrites(sys, e.input))
  {
    if e.input.nixos.Some? {
      UnreadPhaseWrites(sys.disk, sys.mem, e.input.nixos.value);
    }
  }

  /** A phase that does not proceed deploys no stack. It leaves every stack's record on disk as it was, unless
      state.yaml could not be read and the phase saved something. */
  lemma FailedPhaseDeploysNothing(sys: Sys, input: RunInput)
    requires input.varsOk && sys.disk.settled == [] && PhaseOf(sys, input).verdict != Proceed
    ensures Run(sys, input).log == []
    ensures input.loadOk || !Overwrites(sys, input) ==> SameStacks(sys.disk, Run(sys, input).sys.disk)
    ensures !input.loadOk && Overwrites(sys, input) ==> SameStacks(EMPTY, Run(sys, input).sys.disk)
  {
    var st := Loaded(sys.disk, input.loadOk);
    NixosPhaseFrame(st, sys.disk, sys.mem, input.nixos);
    if input.nixos.Some? {
      PhaseFrame(st, sys.disk, sys.mem, input.nixos.value);
      UnreadPhaseWrites(sys.disk, sys.mem, input.nixos.value);
    }
  }

  /** A changed flake, a rebuild that fails, and a state file that cannot be read. */
  ghost function FailsOverUnreadableState(): RunInput {
    var p := CutShort(NotLaunched).(rebuild := Fails(true));
    var t := Turn(None, None, None, false, 0, 0, 0, Applied, "", false);
    RunInput(true, false, Some(p), true, [], [], {}, false, {}, (n: Name) => t, Some("c2"), true)
  }

  /** Such a run deploys nothing and forgets every stack. */
  lemma FailedPhaseForgetsTheStacks()
    ensures var sys := Restarted(EMPTY.(stacks := map["app" := map["/app.yml" := "1"]]));
      var r := Run(sys, FailsOverUnreadableState());
      r.log == [] && "app" in sys.disk.stacks && NothingRecorded(r.sys.disk, "app")
  {
    var sys, input := Restarted(EMPTY.(stacks := map["app" := map["/app.yml" := "1"]])), FailsOverUnreadableState();
    var p := input.nixos.value;
    assert "/flake.nix" in Changed(NEW_FLAKE, map[]);
    assert DRV_KEY[0] == '@' && "/flake.nix"[0] == '/';
    assert "/flake.nix" in ChangedFilesOf(p, RecordedFor(EMPTY, NIXOS));
    assert NIXOS[0] == '_';
    UnreadableStateIsOverwrittenIff(sys, Ran(input), "app");
  }

  // ---------- a pending rebuild is announced as a removed stack ----------

  lemma RebuildKeepsEntry(st: State, disk: State, mem: Mem, p: Phase)
    requires Readable(p) && NIXOS in st.stacks && NIXOS in disk.stacks
    ensures var r := Rebuilt(st, disk, mem, p);
      NIXOS in r.disk.stacks && NIXOS in r.st.stacks && NIXOS !in r.mem.queue
  {
  }

  /** The phase itself drops no record, and leaves it pending only when paused. */
  lemma PhaseKeepsEntry(disk: State, mem: Mem, p: Phase)
    requires NIXOS in disk.stacks
    ensures var r := RebuildIfChanged(disk, disk, mem, p);
      && NIXOS in r.disk.stacks && NIXOS in r.st.stacks
      && (r.verdict == Proceed && NIXOS in r.mem.queue <==>
            Readable(p) && SystemChanged(p, RecordedFor(disk, NIXOS)) && p.paused)
  {
    if Readable(p) {
      RebuildKeepsEntry(Reconciled(disk), DiskAfterReconcile(disk, disk, p.writes.reconcile), mem, p);
    }
  }

  /** The recorded nix inputs are dropped from state.yaml exactly by a completed run whose phase found a
      changed system while paused: the pending entry is announced as a stack that left the set, and the
      next phase compares with nothing. Only a discovery that finds no stack at all spares it. */
  lemma PendingRebuildIsForgottenIff(sys: Sys, input: RunInput)
    requires NixosRun(Ran(input)) && input.varsOk && input.loadOk
    requires sys.disk.settled == [] && NIXOS in sys.disk.stacks
    ensures var p := input.nixos.value;
      NIXOS !in Run(sys, input).sys.disk.stacks <==>
        && Readable(p) && SystemChanged(p, RecordedFor(sys.disk, NIXOS)) && p.paused
        && input.stackSetOk && !(input.discovery && input.known == {}) && input.writable
  {
    var ph := PhaseOf(sys, input);
    PhaseKeepsEntry(sys.disk, sys.mem, input.nixos.value);
    NixosPhaseFrame(sys.disk, sys.disk, sys.mem, input.nixos);
    if ph.verdict == Proceed && input.stackSetOk {
      NotAStack(input);
      StackPhaseLeavesNixos(ph.st, ph.mem, input);
    }
  }

  /** A run of a configuration with one erroring stack, paused, over a changed flake. */
  ghost function PausedOverNewFlake(): RunInput {
    var p := Phase(Some(NEW_FLAKE), false, None, true, Applies, Writes(true, true, true));
    var t := Turn(None, None, None, true, 0, 0, 0, Applied, "", false);
    RunInput(true, true, Some(p), true, [], [], {"app"}, true, {"app"}, (n: Name) => t, Some("c2"), true)
  }

  /** Such a run forgets what the system was last rebuilt for. */
  lemma PausedRunForgetsTheSystem()
    ensures var sys := Restarted(EMPTY.(stacks := map[NIXOS := OLD_FLAKE]));
      NIXOS in sys.disk.stacks && NIXOS !in Run(sys, PausedOverNewFlake()).sys.disk.stacks
  {
    var sys, input := Restarted(EMPTY.(stacks := map[NIXOS := OLD_FLAKE])), PausedOverNewFlake();
    var ph := PhaseOf(sys, input);
    assert RecordedFor(Reconciled(sys.disk), NIXOS) == OLD_FLAKE;
    assert "/flake.nix" in ChangedFilesOf(input.nixos.value, OLD_FLAKE);
    assert NIXOS in ph.mem.queue && ph.verdict == Proceed;
    assert "app" in input.known && NIXOS !in input.known;
    assert NIXOS in RemovedNames(ph.st, ph.mem, input.discovery, input.known);
  }
}
