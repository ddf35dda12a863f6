/** The NixOS phase of a run (internal/deploy/nixos_rebuild.go): the new inputs and an
    in-flight marker are saved before the rebuild, which may restart this very process. */
module NixosRebuild {
  import opened Options
  import opened DeployState
  import opened DeployStack

  const DRV_KEY: Path := "@system-drv"

  /** What becomes of the rebuild's unit when nobody waits for it any more. */
  datatype Unit = NotLaunched | Switches | Breaks

  /** How the wait for the rebuild ends: it applied, it failed while we are alive, a shutdown abandoned
      the wait, or the process died. The rebuild runs in a unit of its own; the last three can also come
      before that unit was launched, and the last two leave it to its fate. */
  datatype Rebuild =
    | Applies
    | Fails(launched: bool)
    | ShutdownAbandons(unit: Unit)
    | ProcessDies(unit: Unit)

  predicate Launched(r: Rebuild) {
    match r
    case Applies => true
    case Fails(launched) => launched
    case ShutdownAbandons(unit) => !unit.NotLaunched?
    case ProcessDies(unit) => !unit.NotLaunched?
  }

  /** The system is switched in the end, seen or unseen. */
  predicate Switched(r: Rebuild) {
    match r
    case Applies => true
    case Fails(_) => false
    case ShutdownAbandons(unit) => unit.Switches?
    case ProcessDies(unit) => unit.Switches?
  }

  /** Which of the phase's saves of state.yaml arrive. */
  datatype Writes = Writes(reconcile: bool, preSave: bool, revert: bool)

  /** What the environment decides: the nix file hashes, the system derivation (in derivation mode), the
      pause, the rebuild, and the saves. */
  datatype Phase = Phase(files: Option<Hashes>, derivation: bool, drv: Option<Hash>, paused: bool,
                         rebuild: Rebuild, writes: Writes)

  /** Proceed to the stacks, abort the run, or the process is gone. */
  datatype Verdict = Proceed | Abort | Died

  /** A rebuild the phase began by saving its inputs, whether it was launched, and whether it switched the
      system in the end. */
  datatype Start = Start(inputs: Hashes, launched: bool, switched: bool)

  datatype PhaseResult = PhaseResult(st: State, disk: State, mem: Mem, verdict: Verdict, started: Option<Start>)

  predicate Readable(p: Phase) {
    p.files.Some? && (p.derivation ==> p.drv.Some?)
  }

  /** The inputs a rebuild would be recorded with. */
  function Current(p: Phase): Hashes
    requires Readable(p)
  {
    if p.derivation then p.files.value[DRV_KEY := p.drv.value] else p.files.value
  }

  function StartOf(p: Phase): Start
    requires Readable(p)
  {
    Start(Current(p), Launched(p.rebuild), Switched(p.rebuild))
  }

  function ChangedFilesOf(p: Phase, recorded: Hashes): set<Path>
    requires Readable(p)
  {
    Changed(p.files.value, recorded) - {DRV_KEY}
  }

  predicate SystemChanged(p: Phase, recorded: Hashes)
    requires Readable(p)
  {
    if p.derivation then Lookup(recorded, DRV_KEY) != p.drv.value else ChangedFilesOf(p, recorded) != {}
  }

  /** Never empty: an empty marker would read as no rebuild in flight. */
  function Marker(changed: set<Path>): (m: set<Path>)
    ensures m != {}
  {
    if changed == {} then {DRV_KEY} else changed
  }

  function Recorded(st: State, h: Hashes): State {
    st.(stacks := st.stacks[NIXOS := h])
  }

  function Reverted(st: State, previous: Option<Hashes>): State {
    st.(stacks := if previous.Some? then st.stacks[NIXOS := previous.value] else st.stacks - {NIXOS}, inFlight := {})
  }

  function PreviousOf(st: State): Option<Hashes> {
    if NIXOS in st.stacks then Some(st.stacks[NIXOS]) else None
  }

  function UpToDate(st: State, disk: State, mem: Mem, p: Phase): PhaseResult
    requires Readable(p)
  {
    var st1 := if p.derivation then Recorded(st, Current(p)) else st;
    PhaseResult(st1, disk, mem.(queue := mem.queue - {NIXOS}), Proceed, None)
  }

  /** What the pre-save writes: the new inputs under the marker. */
  function Marked(st: State, p: Phase): State
    requires Readable(p)
  {
    Recorded(st, Current(p)).(inFlight := Marker(ChangedFilesOf(p, RecordedFor(st, NIXOS))))
  }

  /** The rebuild itself: pre-save with the marker, launch and wait, then settle the outcome. */
  function Rebuilt(st: State, disk: State, mem: Mem, p: Phase): PhaseResult
    requires Readable(p)
  {
    var quiet := mem.(queue := mem.queue - {NIXOS});
    var marked := Marked(st, p);
    var preSaved := Saved(disk, marked, p.writes.preSave);
    var start := Some(StartOf(p));
    match p.rebuild
    case Applies => PhaseResult(marked.(inFlight := {}), preSaved, quiet, Proceed, start)
    case Fails(_) =>
      var reverted := Reverted(marked, PreviousOf(st));
      PhaseResult(reverted, Saved(preSaved, reverted, p.writes.revert), quiet, Abort, start)
    case ShutdownAbandons(_) => PhaseResult(marked, preSaved, quiet, Abort, start)
    case ProcessDies(_) => PhaseResult(marked, preSaved, quiet, Died, start)
  }

  /** A marker found at the start of the phase is reconciled into a success. */
  function Reconciled(st: State): State {
    st.(inFlight := {})
  }

  function DiskAfterReconcile(st: State, disk: State, writable: bool): State {
    if st.inFlight != {} then Saved(disk, Reconciled(st), writable) else disk
  }

  /** The phase once its marker is settled: up to date, pending while paused, or rebuilt. */
  function RebuildOrQueue(st: State, disk: State, mem: Mem, p: Phase): PhaseResult
    requires Readable(p)
  {
    var recorded := RecordedFor(st, NIXOS);
    if !SystemChanged(p, recorded) then UpToDate(st, disk, mem, p)
    else if p.paused then
      PhaseResult(st, disk, mem.(queue := mem.queue[NIXOS := ChangedFilesOf(p, recorded)]), Proceed, None)
    else Rebuilt(st, disk, mem, p)
  }

  function RebuildIfChanged(st: State, disk: State, mem: Mem, p: Phase): PhaseResult {
    if !Readable(p) then PhaseResult(st, disk, mem, Abort, None)
    else RebuildOrQueue(Reconciled(st), DiskAfterReconcile(st, disk, p.writes.reconcile), mem, p)
  }

  method DiffHashes(current: Hashes, prev: Hashes) returns (changed: seq<Path>)
    ensures Lists(changed, Changed(current, prev) - {DRV_KEY})
  {
    changed := [];
    var todo := current.Keys;
    ghost var found: set<Path> := {};
    while todo != {}
      invariant todo <= current.Keys
      invariant forall p :: p in found <==> p in current && p !in todo && p != DRV_KEY && Lookup(prev, p) != current[p]
      invariant Lists(changed, found)
      decreases todo
    {
      var path :| path in todo;
      todo := todo - {path};
      if path != DRV_KEY && Lookup(prev, path) != current[path] {
        changed := changed + [path];
        found := found + {path};
      }
    }
    assert found == Changed(current, prev) - {DRV_KEY};
  }

  /** Clears the pending entry and saves the new inputs with the marker. */
  method PreSave(d: Deployer, state: PersistedState, file: StateFile, p: Phase, current: Hashes, changed: seq<Path>)
    requires Readable(p) && current == Current(p)
    requires Lists(changed, ChangedFilesOf(p, RecordedFor(state.View(), NIXOS)))
    modifies d, state, file
    ensures state.View() == Marked(old(state.View()), p)
    ensures file.content == Saved(old(file.content), state.View(), p.writes.preSave)
    ensures d.View() == old(d.View()).(queue := old(d.queue) - {NIXOS})
  {
    ghost var files := ChangedFilesOf(p, RecordedFor(state.View(), NIXOS));
    assert (set q | q in changed) == files && (|changed| == 0 <==> files == {});
    d.ClearQueued(NIXOS);
    state.RecordStack(NIXOS, current);
    state.inFlight := if |changed| == 0 then {DRV_KEY} else set q | q in changed;
    file.Save(state, p.writes.preSave);
  }

  /** Takes the record back and clears the marker: the change is as pending as it was before. */
  method UndoPreSave(state: PersistedState, file: StateFile, previous: Option<Hashes>, writable: bool)
    modifies state, file
    ensures state.View() == Reverted(old(state.View()), previous)
    ensures file.content == Saved(old(file.content), state.View(), writable)
  {
    state.RevertStack(NIXOS, previous);
    state.inFlight := {};
    file.Save(state, writable);
  }

  /** Pre-saves the new inputs with the marker, rebuilds, and settles the outcome. */
  method RunRebuild(d: Deployer, state: PersistedState, file: StateFile, p: Phase, current: Hashes, changed: seq<Path>)
    returns (verdict: Verdict)
    requires Readable(p) && current == Current(p)
    requires Lists(changed, ChangedFilesOf(p, RecordedFor(state.View(), NIXOS)))
    modifies d, state, file
    ensures PhaseResult(state.View(), file.content, d.View(), verdict, Some(StartOf(p)))
         == Rebuilt(old(state.View()), old(file.content), old(d.View()), p)
  {
    var previous := PreviousOf(state.View());
    PreSave(d, state, file, p, current, changed);
    match p.rebuild
    case ProcessDies(_) =>
      return Died;
    case ShutdownAbandons(_) =>
      return Abort;
    case Fails(_) =>
      UndoPreSave(state, file, previous, p.writes.revert);
      return Abort;
    case Applies =>
      state.inFlight := {};
      return Proceed;
  }

  /** The phase's reading: the inputs to record, the changed files, whether the system changed. */
  method Evaluate(p: Phase, recorded: Hashes) returns (current: Hashes, changed: seq<Path>, systemChanged: bool)
    requires Readable(p)
    ensures current == Current(p) && Lists(changed, ChangedFilesOf(p, recorded))
    ensures systemChanged == SystemChanged(p, recorded)
  {
    current := p.files.value;
    changed := DiffHashes(current, recorded);
    ghost var files := ChangedFilesOf(p, recorded);
    assert |changed| == 0 <==> files == {};
    systemChanged := |changed| > 0;
    if p.derivation {
      current := current[DRV_KEY := p.drv.value];
      systemChanged := Lookup(recorded, DRV_KEY) != p.drv.value;
    }
  }

  /** Settles a marker that survived a restart: the rebuild it names applied. */
  method ReconcileMarker(state: PersistedState, file: StateFile, writable: bool)
    modifies state`inFlight, file
    ensures state.View() == Reconciled(old(state.View()))
    ensures file.content == DiskAfterReconcile(old(state.View()), old(file.content), writable)
  {
    if state.inFlight != {} {
      state.inFlight := {};
      file.Save(state, writable);
    }
  }

  /** Nothing to rebuild: nothing is pending, and in derivation mode the derivation and the files are recorded. */
  method SettleUpToDate(d: Deployer, state: PersistedState, p: Phase, current: Hashes)
    requires Readable(p) && current == Current(p)
    modifies d, state
    ensures forall disk :: PhaseResult(state.View(), disk, d.View(), Proceed, None)
                        == UpToDate(old(state.View()), disk, old(d.View()), p)
  {
    d.ClearQueued(NIXOS);
    if p.derivation {
      state.RecordStack(NIXOS, current);
    }
  }

  /** Acts on the reading: settle, queue while paused, or rebuild. */
  method Act(d: Deployer, state: PersistedState, file: StateFile, p: Phase,
             current: Hashes, changed: seq<Path>, systemChanged: bool)
    returns (verdict: Verdict, ghost started: Option<Start>)
    requires Readable(p) && current == Current(p)
    requires Lists(changed, ChangedFilesOf(p, RecordedFor(state.View(), NIXOS)))
    requires systemChanged == SystemChanged(p, RecordedFor(state.View(), NIXOS))
    modifies d, state, file
    ensures PhaseResult(state.View(), file.content, d.View(), verdict, started)
         == RebuildOrQueue(old(state.View()), old(file.content), old(d.View()), p)
  {
    if !systemChanged {
      SettleUpToDate(d, state, p, current);
      return Proceed, None;
    }
    if p.paused {
      d.Mark(NIXOS, changed);
      assert (set q | q in changed) == ChangedFilesOf(p, RecordedFor(old(state.View()), NIXOS));
      return Proceed, None;
    }
    verdict := RunRebuild(d, state, file, p, current, changed);
    return verdict, Some(StartOf(p));
  }

  method RebuildNixOSIfChanged(d: Deployer, state: PersistedState, file: StateFile, p: Phase)
    returns (verdict: Verdict, ghost started: Option<Start>)
    modifies d, state, file
    ensures PhaseResult(state.View(), file.content, d.View(), verdict, started)
         == RebuildIfChanged(old(state.View()), old(file.content), old(d.View()), p)
  {
    if p.files.None? || (p.derivation && p.drv.None?) {
      return Abort, None;
    }
    var current, changed, systemChanged := Evaluate(p, RecordedFor(state.View(), NIXOS));
    ReconcileMarker(state, file, p.writes.reconcile);
    verdict, started := Act(d, state, file, p, current, changed, systemChanged);
  }

  // ---------- what the phase compares ----------

  /** What the phase compares differs from the record: in derivation mode the derivation alone, which a
      missing entry does not match; otherwise some file that was read, other than the derivation's key. */
  ghost predicate DiffersFrom(p: Phase, recorded: map<Name, Hashes>) {
    var entry := if NIXOS in recorded then recorded[NIXOS] else map[];
    if p.derivation then p.drv.Some? && (DRV_KEY in entry ==> entry[DRV_KEY] != p.drv.value)
    else exists f :: FileDiffers(p, recorded, f)
  }

  /** A file that was read is recorded otherwise, or not at all. */
  predicate FileDiffers(p: Phase, recorded: map<Name, Hashes>, f: Path) {
    && p.files.Some? && f in p.files.value && f != DRV_KEY
    && (NIXOS in recorded && f in recorded[NIXOS] ==> recorded[NIXOS][f] != p.files.value[f])
  }

  lemma ChangedIffDiffers(p: Phase, st: State)
    requires Readable(p)
    ensures SystemChanged(p, RecordedFor(st, NIXOS)) <==> DiffersFrom(p, st.stacks)
    ensures forall f :: f in ChangedFilesOf(p, RecordedFor(st, NIXOS)) <==> FileDiffers(p, st.stacks, f)
  {
    var changed := ChangedFilesOf(p, RecordedFor(st, NIXOS));
    if changed != {} {
      var f :| f in changed;
      assert FileDiffers(p, st.stacks, f);
    }
    assert forall f :: FileDiffers(p, st.stacks, f) ==> f in changed;
  }

  /** The phase begins a rebuild exactly when everything could be read, what it compares differs from the
      record, and it is not paused; it leaves the system pending, with the files that differ, exactly when it
      is paused instead; and it aborts exactly when something could not be read, or the rebuild did not end well. */
  lemma RebuildStartsIff(st: State, disk: State, mem: Mem, p: Phase)
    ensures var r := RebuildIfChanged(st, disk, mem, p);
      var readable := p.files.Some? && (p.derivation ==> p.drv.Some?);
      && (r.started.Some? <==> readable && DiffersFrom(p, st.stacks) && !p.paused)
      && (readable ==> (NIXOS in r.mem.queue <==> DiffersFrom(p, st.stacks) && p.paused))
      && (readable && NIXOS in r.mem.queue ==> forall f :: f in r.mem.queue[NIXOS] <==> FileDiffers(p, st.stacks, f))
      && (!readable ==> r == PhaseResult(st, disk, mem, Abort, None))
      && (r.verdict == Proceed <==> readable && (r.started.Some? ==> p.rebuild.Applies?))
  {
    if Readable(p) {
      ChangedIffDiffers(p, Reconciled(st));
    }
  }

  /** What a phase that proceeds records, in memory, of the inputs it read: a rebuild and a comparison of
      derivations record all of them, the derivation included; a comparison of files that finds nothing, and
      a pause, record nothing. */
  lemma PhaseRecords(st: State, disk: State, mem: Mem, p: Phase)
    ensures var r := RebuildIfChanged(st, disk, mem, p);
      r.verdict == Proceed ==>
        if r.started.Some? || (p.derivation && !(DiffersFrom(p, st.stacks) && p.paused)) then
          && NIXOS in r.st.stacks && RecordsReading(r.st.stacks[NIXOS], p)
          && (r.started.Some? ==> r.started.value.inputs == r.st.stacks[NIXOS])
        else r.st.stacks == st.stacks
  {
    if Readable(p) {
      ChangedIffDiffers(p, Reconciled(st));
    }
  }

  /** The files as read, and in derivation mode the derivation under its own key. */
  ghost predicate RecordsReading(entry: Hashes, p: Phase) {
    && p.files.Some?
    && (forall f :: f in entry <==> f in p.files.value || (p.derivation && f == DRV_KEY))
    && (forall f :: f in entry && !(p.derivation && f == DRV_KEY) ==> entry[f] == p.files.value[f])
    && (p.derivation ==> p.drv == Some(entry[DRV_KEY]))
  }

  // ---------- what the phase guarantees ----------

  ghost predicate Records(st: State, inputs: Hashes) {
    NIXOS in st.stacks && st.stacks[NIXOS] == inputs
  }

  /** A marker that the phase finds on disk and leaves there keeps its record. */
  ghost predicate KeepsMark(before: State, after: State) {
    after.inFlight != {} ==> before.inFlight != {} && SameAt(before.stacks, after.stacks, NIXOS)
  }

  /** What a rebuild leaves on disk, as far as a marker is concerned. */
  ghost predicate MarkSettled(disk: State, r: PhaseResult, p: Phase, inputs: Hashes) {
    && (r.verdict == Proceed ==> r.st.inFlight == {})
    && (r.disk.inFlight != {} ==> if p.writes.preSave then Records(r.disk, inputs) else r.disk == disk)
  }

  lemma RebuildKeepsMarker(st: State, disk: State, mem: Mem, p: Phase)
    requires Readable(p)
    ensures MarkSettled(disk, Rebuilt(st, disk, mem, p), p, Current(p))
  {
    var marked := Marked(st, p);
    assert Records(marked, Current(p)) && Records(Persisted(marked), Current(p));
  }

  /** A marker that a phase leaves on disk goes with the inputs the phase pre-saved; a phase that
      pre-saves nothing leaves the marker it found, with its record, or none. So it is whatever else is
      saved and however the rebuild ends, launched or not. */
  lemma PhaseKeepsMarker(st: State, disk: State, mem: Mem, p: Phase)
    ensures var r := RebuildIfChanged(st, disk, mem, p);
      && (r.verdict == Proceed ==> r.st.inFlight == {})
      && (if r.started.Some? && p.writes.preSave
          then r.disk.inFlight != {} ==> Records(r.disk, r.started.value.inputs)
          else KeepsMark(disk, r.disk))
  {
    if Readable(p) {
      var disk1 := DiskAfterReconcile(st, disk, p.writes.reconcile);
      assert KeepsMark(disk, disk1);
      RebuildKeepsMarker(Reconciled(st), disk1, mem, p);
    }
  }

  /** What a marker may claim of the rebuild it names: that it was launched, or that it switched the system,
      which is what the next start reports. */
  datatype Claim = WasLaunched | HasSwitched

  predicate Bears(s: Start, c: Claim) {
    if c.WasLaunched? then s.launched else s.switched
  }

  /** The phase's record and marker stay on disk although the claim is false: a shutdown or the end of the
      process came first, or the failure could not be undone on disk. */
  predicate LeavesFalse(p: Phase, c: Claim)
    requires Readable(p)
  {
    p.writes.preSave && !Bears(StartOf(p), c) && (p.rebuild.Fails? ==> !p.writes.revert)
  }

  lemma FalseMarkStaysIff(st: State, disk: State, mem: Mem, p: Phase, c: Claim)
    requires RebuildIfChanged(st, disk, mem, p).started.Some?
    ensures var r := RebuildIfChanged(st, disk, mem, p);
      && Readable(p) && r.started == Some(StartOf(p))
      && (!Bears(StartOf(p), c) ==> r.verdict != Proceed)
      && (p.writes.preSave && !Bears(StartOf(p), c) && r.disk.inFlight != {} <==> LeavesFalse(p, c))
  {
  }

  /** The two states differ at most in the reserved entry and the marker. */
  ghost predicate SameStacks(a: State, b: State) {
    && b == a.(stacks := b.stacks, inFlight := b.inFlight)
    && forall n :: n != NIXOS ==> SameAt(a.stacks, b.stacks, n)
  }

  lemma RebuildFrame(st: State, disk: State, mem: Mem, p: Phase)
    requires Readable(p) && st.settled == []
    ensures var r := Rebuilt(st, disk, mem, p);
      SameStacks(st, r.st) && (r.disk == disk || SameStacks(st, r.disk))
  {
    var marked := Marked(st, p);
    assert SameStacks(st, marked) && Persisted(marked) == marked;
    assert SameStacks(st, Reverted(marked, PreviousOf(st)));
  }

  /** The phase moves only its own reserved entry and the marker, in memory and on disk. */
  lemma PhaseFrame(st: State, disk: State, mem: Mem, p: Phase)
    requires st.settled == []
    ensures var r := RebuildIfChanged(st, disk, mem, p);
      SameStacks(st, r.st) && (r.disk == disk || SameStacks(st, r.disk))
  {
    if Readable(p) {
      RebuildFrame(Reconciled(st), DiskAfterReconcile(st, disk, p.writes.reconcile), mem, p);
    }
  }

  /** A rebuild is begun only for inputs that differ from the recorded ones. */
  lemma RebuildsOnlyChanges(st: State, disk: State, mem: Mem, p: Phase)
    ensures var r := RebuildIfChanged(st, disk, mem, p);
      r.started.Some? ==> r.started.value.inputs != RecordedFor(st, NIXOS)
  {
    if Readable(p) && !p.derivation {
      UnchangedIffRecorded(p.files.value, RecordedFor(st, NIXOS));
    }
  }

  ghost predicate SameReading(p: Phase, q: Phase) {
    p.derivation == q.derivation && p.files == q.files && p.drv == q.drv
  }

  /** A rebuild that is cut short, by its own restart or otherwise, is not repeated: the next phase over
      the same inputs reconciles the marker and proceeds without a rebuild. It does so, too, when the
      rebuild was never launched, or failed unseen. */
  lemma CutShortIsNotRepeated(st: State, disk: State, mem: Mem, p: Phase, later: Mem, q: Phase)
    requires p.writes.preSave && (p.rebuild.ShutdownAbandons? || p.rebuild.ProcessDies?)
    requires RebuildIfChanged(st, disk, mem, p).started.Some?
    requires Readable(q) && SameReading(p, q)
    ensures var saved := RebuildIfChanged(st, disk, mem, p).disk;
      var r := RebuildIfChanged(saved, saved, later, q);
      && saved.inFlight != {}
      && r.verdict == Proceed && r.started.None?
      && r.st.inFlight == {} && (q.writes.reconcile ==> r.disk.inFlight == {})
  {
  }

  const OLD_FLAKE: Hashes := map["/flake.nix" := "1"]
  const NEW_FLAKE: Hashes := map["/flake.nix" := "2"]

  /** A shutdown abandons the rebuild of the changed flake. */
  function CutShort(unit: Unit): Phase {
    Phase(Some(NEW_FLAKE), false, None, false, ShutdownAbandons(unit), Writes(true, true, true))
  }

  /** A change that is never applied: a shutdown that is requested before the phase cancels the rebuild
      before its unit is launched, or the unit fails after the shutdown; the pre-saved record stays, and
      the next phase reports it as done. */
  lemma ShutdownLosesTheChange(unit: Unit)
    requires !unit.Switches?
    ensures var before := EMPTY.(stacks := map[NIXOS := OLD_FLAKE]);
      var cut := RebuildIfChanged(before, before, Mem(map[], {}), CutShort(unit));
      var next := RebuildIfChanged(cut.disk, cut.disk, Mem(map[], {}), CutShort(unit));
      && cut.started == Some(Start(NEW_FLAKE, unit.Breaks?, false)) && cut.disk.inFlight == {"/flake.nix"}
      && next.verdict == Proceed && next.started.None? && next.disk.inFlight == {}
      && next.disk.stacks[NIXOS] == NEW_FLAKE
  {
    var before := EMPTY.(stacks := map[NIXOS := OLD_FLAKE]);
    assert RecordedFor(before, NIXOS) == OLD_FLAKE;
    var cut := RebuildIfChanged(before, before, Mem(map[], {}), CutShort(unit));
    assert ChangedFilesOf(CutShort(unit), OLD_FLAKE) == {"/flake.nix"};
    assert cut.disk.stacks[NIXOS] == NEW_FLAKE;
    assert Changed(NEW_FLAKE, NEW_FLAKE) == {};
  }

  /** The old record is back on disk: an unpaused phase over the same inputs begins the rebuild again. */
  lemma PutBackIsRetried(st: State, p: Phase, disk: State, later: Mem, q: Phase)
    requires Readable(p) && SystemChanged(p, RecordedFor(st, NIXOS))
             && RecordedFor(disk, NIXOS) == RecordedFor(st, NIXOS)
    requires SameReading(p, q) && !q.paused
    ensures var retry := RebuildIfChanged(disk, disk, later, q);
      retry.started.Some? && retry.started.value.inputs == Current(p)
  {
    assert SystemChanged(q, RecordedFor(disk, NIXOS));
  }

  /** What a failed rebuild leaves, in memory and on disk. */
  lemma FailedRebuildLeaves(st: State, mem: Mem, p: Phase)
    requires st.settled == [] && p.rebuild.Fails? && RebuildIfChanged(st, st, mem, p).started.Some?
    ensures var r := RebuildIfChanged(st, st, mem, p);
      && r.verdict == Abort && r.st == Reconciled(st)
      && (p.writes.revert ==> r.disk == Reconciled(st))
      && (p.writes.revert || !p.writes.preSave ==> r.disk.stacks == st.stacks)
      && (!p.writes.revert && p.writes.preSave ==> r.disk == Marked(Reconciled(st), p))
  {
    var st1 := Reconciled(st);
    var reverted := Reverted(Marked(st1, p), PreviousOf(st1));
    assert reverted.stacks == st.stacks;
    assert reverted == st1;
  }

  /** A failure that is observed is retried by the next unpaused phase over the same inputs, unless the
      pre-save arrived and its undoing did not: then the failed rebuild is reported as done. */
  lemma ObservedFailureIsRetriedIff(st: State, mem: Mem, p: Phase, later: Mem, q: Phase)
    requires st.settled == [] && p.rebuild.Fails? && RebuildIfChanged(st, st, mem, p).started.Some?
    requires SameReading(p, q) && !q.paused
    ensures var r := RebuildIfChanged(st, st, mem, p);
      var retry := RebuildIfChanged(r.disk, r.disk, later, q);
      && r.verdict == Abort && r.st == Reconciled(st)
      && (p.writes.revert ==> r.disk == Reconciled(st))
      && (retry.started.Some? <==> p.writes.revert || !p.writes.preSave)
      && (retry.started.Some? ==> retry.started.value.inputs == Current(p))
      && (retry.started.None? ==> r.disk.inFlight != {} && retry.verdict == Proceed)
  {
    FailedRebuildLeaves(st, mem, p);
    var disk := RebuildIfChanged(st, st, mem, p).disk;
    if p.writes.revert || !p.writes.preSave {
      PutBackIsRetried(st, p, disk, later, q);
    }
  }
}
