/** A whole deploy run (internal/deploy/deploy.go, ordering.go depGate, removed.go): load,
    NixOS phase, announce removed stacks, deploy in dependency order behind the gate, finish. */
module DeployRun {
  import opened Options
  import opened StackGraph
  import opened Ordering
  import opened DeployState
  import opened DeployStack
  import opened NixosRebuild

  // ---------- the dependency gate ----------

  predicate AnyHas(gate: map<Name, Outcome>, deps: seq<string>, o: Outcome) {
    exists d :: d in deps && d in gate && gate[d] == o
  }

  /** A blocked dependency wins, else a queued one; an unrecorded name counts as ready. */
  function Decide(gate: map<Name, Outcome>, deps: seq<string>): Outcome {
    if AnyHas(gate, deps, Blocked) then Blocked
    else if AnyHas(gate, deps, Queued) then Queued
    else Ready
  }

  /** The decision, and the first listed dependency that caused it. */
  method DecideGate(gate: map<Name, Outcome>, deps: seq<string>) returns (outcome: Outcome, cause: string)
    ensures outcome == Decide(gate, deps)
    ensures outcome != Ready ==> cause in deps && cause in gate && gate[cause] == outcome
  {
    var queuedBy := "";
    var queued := false;
    for i := 0 to |deps|
      invariant forall j :: 0 <= j < i && deps[j] in gate ==> gate[deps[j]] != Blocked
      invariant queued ==> queuedBy in deps && queuedBy in gate && gate[queuedBy] == Queued
      invariant !queued ==> forall j :: 0 <= j < i && deps[j] in gate ==> gate[deps[j]] == Ready
    {
      var d := deps[i];
      assert d in deps;
      if d in gate {
        if gate[d] == Blocked {
          return Blocked, d;
        }
        if gate[d] == Queued && !queued {
          queued, queuedBy := true, d;
        }
      }
    }
    if queued {
      return Queued, queuedBy;
    }
    return Ready, "";
  }

  // ---------- the stack phase ----------

  datatype Entry = Entry(stack: Name, gate: Outcome, action: Action, outcome: Outcome)
  datatype Progress = Progress(st: State, mem: Mem, gate: map<Name, Outcome>, log: seq<Entry>)

  function StackStep(p: Progress, s: Stack, t: Turn): Progress {
    var g := Decide(p.gate, s.dependsOn);
    var r := Gated(p.st, p.mem, s.name, t, g);
    var o := OutcomeOf(r, s.name, g);
    Progress(r.st, r.mem, p.gate[s.name := o], p.log + [Entry(s.name, g, r.action, o)])
  }

  function RunStacks(p: Progress, order: seq<Stack>, turns: Name -> Turn): (r: Progress)
    ensures |r.log| == |p.log| + |order|
  {
    if order == [] then p
    else
      var last := order[|order| - 1];
      StackStep(RunStacks(p, order[..|order| - 1], turns), last, turns(last.name))
  }

  function InitialGate(errored: set<Name>): map<Name, Outcome> {
    map n | n in errored :: Blocked
  }

  method DeployStacksGated(d: Deployer, state: PersistedState, order: seq<Stack>, turns: Name -> Turn,
                           errored: set<Name>)
    returns (gate: map<Name, Outcome>, log: seq<Entry>)
    modifies d, state
    ensures Progress(state.View(), d.View(), gate, log)
         == RunStacks(Progress(old(state.View()), old(d.View()), InitialGate(errored), []), order, turns)
  {
    gate, log := InitialGate(errored), [];
    ghost var start := Progress(state.View(), d.View(), gate, log);
    for i := 0 to |order|
      invariant Progress(state.View(), d.View(), gate, log) == RunStacks(start, order[..i], turns)
    {
      var s := order[i];
      assert order[..i + 1][..i] == order[..i];
      var decision, _ := DecideGate(gate, s.dependsOn);
      var action, outcome := d.DeployStackGated(s.name, turns(s.name), state, decision);
      gate := gate[s.name := outcome];
      log := log + [Entry(s.name, decision, action, outcome)];
    }
    assert order[..|order|] == order;
  }

  // ---------- stacks that left the set ----------

  /** Every stack something is recorded or pending for. The pending registry is not
      filtered for reserved names. */
  function Tracked(st: State, mem: Mem): set<Name> {
    (set n | n in st.stacks && !Reserved(n)) + mem.queue.Keys
  }

  function RemovedNames(st: State, mem: Mem, discovery: bool, known: set<Name>): set<Name> {
    if discovery && known == {} then {} else Tracked(st, mem) - known
  }

  method AnnounceRemovedStacks(d: Deployer, state: PersistedState, discovery: bool, known: set<Name>)
    returns (removed: set<Name>)
    modifies d, state
    ensures removed == RemovedNames(old(state.View()), old(d.View()), discovery, known)
    ensures forall n :: n in removed <==>
              && n !in known && !(discovery && known == {})
              && (n in old(d.queue) || (n in old(state.stacks) && n !in {"_nixos", "_config", "_project_dir"}))
    ensures state.View() == Forgotten(old(state.View()), removed)
    ensures d.View() == old(d.View()).(queue := old(d.queue) - removed)
  {
    removed := {};
    var tracked := Tracked(state.View(), d.View());
    if discovery && known == {} {
      assert state.View() == Forgotten(state.View(), removed);
      assert d.queue - removed == d.queue;
      return;
    }
    var todo := tracked;
    while todo != {}
      invariant todo <= tracked
      invariant removed == tracked - todo - known
      invariant state.View() == Forgotten(old(state.View()), removed)
      invariant d.View() == old(d.View()).(queue := old(d.queue) - removed)
      decreases todo
    {
      var n :| n in todo;
      todo := todo - {n};
      if n !in known {
        d.ClearQueued(n);
        state.ForgetStack(n);
        ForgetMore(old(state.View()), removed, n);
        assert old(d.queue) - removed - {n} == old(d.queue) - (removed + {n});
        removed := removed + {n};
      }
    }
  }

  lemma ForgetMore(s: State, names: set<Name>, n: Name)
    ensures Forgotten(Forgotten(s, names), {n}) == Forgotten(s, names + {n})
  {
    assert s.stacks - names - {n} == s.stacks - (names + {n});
    assert s.images - names - {n} == s.images - (names + {n});
    assert s.commits - names - {n} == s.commits - (names + {n});
    assert s.held - names - {n} == s.held - (names + {n});
  }

  // ---------- the end of the run ----------

  /** The settled stacks' bases move to HEAD; the global base only when nothing is pending. */
  function Finished(st: State, mem: Mem, head: Option<Commit>): State {
    if head.None? then st
    else
      var a := AdvanceBases(st, head.value);
      if mem.queue == map[] then a.(lastCommit := head.value) else a
  }

  method FinishRun(d: Deployer, state: PersistedState, file: StateFile, head: Option<Commit>, writable: bool)
    modifies state, file
    ensures state.View() == Finished(old(state.View()), d.View(), head)
    ensures file.content == Saved(old(file.content), state.View(), writable)
  {
    if head.Some? {
      state.AdvanceCommitBases(head.value);
      if |d.queue| == 0 {
        state.lastCommit := head.value;
      }
    }
    file.Save(state, writable);
  }

  // ---------- one run ----------

  /** Everything the environment decides about a run; order is what orderStacks returns. */
  datatype RunInput = RunInput(varsOk: bool, loadOk: bool, nixos: Option<Phase>, stackSetOk: bool,
                               stacks: seq<Stack>, order: seq<Stack>, errored: set<Name>,
                               discovery: bool, known: set<Name>, turns: Name -> Turn,
                               head: Option<Commit>, writable: bool)

  datatype Sys = Sys(disk: State, mem: Mem, heldNow: set<Name>)
  datatype RunResult = RunResult(sys: Sys, log: seq<Entry>, started: Option<Start>)

  function Loaded(disk: State, ok: bool): State {
    if ok then disk else EMPTY
  }

  function NixosPhase(st: State, disk: State, mem: Mem, p: Option<Phase>): PhaseResult {
    if p.None? then PhaseResult(st, disk, mem, Proceed, None) else RebuildIfChanged(st, disk, mem, p.value)
  }

  /** A new process: the queue and the retry requests are gone, the file is not. */
  function Restarted(disk: State): Sys {
    Sys(disk, Mem(map[], {}), disk.held.Keys)
  }

  /** Where the turns begin: the stacks that left the set are forgotten. */
  function PhaseStart(st: State, mem: Mem, input: RunInput): Progress {
    var gone := RemovedNames(st, mem, input.discovery, input.known);
    Progress(Forgotten(st, gone), mem.(queue := mem.queue - gone), InitialGate(input.errored), [])
  }

  /** The stack phase, from the state the NixOS phase left. */
  function StackPhase(st: State, mem: Mem, input: RunInput): Progress {
    RunStacks(PhaseStart(st, mem, input), input.order, input.turns)
  }

  /** The run after its NixOS phase. */
  function RunFrom(sys: Sys, input: RunInput, ph: PhaseResult): RunResult {
    if ph.verdict.Died? then RunResult(Restarted(ph.disk), [], ph.started)
    else if ph.verdict.Abort? || !input.stackSetOk then RunResult(Sys(ph.disk, ph.mem, sys.heldNow), [], ph.started)
    else
      var p := StackPhase(ph.st, ph.mem, input);
      var fin := Finished(p.st, p.mem, input.head);
      RunResult(Sys(Saved(ph.disk, fin, input.writable), p.mem, fin.held.Keys), p.log, ph.started)
  }

  function Run(sys: Sys, input: RunInput): RunResult {
    if !input.varsOk then RunResult(sys, [], None)
    else RunFrom(sys, input, NixosPhase(Loaded(sys.disk, input.loadOk), sys.disk, sys.mem, input.nixos))
  }

  method RunStackPhase(d: Deployer, state: PersistedState, input: RunInput) returns (log: seq<Entry>)
    modifies d, state
    ensures var p := StackPhase(old(state.View()), old(d.View()), input);
      state.View() == p.st && d.View() == p.mem && log == p.log
  {
    var gone := AnnounceRemovedStacks(d, state, input.discovery, input.known);
    var gate;
    gate, log := DeployStacksGated(d, state, input.order, input.turns, input.errored);
  }

  class Engine {
    var deployer: Deployer
    var file: StateFile
    var heldNow: set<Name>

    function View(): Sys
      reads this, deployer, file
    {
      Sys(file.content, deployer.View(), heldNow)
    }

    /** The process starts, or starts again, over an existing state file. */
    constructor (disk: State)
      ensures View() == Restarted(disk) && fresh(deployer) && fresh(file)
    {
      deployer := new Deployer(Mem(map[], {}));
      file := new StateFile(disk);
      heldNow := disk.held.Keys;
    }

    method RunNixosPhase(state: PersistedState, p: Option<Phase>)
      returns (verdict: Verdict, ghost started: Option<Start>)
      modifies deployer, file, state
      ensures PhaseResult(state.View(), file.content, deployer.View(), verdict, started)
           == NixosPhase(old(state.View()), old(file.content), old(deployer.View()), p)
    {
      if p.None? {
        return Proceed, None;
      }
      verdict, started := RebuildNixOSIfChanged(deployer, state, file, p.value);
    }

    /** The stack phase, the save that ends the run, and the published holds. */
    method DeployAndFinish(state: PersistedState, input: RunInput) returns (log: seq<Entry>)
      modifies `heldNow, deployer, file, state
      ensures var p := StackPhase(old(state.View()), old(deployer.View()), input);
        var fin := Finished(p.st, p.mem, input.head);
        && log == p.log
        && View() == Sys(Saved(old(file.content), fin, input.writable), p.mem, fin.held.Keys)
    {
      log := RunStackPhase(deployer, state, input);
      FinishRun(deployer, state, file, input.head, input.writable);
      heldNow := state.held.Keys;
    }

    /** One run. The order that the result depends on is the one orderStacks computes. */
    method DeployAllStacks(input: RunInput)
      returns (log: seq<Entry>, died: bool, ghost order: seq<Stack>, ghost started: Option<Start>)
      requires UniqueNames(input.stacks)
      modifies this, deployer, file
      ensures deployer == old(deployer) && file == old(file)
      ensures InDeployOrder(input.stacks, order)
      ensures var r := Run(old(View()), input.(order := order));
        log == r.log && started == r.started && (if died then Restarted(file.content) == r.sys else View() == r.sys)
    {
      var ordered := OrderStacks(input.stacks);
      order, log, died, started := ordered, [], false, None;
      if !input.varsOk {
        return;
      }
      var state := new PersistedState(Loaded(file.content, input.loadOk));
      var verdict;
      verdict, started := RunNixosPhase(state, input.nixos);
      if verdict != Proceed {
        return log, verdict.Died?, order, started;
      }
      if !input.stackSetOk {
        return;
      }
      log := DeployAndFinish(state, input.(order := ordered));
    }

    /** Only a held stack's retry is recorded. */
    method RequestRetry(n: Name) returns (ok: bool)
      modifies deployer
      ensures ok == (n in heldNow)
      ensures deployer.View() == old(deployer.View()).(retries := old(deployer.retryRequests) + if ok then {n} else {})
    {
      if n !in heldNow {
        return false;
      }
      deployer.retryRequests := deployer.retryRequests + {n};
      return true;
    }
  }
}
