/** What the log of a stack phase says about each stack, and the dependency gate over a whole run. */
module RunFacts {
  import opened Options
  import opened StackGraph
  import opened Ordering
  import opened DeployState
  import opened DeployStack
  import opened DeployRun

  /** The progress before each turn, and after the last one. */
  ghost function Trace(p: Progress, order: seq<Stack>, turns: Name -> Turn): (tr: seq<Progress>)
    ensures |tr| == |order| + 1
  {
    if order == [] then [p]
    else
      var tr := Trace(p, order[..|order| - 1], turns);
      var last := order[|order| - 1];
      tr + [StackStep(tr[|order| - 1], last, turns(last.name))]
  }

  lemma {:induction false} TraceSteps(p: Progress, order: seq<Stack>, turns: Name -> Turn)
    ensures var tr := Trace(p, order, turns);
      && tr[0] == p && tr[|order|] == RunStacks(p, order, turns)
      && forall k :: 0 <= k < |order| ==> tr[k + 1] == StackStep(tr[k], order[k], turns(order[k].name))
  {
    if order != [] {
      var front := order[..|order| - 1];
      var shorter, tr := Trace(p, front, turns), Trace(p, order, turns);
      TraceSteps(p, front, turns);
      assert tr[..|order|] == shorter;
      forall k | 0 <= k < |front|
        ensures tr[k + 1] == StackStep(tr[k], order[k], turns(order[k].name))
      {
        assert shorter[k] == tr[k] && shorter[k + 1] == tr[k + 1] && front[k] == order[k];
      }
    }
  }

  // ---------- the shape of a run ----------

  ghost predicate SameElsewhere(q: Progress, r: Progress, n: Name) {
    forall m :: m != n ==> SameFor(q.st, r.st, m) && SameMemFor(q.mem, r.mem, m)
  }

  /** One turn of n, seen from outside: a log entry, its outcome in the gate, and nothing
      else moved but n's own entries. */
  ghost predicate Step(q: Progress, r: Progress, n: Name, e: Entry) {
    && e.stack == n && r.log == q.log + [e] && r.gate == q.gate[n := e.outcome]
    && r.st.commits == q.st.commits && r.st.lastCommit == q.st.lastCommit && r.st.inFlight == q.st.inFlight
    && r.st.settled == q.st.settled + (if Settles(e.action) then [n] else [])
    && SameElsewhere(q, r, n)
  }

  ghost predicate Chain(tr: seq<Progress>, order: seq<Stack>) {
    && |tr| == |order| + 1 && tr[0].log == []
    && (forall k :: 0 <= k < |tr| ==> |tr[k].log| == k)
    && forall k :: 0 <= k < |order| ==> Step(tr[k], tr[k + 1], order[k].name, tr[k + 1].log[k])
  }

  lemma StepShape(q: Progress, s: Stack, t: Turn)
    ensures var r := StackStep(q, s, t);
      |r.log| == |q.log| + 1 && Step(q, r, s.name, r.log[|q.log|])
  {
    TurnKeepsTheRest(q.st, q.mem, s.name, t, Decide(q.gate, s.dependsOn));
  }

  lemma RunIsChain(p: Progress, order: seq<Stack>, turns: Name -> Turn)
    requires p.log == []
    ensures Chain(Trace(p, order, turns), order)
  {
    var tr := Trace(p, order, turns);
    TraceSteps(p, order, turns);
    TraceLogs(p, order, turns, |order|);
    forall k | 0 <= k < |order|
      ensures Step(tr[k], tr[k + 1], order[k].name, tr[k + 1].log[k])
    {
      StepShape(tr[k], order[k], turns(order[k].name));
    }
  }

  lemma {:induction false} TraceLogs(p: Progress, order: seq<Stack>, turns: Name -> Turn, n: nat)
    requires p.log == [] && n <= |order|
    ensures forall k :: 0 <= k <= n ==> |Trace(p, order, turns)[k].log| == k
  {
    TraceSteps(p, order, turns);
    if n > 0 {
      TraceLogs(p, order, turns, n - 1);
      StepShape(Trace(p, order, turns)[n - 1], order[n - 1], turns(order[n - 1].name));
    }
  }

  /** The log only grows. */
  lemma {:induction false} ChainLog(tr: seq<Progress>, order: seq<Stack>, k: nat, m: nat)
    requires Chain(tr, order) && k < m <= |order|
    ensures tr[m].log[k] == tr[k + 1].log[k] && tr[m].log[k].stack == order[k].name
    decreases m
  {
    if m > k + 1 {
      ChainLog(tr, order, k, m - 1);
      assert Step(tr[m - 1], tr[m], order[m - 1].name, tr[m].log[m - 1]);
    } else {
      assert Step(tr[k], tr[k + 1], order[k].name, tr[k + 1].log[k]);
    }
  }

  /** The gate knows the outcome of every stack that had its turn. */
  lemma {:induction false} ChainGate(tr: seq<Progress>, order: seq<Stack>, k: nat, m: nat)
    requires Chain(tr, order) && UniqueNames(order) && k < m <= |order|
    ensures order[k].name in tr[m].gate && tr[m].gate[order[k].name] == tr[m].log[k].outcome
    decreases m
  {
    ChainLog(tr, order, k, m);
    if m > k + 1 {
      ChainGate(tr, order, k, m - 1);
      ChainLog(tr, order, k, m - 1);
      assert Step(tr[m - 1], tr[m], order[m - 1].name, tr[m].log[m - 1]);
    } else {
      assert Step(tr[k], tr[k + 1], order[k].name, tr[k + 1].log[k]);
    }
  }

  /** A stack that has no turn between two moments is the same at both. */
  lemma {:induction false} ChainKeeps(tr: seq<Progress>, order: seq<Stack>, a: nat, b: nat, n: Name)
    requires Chain(tr, order) && a <= b <= |order|
    requires forall i :: a <= i < b ==> order[i].name != n
    ensures SameFor(tr[a].st, tr[b].st, n) && SameMemFor(tr[a].mem, tr[b].mem, n)
    decreases b
  {
    if a < b {
      ChainKeeps(tr, order, a, b - 1, n);
      assert Step(tr[b - 1], tr[b], order[b - 1].name, tr[b].log[b - 1]);
      assert order[b - 1].name != n;
      assert SameFor(tr[b - 1].st, tr[b].st, n) && SameMemFor(tr[b - 1].mem, tr[b].mem, n);
    }
  }

  /** Commit bases do not move during the phase; exactly the settled stacks are listed for finishRun. */
  lemma {:induction false} ChainSettles(tr: seq<Progress>, order: seq<Stack>, m: nat)
    requires Chain(tr, order) && m <= |order|
    ensures tr[m].st.commits == tr[0].st.commits && tr[m].st.lastCommit == tr[0].st.lastCommit
    ensures tr[m].st.inFlight == tr[0].st.inFlight
    ensures forall n :: n in tr[m].st.settled ==>
              n in tr[0].st.settled || exists k :: 0 <= k < m && order[k].name == n && Settles(tr[k + 1].log[k].action)
    ensures forall n :: n in tr[0].st.settled ==> n in tr[m].st.settled
    ensures forall k :: 0 <= k < m && Settles(tr[k + 1].log[k].action) ==> order[k].name in tr[m].st.settled
  {
    if m > 0 {
      ChainSettles(tr, order, m - 1);
      assert Step(tr[m - 1], tr[m], order[m - 1].name, tr[m].log[m - 1]);
    }
  }

  /** The stack at position k has exactly one turn, the one its log entry tells of. */
  lemma SoleTurn(p: Progress, order: seq<Stack>, turns: Name -> Turn, k: nat) returns (q: Progress, next: Progress)
    requires UniqueNames(order) && k < |order| && p.log == []
    ensures var n, r := order[k].name, RunStacks(p, order, turns);
      && q == Trace(p, order, turns)[k] && next == StackStep(q, order[k], turns(n))
      && |q.log| == k && |next.log| == k + 1
      && SameFor(p.st, q.st, n) && SameMemFor(p.mem, q.mem, n)
      && SameFor(next.st, r.st, n) && SameMemFor(next.mem, r.mem, n)
      && |r.log| == |order| && r.log[k] == next.log[k] && r.log[k].stack == n
      && forall j :: 0 <= j < |order| && j != k ==> r.log[j].stack != n
  {
    var n, tr := order[k].name, Trace(p, order, turns);
    TraceSteps(p, order, turns);
    RunIsChain(p, order, turns);
    ChainKeeps(tr, order, 0, k, n);
    ChainKeeps(tr, order, k + 1, |order|, n);
    ChainLog(tr, order, k, |order|);
    LogNames(tr, order);
    q, next := tr[k], tr[k + 1];
  }

  lemma LogNames(tr: seq<Progress>, order: seq<Stack>)
    requires Chain(tr, order)
    ensures forall j :: 0 <= j < |order| ==> tr[|order|].log[j].stack == order[j].name
  {
    forall j | 0 <= j < |order|
      ensures tr[|order|].log[j].stack == order[j].name
    {
      ChainLog(tr, order, j, |order|);
    }
  }

  // ---------- the gate ----------

  /** The look-ahead saw every change that the deploy itself saw. */
  ghost predicate HonestLookahead(t: Turn, st: State, n: Name) {
    Pending(t.reading, st, n) ==> Pending(t.lookahead, st, n)
  }

  /** Ready means deployed in this run, or at the recorded inputs already. */
  lemma ReadyMeans(q: Progress, s: Stack, t: Turn)
    ensures var e := StackStep(q, s, t).log[|q.log|];
      e.outcome == Ready <==> e.action.Unchanged? || e.action == Attempted(Applied)
  {
  }

  lemma PickedNamesUnique(stacks: seq<Stack>, order: seq<Stack>, rounds: seq<nat>, idx: seq<nat>)
    requires UniqueNames(stacks) && OrderOf(stacks, order, rounds, idx)
    ensures UniqueNames(order) && |order| == |stacks|
  {
    IndicesCount(rounds, idx);
    forall i, j | 0 <= i < j < |order|
      ensures order[i].name != order[j].name
    {
      assert Earlier(rounds, idx[i], idx[j]);
    }
  }

  /** A name that has no turn keeps what the gate knew about it. */
  lemma {:induction false} ChainGateKeeps(tr: seq<Progress>, order: seq<Stack>, m: nat, d: Name)
    requires Chain(tr, order) && m <= |order| && forall j :: 0 <= j < m ==> order[j].name != d
    ensures d in tr[m].gate <==> d in tr[0].gate
    ensures d in tr[0].gate ==> tr[m].gate[d] == tr[0].gate[d]
  {
    if m > 0 {
      ChainGateKeeps(tr, order, m - 1, d);
      assert Step(tr[m - 1], tr[m], order[m - 1].name, tr[m].log[m - 1]);
    }
  }

  /** Before the turn at position k, d had its own turn and was left with the outcome, or it has none and
      had the outcome to begin with: a broken configuration is blocked. */
  ghost predicate LeftBefore(p: Progress, order: seq<Stack>, turns: Name -> Turn, k: nat, d: Name, o: Outcome)
    requires p.log == [] && k <= |order|
  {
    || (exists j :: 0 <= j < k && order[j].name == d && RunStacks(p, order, turns).log[j].outcome == o)
    || (d in p.gate && p.gate[d] == o && forall j :: 0 <= j < k ==> order[j].name != d)
  }

  ghost predicate NotReadyBefore(p: Progress, order: seq<Stack>, turns: Name -> Turn, k: nat, d: Name)
    requires p.log == [] && k <= |order|
  {
    LeftBefore(p, order, turns, k, d, Queued) || LeftBefore(p, order, turns, k, d, Blocked)
  }

  /** The stack at position k depends on d, which was left not ready before its turn. */
  ghost predicate BehindNotReady(p: Progress, order: seq<Stack>, turns: Name -> Turn, k: nat, d: Name) {
    && UniqueNames(order) && p.log == [] && k < |order|
    && d in order[k].dependsOn && NotReadyBefore(p, order, turns, k, d)
  }

  lemma GateTellsTurn(p: Progress, order: seq<Stack>, turns: Name -> Turn, k: nat, j: nat)
    requires UniqueNames(order) && p.log == [] && j < k < |order|
    ensures var gate := Trace(p, order, turns)[k].gate;
      order[j].name in gate && gate[order[j].name] == RunStacks(p, order, turns).log[j].outcome
  {
    var tr := Trace(p, order, turns);
    TraceSteps(p, order, turns);
    RunIsChain(p, order, turns);
    ChainGate(tr, order, j, k);
    ChainLog(tr, order, j, k);
    ChainLog(tr, order, j, |order|);
  }

  lemma GateTellsNoTurn(p: Progress, order: seq<Stack>, turns: Name -> Turn, k: nat, d: Name)
    requires p.log == [] && k < |order| && forall j :: 0 <= j < k ==> order[j].name != d
    ensures var gate := Trace(p, order, turns)[k].gate;
      (d in gate <==> d in p.gate) && (d in gate ==> gate[d] == p.gate[d])
  {
    TraceSteps(p, order, turns);
    RunIsChain(p, order, turns);
    ChainGateKeeps(Trace(p, order, turns), order, k, d);
  }

  lemma GateTells(p: Progress, order: seq<Stack>, turns: Name -> Turn, k: nat, d: Name)
    requires UniqueNames(order) && p.log == [] && k < |order|
    ensures var gate := Trace(p, order, turns)[k].gate;
      && (forall o :: d in gate && gate[d] == o <==> LeftBefore(p, order, turns, k, d, o))
      && (d in gate && gate[d] != Ready <==> NotReadyBefore(p, order, turns, k, d))
  {
    if j :| 0 <= j < k && order[j].name == d {
      GateTellsTurn(p, order, turns, k, j);
      assert forall i :: 0 <= i < k && order[i].name == d ==> i == j;
    } else {
      GateTellsNoTurn(p, order, turns, k, d);
    }
  }

  /** In every run a stack's gate is open exactly when none of its dependencies failed, was held back
      or left pending before its turn. */
  lemma GateIsReadyIff(p: Progress, order: seq<Stack>, turns: Name -> Turn, k: nat)
    requires UniqueNames(order) && p.log == [] && k < |order|
    ensures RunStacks(p, order, turns).log[k].gate == Ready <==>
              forall d :: d in order[k].dependsOn ==> !NotReadyBefore(p, order, turns, k, d)
  {
    var q, next := SoleTurn(p, order, turns, k);
    forall d | d in order[k].dependsOn
      ensures d in q.gate && q.gate[d] != Ready <==> NotReadyBefore(p, order, turns, k, d)
    {
      GateTells(p, order, turns, k, d);
    }
  }

  /** A blocked dependency closes the gate, else a queued one; only then is it open. */
  lemma GateIsIff(p: Progress, order: seq<Stack>, turns: Name -> Turn, k: nat)
    requires UniqueNames(order) && p.log == [] && k < |order|
    ensures var gate := RunStacks(p, order, turns).log[k].gate;
      var blocked := exists d :: d in order[k].dependsOn && LeftBefore(p, order, turns, k, d, Blocked);
      var queued := exists d :: d in order[k].dependsOn && LeftBefore(p, order, turns, k, d, Queued);
      gate == if blocked then Blocked else if queued then Queued else Ready
  {
    var q, next := SoleTurn(p, order, turns, k);
    forall d | d in order[k].dependsOn
      ensures forall o :: d in q.gate && q.gate[d] == o <==> LeftBefore(p, order, turns, k, d, o)
    {
      GateTells(p, order, turns, k, d);
    }
  }

  lemma AttemptHasOpenGate(p: Progress, order: seq<Stack>, turns: Name -> Turn, k: nat, d: Name)
    requires UniqueNames(order) && p.log == [] && k < |order| && d in order[k].dependsOn
    requires HonestLookahead(turns(order[k].name), p.st, order[k].name)
    requires RunStacks(p, order, turns).log[k].action.Attempted?
    ensures !NotReadyBefore(p, order, turns, k, d)
  {
    var q, next := SoleTurn(p, order, turns, k);
    GateIsReadyIff(p, order, turns, k);
    assert RunStacks(p, order, turns).log[k].gate == Ready;
  }

  lemma ReadyInLogMeans(p: Progress, order: seq<Stack>, turns: Name -> Turn, j: nat)
    requires UniqueNames(order) && p.log == [] && j < |order|
    ensures var e := RunStacks(p, order, turns).log[j];
      e.outcome == Ready <==> e.action in {Unchanged, Attempted(Applied)}
  {
    var q, next := SoleTurn(p, order, turns, j);
    ReadyMeans(q, order[j], turns(order[j].name));
  }

  /** In a run over a graph that validation accepts, a stack starts deploying only when
      each of its dependencies had its turn before it and was deployed or unchanged. */
  lemma DeploysOnlyBehindReady(stacks: seq<Stack>, order: seq<Stack>, rounds: seq<nat>, idx: seq<nat>,
                               p: Progress, turns: Name -> Turn, k: nat, d: string) returns (j: nat)
    requires UniqueNames(stacks) && OrderOf(stacks, order, rounds, idx) && p.log == []
    requires (forall s :: s in stacks ==> EdgesKnown(s, Names(stacks))) && Stuck(stacks) == {}
    requires k < |order| && d in order[k].dependsOn
    requires HonestLookahead(turns(order[k].name), p.st, order[k].name)
    requires RunStacks(p, order, turns).log[k].action.Attempted?
    ensures j < k && order[j].name == d
    ensures RunStacks(p, order, turns).log[j].action in {Unchanged, Attempted(Applied)}
  {
    ValidGraphIsResolved(stacks, rounds);
    j := DependenciesComeFirst(stacks, rounds, idx, k, d);
    PickedNamesUnique(stacks, order, rounds, idx);
    AttemptHasOpenGate(p, order, turns, k, d);
    ReadyInLogMeans(p, order, turns, j);
  }

  /** In every run, a stack deploys behind a dependency that failed, was held back or left pending exactly
      when the look-ahead misses a change that the deploy then sees: its hashing failed, or read older
      inputs, and nothing else keeps the stack from deploying. */
  lemma LeaksBehindNotReadyIff(p: Progress, order: seq<Stack>, turns: Name -> Turn, k: nat, d: Name)
    requires BehindNotReady(p, order, turns, k, d)
    ensures var n, t := order[k].name, turns(order[k].name);
      RunStacks(p, order, turns).log[k].action.Attempted? <==>
        && !Pending(t.lookahead, p.st, n) && Pending(t.reading, p.st, n) && !t.paused
        && !HeldNow(p.st, n in p.mem.retries, n, t.reading.value, t.checkedAt)
  {
    var q, next := SoleTurn(p, order, turns, k);
    GateIsReadyIff(p, order, turns, k);
    var gate := RunStacks(p, order, turns).log[k].gate;
    assert gate != Ready && gate == Decide(q.gate, order[k].dependsOn);
    GateLeaksIff(q.st, q.mem, order[k].name, turns(order[k].name), gate);
  }

  /** The stack's configuration is fine, its dependency's is broken: without a look-ahead it deploys. */
  lemma DeploysBehindBrokenDependency()
    ensures var p := Progress(EMPTY, Mem(map[], {}), InitialGate({"db"}), []);
      var t := Turn(None, Some(map["/f" := "1"]), None, false, 0, 0, 0, Applied, "", false);
      && NotReadyBefore(p, [Stack("app", ["db"])], (n: Name) => t, 0, "db")
      && RunStacks(p, [Stack("app", ["db"])], (n: Name) => t).log[0].action == Attempted(Applied)
  {
    var p := Progress(EMPTY, Mem(map[], {}), InitialGate({"db"}), []);
    var t := Turn(None, Some(map["/f" := "1"]), None, false, 0, 0, 0, Applied, "", false);
    var order := [Stack("app", ["db"])];
    assert order[..0] == [];
    GateLeaks();
    assert "db" in p.gate && "db" in order[0].dependsOn;
    LeaksBehindNotReadyIff(p, order, (n: Name) => t, 0, "db");
  }

  /** In every run, a stack with a visible change behind a dependency that failed, was held back or left
      pending is deferred: its record, images and hold are untouched, it is pending, and it constrains
      its own dependents in turn. */
  lemma PendingBehindGateIsDeferred(p: Progress, order: seq<Stack>, turns: Name -> Turn, k: nat, d: Name)
    requires BehindNotReady(p, order, turns, k, d)
    requires Pending(turns(order[k].name).lookahead, p.st, order[k].name)
    ensures var n, r := order[k].name, RunStacks(p, order, turns);
      && r.log[k].action.Deferred? && r.log[k].outcome == r.log[k].gate != Ready
      && SameFor(p.st, r.st, n) && n in r.mem.queue
      && forall m :: k < m <= |order| ==> NotReadyBefore(p, order, turns, m, n)
  {
    var q, next := SoleTurn(p, order, turns, k);
    GateIsReadyIff(p, order, turns, k);
    assert RunStacks(p, order, turns).log[k].gate != Ready;
  }

  lemma ReadyIsLeft(p: Progress, order: seq<Stack>, turns: Name -> Turn, k: nat, m: nat)
    requires UniqueNames(order) && p.log == [] && k < m <= |order|
    requires RunStacks(p, order, turns).log[k].outcome == Ready
    ensures !NotReadyBefore(p, order, turns, m, order[k].name)
  {
    assert forall j :: 0 <= j < m && order[j].name == order[k].name ==> j == k;
  }

  /** In every run, a stack at its recorded inputs is reported unchanged whatever its own gate says, and
      never closes the gate of a dependent. */
  lemma UnchangedNeverBlocks(p: Progress, order: seq<Stack>, turns: Name -> Turn, k: nat)
    requires UniqueNames(order) && p.log == [] && k < |order|
    requires var n, t := order[k].name, turns(order[k].name);
      t.reading.Some? && !Pending(t.reading, p.st, n) && !Pending(t.lookahead, p.st, n)
      && (n in p.st.held ==> !t.cleanupFails)
    ensures var r := RunStacks(p, order, turns);
      && r.log[k].action.Unchanged? && r.log[k].outcome == Ready
      && forall m :: k < m <= |order| ==> !NotReadyBefore(p, order, turns, m, order[k].name)
  {
    var n := order[k].name;
    var q, next := SoleTurn(p, order, turns, k);
    assert RunStacks(p, order, turns).log[k].outcome == Ready;
    forall m | k < m <= |order|
      ensures !NotReadyBefore(p, order, turns, m, n)
    {
      ReadyIsLeft(p, order, turns, k, m);
    }
  }

  // ---------- what the phase does to one stack ----------

  /** How a stack's record can differ after its turn. */
  ghost predicate StackEffect(before: State, after: State, n: Name, t: Turn, a: Action) {
    && (a == Attempted(Applied) ==> t.reading.Some? && n in after.stacks && after.stacks[n] == t.reading.value)
    && (a != Attempted(Applied) ==> SameAt(before.stacks, after.stacks, n) && SameAt(before.images, after.images, n))
    && (a.Unchanged? || a.CleanupFailed? ==> t.reading.Some? && Changed(t.reading.value, RecordedFor(before, n)) == {})
  }

  lemma TurnEffect(q: Progress, s: Stack, t: Turn)
    ensures var r := StackStep(q, s, t); StackEffect(q.st, r.st, s.name, t, r.log[|q.log|].action)
  {
    TurnKeepsTheRest(q.st, q.mem, s.name, t, Decide(q.gate, s.dependsOn));
  }

  /** The phase's effect on the stack at position k is its own turn's. */
  lemma PhaseEffect(p: Progress, order: seq<Stack>, turns: Name -> Turn, k: nat)
    requires UniqueNames(order) && k < |order| && p.log == []
    ensures var r := RunStacks(p, order, turns);
      |r.log| == |order| && r.log[k].stack == order[k].name
      && StackEffect(p.st, r.st, order[k].name, turns(order[k].name), r.log[k].action)
  {
    var q, next := SoleTurn(p, order, turns, k);
    var n := order[k].name;
    TurnEffect(q, order[k], turns(n));
  }

  /** Without a turn there is no log entry. */
  lemma NoTurnNoEntry(p: Progress, order: seq<Stack>, turns: Name -> Turn, n: Name)
    requires p.log == [] && n !in Names(order)
    ensures |RunStacks(p, order, turns).log| == |order|
    ensures forall j :: 0 <= j < |order| ==> RunStacks(p, order, turns).log[j].stack != n
  {
    TraceSteps(p, order, turns);
    RunIsChain(p, order, turns);
    LogNames(Trace(p, order, turns), order);
    assert forall j :: 0 <= j < |order| ==> order[j].name in Names(order);
  }

  /** A stack that is not in the set has no turn: the phase leaves it alone. */
  lemma PhaseLeavesAlone(p: Progress, order: seq<Stack>, turns: Name -> Turn, n: Name)
    requires p.log == [] && n !in Names(order)
    ensures SameFor(p.st, RunStacks(p, order, turns).st, n) && SameMemFor(p.mem, RunStacks(p, order, turns).mem, n)
  {
    TraceSteps(p, order, turns);
    RunIsChain(p, order, turns);
    ChainKeeps(Trace(p, order, turns), order, 0, |order|, n);
  }

  /** What finishRun gets: unmoved bases, and the settled stacks of the log. */
  lemma PhaseSettles(p: Progress, order: seq<Stack>, turns: Name -> Turn)
    requires p.log == [] && p.st.settled == []
    ensures var r := RunStacks(p, order, turns);
      && r.st.commits == p.st.commits && r.st.lastCommit == p.st.lastCommit && r.st.inFlight == p.st.inFlight
      && |r.log| == |order|
      && (forall n :: n in r.st.settled ==>
           exists k :: 0 <= k < |order| && order[k].name == n && Settles(r.log[k].action))
      && (forall k :: 0 <= k < |order| && Settles(r.log[k].action) ==> order[k].name in r.st.settled)
  {
    var tr := Trace(p, order, turns);
    TraceSteps(p, order, turns);
    RunIsChain(p, order, turns);
    ChainSettles(tr, order, |order|);
    forall k | 0 <= k < |order|
      ensures tr[|order|].log[k] == tr[k + 1].log[k]
    {
      ChainLog(tr, order, k, |order|);
    }
  }

  /** The stack at position k is settled exactly when its turn left it at its desired state. */
  lemma SettledIff(p: Progress, order: seq<Stack>, turns: Name -> Turn, k: nat)
    requires UniqueNames(order) && k < |order| && p.log == [] && p.st.settled == []
    ensures var r := RunStacks(p, order, turns);
      k < |r.log| && (order[k].name in r.st.settled <==> Settles(r.log[k].action))
  {
    var r := RunStacks(p, order, turns);
    PhaseSettles(p, order, turns);
    if order[k].name in r.st.settled {
      var j :| 0 <= j < |order| && order[j].name == order[k].name && Settles(r.log[j].action);
      assert j == k;
    }
  }
}
