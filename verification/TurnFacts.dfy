/** What one stack's turn does, over a whole run, stated on what was read and what was recorded. */
module TurnFacts {
  import opened Options
  import opened StackGraph
  import opened Ordering
  import opened DeployState
  import opened DeployStack
  import opened NixosRebuild
  import opened DeployRun
  import opened RunFacts
  import opened CommitBases

  // ---------- the decision ----------

  /** A file of the reading is recorded otherwise for the stack, or not at all. */
  predicate Moved(reading: Hashes, stacks: map<Name, Hashes>, n: Name, f: Path) {
    f in reading && !(n in stacks && f in stacks[n] && stacks[n][f] == reading[f])
  }

  ghost predicate Shows(reading: Option<Hashes>, stacks: map<Name, Hashes>, n: Name) {
    reading.Some? && exists f :: Moved(reading.value, stacks, n, f)
  }

  lemma PendingIffShown(reading: Option<Hashes>, st: State, n: Name)
    ensures Pending(reading, st, n) <==> Shows(reading, st.stacks, n)
    ensures reading.Some? ==>
              forall f :: f in Changed(reading.value, RecordedFor(st, n)) <==> Moved(reading.value, st.stacks, n, f)
  {
    if Pending(reading, st, n) {
      var f :| f in Changed(reading.value, RecordedFor(st, n));
      assert Moved(reading.value, st.stacks, n, f);
    }
    if reading.Some? && (exists f :: Moved(reading.value, st.stacks, n, f)) {
      var f :| Moved(reading.value, st.stacks, n, f);
      assert f in Changed(reading.value, RecordedFor(st, n));
    }
  }

  /** Exactly these inputs are held, no retry was asked for, and the backoff is not over: a minute before its
      end is soon enough. */
  predicate Waits(held: map<Name, Hold>, retries: set<Name>, n: Name, t: Turn) {
    && n in held && t.reading == Some(held[n].fingerprint) && n !in retries
    && (held[n].retryAt.Some? ==> t.checkedAt + 60 < held[n].retryAt.value)
  }

  /** Which of the seven things the turn does. */
  ghost predicate Decides(st: State, mem: Mem, n: Name, t: Turn, gate: Outcome, a: Action) {
    var deferred := gate != Ready && Shows(t.lookahead, st.stacks, n);
    var changed := Shows(t.reading, st.stacks, n);
    && (a == Deferred <==> deferred)
    && (a == Unreadable <==> !deferred && t.reading.None?)
    && (a == CleanupFailed <==> !deferred && t.reading.Some? && !changed && n in st.held && t.cleanupFails)
    && (a == Unchanged <==> !deferred && t.reading.Some? && !changed && (n in st.held ==> !t.cleanupFails))
    && (a == Paused <==> !deferred && changed && t.paused)
    && (a == Held <==> !deferred && changed && !t.paused && Waits(st.held, mem.retries, n, t))
    && (a == Attempted(t.apply) <==> !deferred && changed && !t.paused && !Waits(st.held, mem.retries, n, t))
  }

  lemma TurnDecides(st: State, mem: Mem, n: Name, t: Turn, gate: Outcome)
    ensures Decides(st, mem, n, t, gate, Gated(st, mem, n, t, gate).action)
  {
    PendingIffShown(t.lookahead, st, n);
    PendingIffShown(t.reading, st, n);
  }

  // ---------- what it leaves ----------

  /** Deploying records what was read; nothing else touches the record. */
  ghost predicate Records(before: State, after: State, n: Name, t: Turn, a: Action) {
    if a == Attempted(Applied) then
      && t.reading.Some? && n in after.stacks && after.stacks[n] == t.reading.value
      && (if t.images.Some? then n in after.images && after.images[n] == t.images.value
          else SameAt(before.images, after.images, n))
    else SameAt(before.stacks, after.stacks, n) && SameAt(before.images, after.images, n)
  }

  /** The hold after an early failure: the first of these inputs is retried after five minutes, the second
      after ten, the third waits for a change or a request. */
  function HeldAfterEarly(held: map<Name, Hold>, n: Name, reading: Hashes, t: Turn): Hold {
    var k := if n in held && held[n].fingerprint == reading then held[n].attempts + 1 else 1;
    var wait := if k == 1 then Some(t.startedAt + 300) else if k == 2 then Some(t.startedAt + 600) else None;
    Hold(reading, t.failedAt, Failed, t.newest, k, wait)
  }

  /** A stack that settles is released; a failure holds it; an attempt that was cut short drops a hold for
      other inputs and keeps one for these; everything else leaves the hold alone. */
  ghost predicate Holds(before: map<Name, Hold>, after: map<Name, Hold>, n: Name, t: Turn, a: Action) {
    match a
    case Attempted(Applied) => n !in after
    case Unchanged => n !in after
    case Attempted(Broke(status)) =>
      t.reading.Some? && n in after && after[n] == Hold(t.reading.value, t.failedAt, status, t.newest, 0, None)
    case Attempted(FailedEarly) =>
      t.reading.Some? && n in after && after[n] == HeldAfterEarly(before, n, t.reading.value, t)
    case Attempted(Cut) =>
      && (n in after <==> n in before && t.reading == Some(before[n].fingerprint))
      && (n in after ==> after[n] == before[n])
    case _ => SameAt(before, after, n)
  }

  ghost predicate NamesMoved(reading: Option<Hashes>, stacks: map<Name, Hashes>, after: Mem, n: Name) {
    && reading.Some? && n in after.queue
    && forall f :: f in after.queue[n] <==> Moved(reading.value, stacks, n, f)
  }

  /** What is deferred or paused is pending, with its changed files; what could not be read stays as it was;
      everything else is not pending any more, and consumes a retry request. */
  ghost predicate Queues(before: State, mem: Mem, after: Mem, n: Name, t: Turn, a: Action) {
    && (n in after.queue <==> a in {Deferred, Paused} || (a == Unreadable && n in mem.queue))
    && (a == Deferred ==> NamesMoved(t.lookahead, before.stacks, after, n))
    && (a == Paused ==> NamesMoved(t.reading, before.stacks, after, n))
    && (n in after.retries <==> n in mem.retries && a in {Deferred, Paused, Unreadable})
  }

  /** The whole effect of the turn on its own stack. */
  ghost predicate Leaves(before: State, mem: Mem, after: State, afterMem: Mem, n: Name, t: Turn, a: Action) {
    && Records(before, after, n, t, a) && Holds(before.held, after.held, n, t, a)
    && Queues(before, mem, afterMem, n, t, a)
  }

  lemma EarlyHold(st: State, n: Name, reading: Hashes, t: Turn)
    ensures PreStartHold(AfterCheck(st, n, reading), n, reading, t.startedAt, t.failedAt, t.newest)
         == HeldAfterEarly(st.held, n, reading, t)
  {
    assert PreStartBackoff(1) == 300 && PreStartBackoff(2) == 600 by {
      assert Doubled(BACKOFF_BASE, 0) == 300 && Doubled(BACKOFF_BASE, 1) == 600;
    }
  }

  lemma AttemptLeaves(st: State, mem: Mem, n: Name, reading: Hashes, t: Turn)
    requires t.reading == Some(reading) && !t.paused
    ensures var r := HoldOrAttempt(st, mem, n, reading, t); Leaves(st, mem, r.st, r.mem, n, t, r.action)
  {
    AttemptHolds(st, mem, n, reading, t);
  }

  lemma AttemptHolds(st: State, mem: Mem, n: Name, reading: Hashes, t: Turn)
    requires t.reading == Some(reading)
    ensures var r := HoldOrAttempt(st, mem, n, reading, t); Holds(st.held, r.st.held, n, t, r.action)
  {
    EarlyHold(st, n, reading, t);
  }

  lemma TurnLeaves(st: State, mem: Mem, n: Name, t: Turn, gate: Outcome)
    ensures var r := Gated(st, mem, n, t, gate); Leaves(st, mem, r.st, r.mem, n, t, r.action)
  {
    PendingIffShown(t.lookahead, st, n);
    PendingIffShown(t.reading, st, n);
    if t.reading.Some? && !t.paused {
      AttemptLeaves(st, mem, n, t.reading.value, t);
    }
  }

  /** Only a deployed or unchanged stack opens its dependents' gates. A paused one, and one that was deferred
      behind a pending dependency, leave them queued; everything else blocks them. */
  ghost predicate Closes(gate: Outcome, a: Action, o: Outcome) {
    && (o == Ready <==> a in {Unchanged, Attempted(Applied)})
    && (o == Queued <==> a == Paused || (a == Deferred && gate == Queued))
  }

  lemma TurnCloses(st: State, mem: Mem, n: Name, t: Turn, gate: Outcome)
    ensures var r := Gated(st, mem, n, t, gate); Closes(gate, r.action, OutcomeOf(r, n, gate))
  {
  }

  // ---------- over a phase ----------

  /** All three in one: what the turn did, what it left, and what that means to its dependents. */
  ghost predicate Turned(before: State, mem: Mem, after: State, afterMem: Mem, n: Name, t: Turn, e: Entry) {
    && Decides(before, mem, n, t, e.gate, e.action)
    && Leaves(before, mem, after, afterMem, n, t, e.action)
    && Closes(e.gate, e.action, e.outcome)
  }

  lemma SameShows(reading: Option<Hashes>, a: map<Name, Hashes>, b: map<Name, Hashes>, n: Name)
    requires SameAt(a, b, n)
    ensures Shows(reading, a, n) <==> Shows(reading, b, n)
    ensures reading.Some? ==> forall f :: Moved(reading.value, a, n, f) <==> Moved(reading.value, b, n, f)
  {
    if reading.Some? {
      assert forall f :: Moved(reading.value, a, n, f) <==> Moved(reading.value, b, n, f);
    }
  }

  /** It depends on the stack's own entries alone. */
  lemma SameDecision(a: State, aMem: Mem, b: State, bMem: Mem, n: Name, t: Turn, gate: Outcome, action: Action)
    requires SameFor(a, b, n) && SameMemFor(aMem, bMem, n) && Decides(b, bMem, n, t, gate, action)
    ensures Decides(a, aMem, n, t, gate, action)
  {
    SameShows(t.reading, a.stacks, b.stacks, n);
    SameShows(t.lookahead, a.stacks, b.stacks, n);
    assert Waits(a.held, aMem.retries, n, t) <==> Waits(b.held, bMem.retries, n, t);
  }

  lemma SameBefore(a: State, aMem: Mem, b: State, bMem: Mem, after: State, mem: Mem, n: Name, t: Turn, action: Action)
    requires SameFor(a, b, n) && SameMemFor(aMem, bMem, n) && Leaves(b, bMem, after, mem, n, t, action)
    ensures Leaves(a, aMem, after, mem, n, t, action)
  {
    SameShows(t.reading, a.stacks, b.stacks, n);
    SameShows(t.lookahead, a.stacks, b.stacks, n);
    assert t.reading.Some? ==>
        HeldAfterEarly(a.held, n, t.reading.value, t) == HeldAfterEarly(b.held, n, t.reading.value, t);
  }

  lemma SameAfter(before: State, mem: Mem, a: State, aMem: Mem, b: State, bMem: Mem, n: Name, t: Turn, action: Action)
    requires SameFor(a, b, n) && SameMemFor(aMem, bMem, n) && Leaves(before, mem, a, aMem, n, t, action)
    ensures Leaves(before, mem, b, bMem, n, t, action)
  {
  }

  /** In every stack phase the stack at position k has one turn, and what that does is decided by what was
      recorded, held and pending of it when the phase began, by its gate, and by what was read. */
  lemma TurnInPhase(p: Progress, order: seq<Stack>, turns: Name -> Turn, k: nat)
    requires UniqueNames(order) && p.log == [] && k < |order|
    ensures var r := RunStacks(p, order, turns);
      Turned(p.st, p.mem, r.st, r.mem, order[k].name, turns(order[k].name), r.log[k])
  {
    var n, t, r := order[k].name, turns(order[k].name), RunStacks(p, order, turns);
    var q, next := SoleTurn(p, order, turns, k);
    var gate := Decide(q.gate, order[k].dependsOn);
    TurnDecides(q.st, q.mem, n, t, gate);
    TurnLeaves(q.st, q.mem, n, t, gate);
    TurnCloses(q.st, q.mem, n, t, gate);
    SameDecision(p.st, p.mem, q.st, q.mem, n, t, gate, r.log[k].action);
    SameBefore(p.st, p.mem, q.st, q.mem, next.st, next.mem, n, t, r.log[k].action);
    SameAfter(p.st, p.mem, next.st, next.mem, r.st, r.mem, n, t, r.log[k].action);
  }

  // ---------- over a whole run ----------

  lemma NixosLeavesMem(st: State, disk: State, mem: Mem, p: Option<Phase>, n: Name)
    requires !Reserved(n)
    ensures SameMemFor(mem, NixosPhase(st, disk, mem, p).mem, n)
  {
  }

  lemma KnownIsKept(st: State, mem: Mem, input: RunInput, n: Name)
    requires n in input.known || (input.discovery && input.known == {})
    ensures var p := PhaseStart(st, mem, input);
      && SameFor(st, p.st, n) && SameMemFor(mem, p.mem, n)
      && SameAt(st.commits, p.st.commits, n) && p.st.lastCommit == st.lastCommit && p.st.settled == st.settled
  {
  }

  lemma StartKeeps(st: State, disk: State, mem: Mem, input: RunInput, n: Name)
    requires st.settled == [] && disk.settled == [] && !Reserved(n)
    requires n in input.known || (input.discovery && input.known == {})
    ensures var ph := NixosPhase(st, disk, mem, input.nixos);
      var p := PhaseStart(ph.st, ph.mem, input);
      && SameFor(st, p.st, n) && SameMemFor(mem, p.mem, n)
      && SameAt(st.commits, p.st.commits, n) && p.st.lastCommit == st.lastCommit && p.st.settled == []
  {
    var ph := NixosPhase(st, disk, mem, input.nixos);
    NixosPhaseFrame(st, disk, mem, input.nixos);
    NixosLeavesMem(st, disk, mem, input.nixos, n);
    KnownIsKept(ph.st, ph.mem, input, n);
    assert SameAt(st.stacks, ph.st.stacks, n);
  }

  /** The stack has its turn at the position, in a run that gets to it and saves, and it is in the set. */
  ghost predicate HasTurn(sys: Sys, input: RunInput, k: nat) {
    && Completes(sys, input) && sys.disk.settled == []
    && UniqueNames(input.order) && k < |input.order| && !Reserved(input.order[k].name)
    && (input.order[k].name in input.known || (input.discovery && input.known == {}))
  }

  /** The base commit after the turn. A stack left at its desired state moves to the HEAD that was read; any
      other keeps the base it has. */
  ghost predicate MovesBase(before: State, after: State, n: Name, head: Option<Commit>, a: Action) {
    var settles := a in {Unchanged, CleanupFailed, Attempted(Applied)};
    && (head.Some? && settles ==> n in after.commits && after.commits[n] == head.value)
    && (head.None? || (!settles && n in before.stacks && BaseCommitFor(before, n) != "") ==>
          BaseCommitFor(after, n) == BaseCommitFor(before, n))
  }

  lemma PhaseMovesBase(p: Progress, input: RunInput, k: nat)
    requires UniqueNames(input.order) && k < |input.order| && p.log == [] && p.st.settled == []
    requires !Reserved(input.order[k].name)
    ensures var r := RunStacks(p, input.order, input.turns);
      MovesBase(p.st, Finished(r.st, r.mem, input.head), input.order[k].name, input.head, r.log[k].action)
  {
    var order, n := input.order, input.order[k].name;
    var r := RunStacks(p, order, input.turns);
    PhaseSettles(p, order, input.turns);
    PhaseEffect(p, order, input.turns, k);
    SettledIff(p, order, input.turns, k);
    assert BaseCommitFor(r.st, n) == BaseCommitFor(p.st, n);
    if input.head.Some? && !Settles(r.log[k].action) && n in p.st.stacks && BaseCommitFor(p.st, n) != "" {
      assert n in r.st.stacks && n in AdvanceBases(r.st, input.head.value).commits;
    }
  }

  /** What a completed run does to a stack of its set is decided by what was recorded, held and pending of it
      before the run, by its gate, and by what its turn read: the action, the record, images, hold, pending
      change and retry request that it leaves behind, and the base commit it is then restored to. */
  lemma WhatARunDoes(sys: Sys, input: RunInput, k: nat)
    requires HasTurn(sys, input, k)
    ensures var n, t, r := input.order[k].name, input.turns(input.order[k].name), Run(sys, input);
      && |r.log| == |input.order| && r.log[k].stack == n
      && Turned(Loaded(sys.disk, input.loadOk), sys.mem, r.sys.disk, r.sys.mem, n, t, r.log[k])
      && MovesBase(Loaded(sys.disk, input.loadOk), r.sys.disk, n, input.head, r.log[k].action)
  {
    var st, n, t := Loaded(sys.disk, input.loadOk), input.order[k].name, input.turns(input.order[k].name);
    var ph := NixosPhase(st, sys.disk, sys.mem, input.nixos);
    var p, r := PhaseStart(ph.st, ph.mem, input), StackPhase(ph.st, ph.mem, input);
    var e, saved := r.log[k], Run(sys, input).sys;
    StartKeeps(st, sys.disk, sys.mem, input, n);
    TurnInPhase(p, input.order, input.turns, k);
    PhaseEffect(p, input.order, input.turns, k);
    PhaseMovesBase(p, input, k);
    SameDecision(st, sys.mem, p.st, p.mem, n, t, e.gate, e.action);
    SameBefore(st, sys.mem, p.st, p.mem, r.st, r.mem, n, t, e.action);
    SameAfter(st, sys.mem, r.st, r.mem, saved.disk, saved.mem, n, t, e.action);
  }

  /** The global base moves to HEAD exactly when it was read and nothing is left pending. */
  lemma GlobalBaseMovesIff(sys: Sys, input: RunInput)
    requires Completes(sys, input) && sys.disk.settled == []
    ensures var after := Run(sys, input).sys;
      after.disk.lastCommit == if input.head.Some? && after.mem.queue == map[] then input.head.value
                               else Loaded(sys.disk, input.loadOk).lastCommit
  {
    var st := Loaded(sys.disk, input.loadOk);
    var ph := NixosPhase(st, sys.disk, sys.mem, input.nixos);
    NixosPhaseFrame(st, sys.disk, sys.mem, input.nixos);
    PhaseSettles(PhaseStart(ph.st, ph.mem, input), input.order, input.turns);
  }

  /** A run that does not get to its stacks deploys nothing and leaves their records as they were. */
  lemma StopsBeforeTheStacks(sys: Sys, input: RunInput, n: Name)
    requires sys.disk.settled == [] && !Reserved(n) && input.loadOk
    requires !Completes(sys, input.(writable := true))
    ensures var r := Run(sys, input);
      r.log == [] && SameFor(sys.disk, r.sys.disk, n) && SameAt(sys.disk.commits, r.sys.disk.commits, n)
      && (!input.varsOk ==> r == RunResult(sys, [], None))
  {
    if input.varsOk {
      NixosPhaseFrame(sys.disk, sys.disk, sys.mem, input.nixos);
      var ph := NixosPhase(sys.disk, sys.disk, sys.mem, input.nixos);
      assert SameAt(sys.disk.stacks, ph.disk.stacks, n);
    }
  }

  // ---------- the gate and the holds of a run ----------

  /** Before the turn at position k, d had its own turn and was left with the outcome. */
  ghost predicate TurnLeft(log: seq<Entry>, order: seq<Stack>, k: nat, d: Name, o: Outcome) {
    exists j :: 0 <= j < k && j < |order| && j < |log| && order[j].name == d && log[j].outcome == o
  }

  /** Before it, d had no turn and its configuration is broken. */
  ghost predicate IsBroken(input: RunInput, k: nat, d: Name) {
    d in input.errored && forall j :: 0 <= j < k && j < |input.order| ==> input.order[j].name != d
  }

  /** In a run that gets to its stacks, a dependency that was left blocked, or whose configuration is broken,
      closes a stack's gate; else one that was left queued does; only then is it open. */
  lemma GateOfARun(sys: Sys, input: RunInput, k: nat)
    requires Completes(sys, input) && UniqueNames(input.order) && k < |input.order|
    ensures var log, deps := Run(sys, input).log, input.order[k].dependsOn;
      var blocked := exists d :: d in deps && (TurnLeft(log, input.order, k, d, Blocked) || IsBroken(input, k, d));
      var queued := exists d :: d in deps && TurnLeft(log, input.order, k, d, Queued);
      k < |log| && log[k].gate == if blocked then Blocked else if queued then Queued else Ready
  {
    var ph := NixosPhase(Loaded(sys.disk, input.loadOk), sys.disk, sys.mem, input.nixos);
    var p, order, turns := PhaseStart(ph.st, ph.mem, input), input.order, input.turns;
    var log := RunStacks(p, order, turns).log;
    GateIsIff(p, order, turns, k);
    forall d
      ensures LeftBefore(p, order, turns, k, d, Queued) <==> TurnLeft(log, order, k, d, Queued)
      ensures LeftBefore(p, order, turns, k, d, Blocked) <==>
                TurnLeft(log, order, k, d, Blocked) || IsBroken(input, k, d)
    {
    }
  }

  /** After a run that saved, and after a restart, a retry can be requested of exactly the held stacks. */
  lemma HeldCanBeRetried(sys: Sys, input: RunInput, n: Name)
    requires Completes(sys, input)
    ensures var after, again := Run(sys, input).sys, Restarted(Run(sys, input).sys.disk);
      && (n in After(after, RetryRequested(n)).mem.retries <==> n in after.mem.retries || n in after.disk.held)
      && (n in After(again, RetryRequested(n)).mem.retries <==> n in after.disk.held)
  {
  }
}
