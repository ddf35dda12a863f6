/** Held changes over whole histories (internal/deploy/held.go): how often, and how soon, a change
    that keeps failing is attempted again. */
module HoldLimits {
  import opened Options
  import opened StackGraph
  import opened DeployState
  import opened DeployStack
  import opened NixosRebuild
  import opened DeployRun
  import opened RunFacts
  import opened CommitBases
  import opened Heal

  /** An attempt that failed and was not cut short by a shutdown. */
  predicate FailedAttempt(a: Action) {
    a.Attempted? && (a.apply.Broke? || a.apply.FailedEarly?)
  }

  function CountFailures(log: seq<Entry>, n: Name): nat {
    if log == [] then 0
    else
      var last := log[|log| - 1];
      CountFailures(log[..|log| - 1], n) + if last.stack == n && FailedAttempt(last.action) then 1 else 0
  }

  lemma {:induction false} CountOne(log: seq<Entry>, n: Name, k: nat)
    requires k < |log| && forall j :: 0 <= j < |log| && j != k ==> log[j].stack != n
    ensures CountFailures(log, n) == if log[k].stack == n && FailedAttempt(log[k].action) then 1 else 0
  {
    var front := log[..|log| - 1];
    if k < |front| {
      CountOne(front, n, k);
    } else {
      CountNone(front, n);
    }
  }

  lemma {:induction false} CountNone(log: seq<Entry>, n: Name)
    requires forall j :: 0 <= j < |log| ==> log[j].stack != n
    ensures CountFailures(log, n) == 0
  {
    if log != [] {
      CountNone(log[..|log| - 1], n);
    }
  }

  // ---------- the budget of automatic attempts ----------

  /** How many more attempts of these inputs may fail before the change waits for someone. */
  function Budget(st: State, n: Name, inputs: Hashes): nat {
    if Changed(inputs, RecordedFor(st, n)) == {} then 0
    else if n !in st.held || st.held[n].fingerprint != inputs then PRE_START_HOLD_AFTER
    else if st.held[n].retryAt.None? || st.held[n].attempts > PRE_START_HOLD_AFTER then 0
    else PRE_START_HOLD_AFTER - st.held[n].attempts
  }

  /** A backoff always has an attempt left. */
  ghost predicate HoldOk(st: State, n: Name) {
    n in st.held && st.held[n].retryAt.Some? ==> 1 <= st.held[n].attempts < PRE_START_HOLD_AFTER
  }

  lemma SuccessSpendsAll(st: State, n: Name, inputs: Hashes, images: Option<Images>)
    ensures Budget(Success(st, n, inputs, images), n, inputs) == 0
    ensures HoldOk(Success(st, n, inputs, images), n)
  {
    UnchangedIffRecorded(inputs, inputs);
  }

  /** A failing attempt spends at least one; a retry request buys at most three. */
  lemma FailureSpends(st: State, n: Name, inputs: Hashes, t: Turn, retry: bool)
    requires HoldOk(st, n) && Changed(inputs, RecordedFor(st, n)) != {}
    requires t.apply.Broke? || t.apply.FailedEarly?
    requires !HeldNow(st, retry, n, inputs, t.checkedAt)
    ensures var after := Failure(AfterCheck(st, n, inputs), n, inputs, t);
      && HoldOk(after, n)
      && 1 + Budget(after, n, inputs) <= Budget(st, n, inputs) + (if retry then PRE_START_HOLD_AFTER else 0)
  {
    var after := Failure(AfterCheck(st, n, inputs), n, inputs, t);
    assert after.stacks == st.stacks;
  }

  lemma TurnSpends(st: State, mem: Mem, n: Name, inputs: Hashes, t: Turn, gate: Outcome)
    requires HoldOk(st, n) && (t.reading.Some? ==> t.reading.value == inputs)
    ensures var r := Gated(st, mem, n, t, gate);
      && HoldOk(r.st, n)
      && (if FailedAttempt(r.action) then 1 else 0) + Budget(r.st, n, inputs)
           <= Budget(st, n, inputs) + (if n in mem.retries && n !in r.mem.retries then PRE_START_HOLD_AFTER else 0)
  {
    var r := Gated(st, mem, n, t, gate);
    if r.action.Attempted? {
      var checked := AfterCheck(st, n, inputs);
      if t.apply.Applied? {
        SuccessSpendsAll(checked, n, inputs, t.images);
      } else if t.apply.Broke? || t.apply.FailedEarly? {
        FailureSpends(st, n, inputs, t, n in mem.retries);
      }
    }
  }

  // ---------- runs ----------

  /** The event leaves the stack in the set, its inputs as they are, and completes what it begins. */
  ghost predicate Steady(e: Event, n: Name, inputs: Hashes) {
    && !e.RanAndKilled?
    && (e.Ran? ==>
          && Configured(e.input) && e.input.loadOk && e.input.writable
          && (n in e.input.known || (e.input.discovery && e.input.known == {}))
          && (e.input.turns(n).reading.Some? ==> e.input.turns(n).reading.value == inputs))
  }

  ghost predicate AllSteady(events: seq<Event>, n: Name, inputs: Hashes) {
    forall i :: 0 <= i < |events| ==> Steady(events[i], n, inputs)
  }

  /** The part of it that a completed stack phase relies on. */
  ghost predicate SteadyRun(input: RunInput, n: Name, inputs: Hashes) {
    && UniqueNames(input.order) && input.writable
    && (n in input.known || (input.discovery && input.known == {}))
    && (input.turns(n).reading.Some? ==> input.turns(n).reading.value == inputs)
  }

  lemma SteadyGivesRun(input: RunInput, n: Name, inputs: Hashes)
    requires Steady(Ran(input), n, inputs)
    ensures SteadyRun(input, n, inputs)
  {
    OrderKeepsStacks(input);
  }

  /** A retry request for the stack was there before the event and is gone after it. */
  ghost predicate RetryConsumed(sys: Sys, e: Event, n: Name) {
    e.Ran? && n in sys.mem.retries && n !in After(sys, e).mem.retries
  }

  ghost function LogOf(sys: Sys, e: Event): seq<Entry> {
    if e.Ran? then Run(sys, e.input).log else []
  }

  ghost function TurnOf(e: Event, n: Name): Turn {
    if e.Ran? || e.RanAndKilled? then e.input.turns(n)
    else Turn(None, None, None, false, 0, 0, 0, Cut, "", false)
  }

  ghost function FailuresIn(sys: Sys, e: Event, n: Name): nat {
    CountFailures(LogOf(sys, e), n)
  }

  ghost predicate SameHold(a: State, b: State, n: Name) {
    SameAt(a.stacks, b.stacks, n) && SameAt(a.held, b.held, n)
  }

  lemma SameBudget(a: State, b: State, n: Name, inputs: Hashes)
    requires SameHold(a, b, n)
    ensures Budget(a, n, inputs) == Budget(b, n, inputs) && (HoldOk(a, n) <==> HoldOk(b, n))
  {
  }

  ghost predicate LogAttempts(log: seq<Entry>, n: Name) {
    exists k :: 0 <= k < |log| && log[k].stack == n && log[k].action.Attempted?
  }

  function LastAction(log: seq<Entry>, n: Name): Option<Action> {
    if log == [] then None
    else
      var last := log[|log| - 1];
      if last.stack == n then Some(last.action) else LastAction(log[..|log| - 1], n)
  }

  lemma {:induction false} LastActionAt(log: seq<Entry>, n: Name, k: nat)
    requires k < |log| && log[k].stack == n && forall j :: 0 <= j < |log| && j != k ==> log[j].stack != n
    ensures LastAction(log, n) == Some(log[k].action)
  {
    if k < |log| - 1 {
      LastActionAt(log[..|log| - 1], n, k);
    }
  }

  lemma {:induction false} LastActionNone(log: seq<Entry>, n: Name)
    requires forall j :: 0 <= j < |log| ==> log[j].stack != n
    ensures LastAction(log, n) == None
  {
    if log != [] {
      LastActionNone(log[..|log| - 1], n);
    }
  }

  /** What the log tells of a stack with a single entry. */
  lemma LogTellsEntry(log: seq<Entry>, n: Name, k: nat)
    requires k < |log| && log[k].stack == n && forall j :: 0 <= j < |log| && j != k ==> log[j].stack != n
    ensures LastAction(log, n) == Some(log[k].action) && (LogAttempts(log, n) <==> log[k].action.Attempted?)
    ensures CountFailures(log, n) == (if FailedAttempt(log[k].action) then 1 else 0)
  {
    CountOne(log, n, k);
    LastActionAt(log, n, k);
  }

  /** What a run did with a stack, from the state it began with to the one it left, as far as the stack's
      hold is concerned: one gated turn, or none. */
  ghost predicate OneTurn(before: State, mem: Mem, log: seq<Entry>, after: State, memAfter: Mem, n: Name,
                          had: bool, t: Turn, st: State, turnMem: Mem, gate: Outcome)
  {
    var out := Gated(st, turnMem, n, t, gate);
    if had then
      && SameHold(before, st, n) && SameHold(out.st, after, n)
      && (n in mem.retries <==> n in turnMem.retries) && (n in out.mem.retries <==> n in memAfter.retries)
      && LastAction(log, n) == Some(out.action) && (LogAttempts(log, n) <==> out.action.Attempted?)
      && CountFailures(log, n) == (if FailedAttempt(out.action) then 1 else 0)
    else
      && SameHold(before, after, n)
      && LastAction(log, n) == None && !LogAttempts(log, n) && CountFailures(log, n) == 0
  }

  lemma PhaseWithoutTurn(p: Progress, input: RunInput, n: Name)
    requires p.log == [] && n !in Names(input.order)
    ensures var r := RunStacks(p, input.order, input.turns);
      SameHold(p.st, r.st, n) && LastAction(r.log, n) == None && !LogAttempts(r.log, n) && CountFailures(r.log, n) == 0
  {
    var r := RunStacks(p, input.order, input.turns);
    NoTurnNoEntry(p, input.order, input.turns, n);
    CountNone(r.log, n);
    LastActionNone(r.log, n);
    PhaseLeavesAlone(p, input.order, input.turns, n);
  }

  lemma PhaseIsTurn(p: Progress, input: RunInput, n: Name) returns (had: bool, st: State, mem: Mem, gate: Outcome)
    requires UniqueNames(input.order) && p.log == []
    ensures var r := RunStacks(p, input.order, input.turns);
      OneTurn(p.st, p.mem, r.log, r.st, r.mem, n, had, input.turns(n), st, mem, gate)
  {
    var order, r := input.order, RunStacks(p, input.order, input.turns);
    had, st, mem, gate := n in Names(order), p.st, p.mem, Ready;
    if had {
      var k :| 0 <= k < |order| && order[k].name == n;
      var q, next := SoleTurn(p, order, input.turns, k);
      LogTellsEntry(r.log, n, k);
      st, mem, gate := q.st, q.mem, Decide(q.gate, order[k].dependsOn);
    } else {
      PhaseWithoutTurn(p, input, n);
    }
  }

  /** What announces removed stacks before the turns, and what finishes the run after them, leave a
      stack of the set with its hold. */
  lemma AroundThePhase(st: State, names: set<Name>, after: State, mem: Mem, head: Option<Commit>, n: Name)
    requires n !in names
    ensures SameHold(st, Forgotten(st, names), n) && SameHold(after, Persisted(Finished(after, mem, head)), n)
  {
  }

  lemma StackPhaseIsTurn(st: State, mem: Mem, input: RunInput, n: Name, inputs: Hashes)
    returns (had: bool, turnSt: State, turnMem: Mem, gate: Outcome)
    requires SteadyRun(input, n, inputs)
    ensures var p := StackPhase(st, mem, input);
      OneTurn(st, mem, p.log, Persisted(Finished(p.st, p.mem, input.head)), p.mem, n,
              had, input.turns(n), turnSt, turnMem, gate)
  {
    var p, r := PhaseStart(st, mem, input), StackPhase(st, mem, input);
    AroundThePhase(st, RemovedNames(st, mem, input.discovery, input.known), r.st, r.mem, input.head, n);
    had, turnSt, turnMem, gate := PhaseIsTurn(p, input, n);
  }

  lemma RunFromIsTurn(sys: Sys, input: RunInput, ph: PhaseResult, n: Name, inputs: Hashes)
    returns (had: bool, st: State, mem: Mem, gate: Outcome)
    requires SteadyRun(input, n, inputs) && !Reserved(n)
    requires SameStacks(sys.disk, ph.st) && SameStacks(sys.disk, ph.disk) && sys.disk.settled == []
    requires ph.mem.retries == sys.mem.retries
    ensures var r := RunFrom(sys, input, ph);
      && r.sys.disk.settled == []
      && OneTurn(sys.disk, sys.mem, r.log, r.sys.disk, r.sys.mem, n, had, input.turns(n), st, mem, gate)
  {
    assert SameAt(sys.disk.stacks, ph.st.stacks, n) && SameAt(sys.disk.stacks, ph.disk.stacks, n);
    had, st, mem, gate := false, ph.st, ph.mem, Ready;
    if ph.verdict.Proceed? && input.stackSetOk {
      var after := RunFrom(sys, input, ph).sys;
      had, st, mem, gate := StackPhaseIsTurn(ph.st, ph.mem, input, n, inputs);
    }
  }

  /** A steady event is one gated turn of the stack, or none. */
  lemma EventIsTurn(sys: Sys, e: Event, n: Name, inputs: Hashes) returns (had: bool, st: State, mem: Mem, gate: Outcome)
    requires Steady(e, n, inputs) && !Reserved(n) && sys.disk.settled == []
    ensures After(sys, e).disk.settled == [] && (had ==> e.Ran?)
    ensures OneTurn(sys.disk, sys.mem, LogOf(sys, e), After(sys, e).disk, After(sys, e).mem, n,
                    had, TurnOf(e, n), st, mem, gate)
  {
    had, st, mem, gate := false, sys.disk, sys.mem, Ready;
    if e.Ran? && e.input.varsOk {
      var ph := NixosPhase(sys.disk, sys.disk, sys.mem, e.input.nixos);
      NixosPhaseFrame(sys.disk, sys.disk, sys.mem, e.input.nixos);
      NixosKeepsRetries(sys.disk, sys.mem, e.input);
      SteadyGivesRun(e.input, n, inputs);
      had, st, mem, gate := RunFromIsTurn(sys, e.input, ph, n, inputs);
    }
  }

  lemma NixosKeepsRetries(disk: State, mem: Mem, input: RunInput)
    ensures NixosPhase(disk, disk, mem, input.nixos).mem.retries == mem.retries
  {
  }

  /** One event spends at least as many attempts as failed in it, a consumed retry buys three. */
  lemma EventSpends(sys: Sys, e: Event, n: Name, inputs: Hashes)
    requires Steady(e, n, inputs) && !Reserved(n) && sys.disk.settled == [] && HoldOk(sys.disk, n)
    ensures var after := After(sys, e);
      && after.disk.settled == [] && HoldOk(after.disk, n)
      && FailuresIn(sys, e, n) + Budget(after.disk, n, inputs)
           <= Budget(sys.disk, n, inputs) + (if RetryConsumed(sys, e, n) then PRE_START_HOLD_AFTER else 0)
  {
    var had, st, mem, gate := EventIsTurn(sys, e, n, inputs);
    if had {
      SameBudget(sys.disk, st, n, inputs);
      TurnSpends(st, mem, n, inputs, TurnOf(e, n), gate);
      SameBudget(Gated(st, mem, n, TurnOf(e, n), gate).st, After(sys, e).disk, n, inputs);
    } else {
      SameBudget(sys.disk, After(sys, e).disk, n, inputs);
    }
  }

  // ---------- histories ----------

  ghost function TotalFailures(sys: Sys, events: seq<Event>, n: Name): nat {
    if events == [] then 0
    else
      var front := events[..|events| - 1];
      TotalFailures(sys, front, n) + FailuresIn(AfterAll(sys, front), events[|events| - 1], n)
  }

  ghost function RetriesConsumed(sys: Sys, events: seq<Event>, n: Name): nat {
    if events == [] then 0
    else
      var front := events[..|events| - 1];
      RetriesConsumed(sys, front, n) + if RetryConsumed(AfterAll(sys, front), events[|events| - 1], n) then 1 else 0
  }

  lemma {:induction false} HistorySpends(sys: Sys, events: seq<Event>, n: Name, inputs: Hashes)
    requires AllSteady(events, n, inputs)
    requires !Reserved(n) && sys.disk.settled == [] && HoldOk(sys.disk, n)
    ensures var after := AfterAll(sys, events);
      && after.disk.settled == [] && HoldOk(after.disk, n)
      && TotalFailures(sys, events, n) + Budget(after.disk, n, inputs)
           <= Budget(sys.disk, n, inputs) + PRE_START_HOLD_AFTER * RetriesConsumed(sys, events, n)
  {
    if events != [] {
      var front, last := events[..|events| - 1], events[|events| - 1];
      HistorySpends(sys, front, n, inputs);
      EventSpends(AfterAll(sys, front), last, n, inputs);
    }
  }

  /** While a stack's inputs stay the same and every run completes, at most three attempts fail,
      and three more for each retry request that was consumed. */
  lemma AttemptsAreBounded(sys: Sys, events: seq<Event>, n: Name, inputs: Hashes)
    requires AllSteady(events, n, inputs)
    requires !Reserved(n) && sys.disk.settled == [] && HoldOk(sys.disk, n)
    ensures TotalFailures(sys, events, n) <= 3 * (1 + RetriesConsumed(sys, events, n))
  {
    HistorySpends(sys, events, n, inputs);
  }

  // ---------- how soon ----------

  /** The stack has a turn in the event, and it attempts a deploy. */
  ghost predicate Attempts(sys: Sys, e: Event, n: Name) {
    e.Ran? && LogAttempts(LogOf(sys, e), n)
  }

  /** What the event's run did with the stack, if it had a turn. */
  ghost function ActionIn(sys: Sys, e: Event, n: Name): Option<Action> {
    LastAction(LogOf(sys, e), n)
  }

  predicate DueBy(until: Option<int>, now: int) {
    until.Some? && now + BACKOFF_TOLERANCE >= until.value
  }

  /** The change is held until the given moment; without one, until somebody asks. */
  ghost predicate BackingOff(st: State, n: Name, inputs: Hashes, until: Option<int>) {
    && n in st.held && st.held[n].fingerprint == inputs && st.held[n].retryAt == until
    && Changed(inputs, RecordedFor(st, n)) != {}
  }

  /** An attempt that came to an end: it applied, broke, or failed before start. */
  predicate Concludes(a: Action) {
    a.Attempted? && !a.apply.Cut?
  }

  /** A turn that attempts nothing, or whose attempt is cut short, keeps a backoff for the current inputs; an
      attempt that nobody asked for comes no earlier than a minute before the backoff ends. */
  lemma TurnWhileBackingOff(st: State, mem: Mem, n: Name, inputs: Hashes, t: Turn, gate: Outcome, until: Option<int>)
    requires BackingOff(st, n, inputs, until) && (t.reading.Some? ==> t.reading.value == inputs)
    ensures var r := Gated(st, mem, n, t, gate);
      && (!Concludes(r.action) ==> SameHold(st, r.st, n) && BackingOff(r.st, n, inputs, until))
      && (r.action.Attempted? ==> n in mem.retries || DueBy(until, t.checkedAt))
  {
  }

  /** The stack's attempt in the event comes to an end. */
  ghost predicate ConcludesIn(sys: Sys, e: Event, n: Name) {
    ActionIn(sys, e, n).Some? && Concludes(ActionIn(sys, e, n).value)
  }

  /** While a stack is backing off, an event attempts it only when the backoff is about to end or a retry
      was requested, and leaves it backing off unless the attempt came to an end. */
  lemma EventWhileBackingOff(sys: Sys, e: Event, n: Name, inputs: Hashes, until: Option<int>)
    requires Steady(e, n, inputs) && !Reserved(n) && sys.disk.settled == []
    requires BackingOff(sys.disk, n, inputs, until)
    ensures After(sys, e).disk.settled == []
    ensures Attempts(sys, e, n) ==>
              n in sys.mem.retries || DueBy(until, e.input.turns(n).checkedAt)
    ensures !ConcludesIn(sys, e, n) ==> BackingOff(After(sys, e).disk, n, inputs, until)
  {
    var had, st, mem, gate := EventIsTurn(sys, e, n, inputs);
    if had {
      TurnWhileBackingOff(st, mem, n, inputs, TurnOf(e, n), gate, until);
    }
  }

  ghost predicate NoneConcluded(sys: Sys, events: seq<Event>, n: Name) {
    events != [] ==>
      var front := events[..|events| - 1];
      NoneConcluded(sys, front, n) && !ConcludesIn(AfterAll(sys, front), events[|events| - 1], n)
  }

  lemma {:induction false} StaysBackingOff(sys: Sys, events: seq<Event>, n: Name, inputs: Hashes, until: Option<int>)
    requires AllSteady(events, n, inputs) && NoneConcluded(sys, events, n)
    requires !Reserved(n) && sys.disk.settled == [] && BackingOff(sys.disk, n, inputs, until)
    ensures BackingOff(AfterAll(sys, events).disk, n, inputs, until) && AfterAll(sys, events).disk.settled == []
  {
    if events != [] {
      var front := events[..|events| - 1];
      StaysBackingOff(sys, front, n, inputs, until);
      EventWhileBackingOff(AfterAll(sys, front), events[|events| - 1], n, inputs, until);
    }
  }

  /** After the waiting events, in which no attempt of the stack came to an end, the next one attempts it,
      and nobody asked for that. */
  ghost predicate AttemptedUnasked(sys: Sys, waiting: seq<Event>, next: Event, n: Name) {
    var before := AfterAll(sys, waiting);
    && NoneConcluded(sys, waiting, n) && n !in before.mem.retries && Attempts(before, next, n)
    && TurnOf(next, n).startedAt >= TurnOf(next, n).checkedAt
  }

  /** However many runs pass over a stack that is backing off, the next attempt that nobody asked for
      begins no earlier than a minute before the backoff ends; without an end there is none. */
  lemma NextAttemptWaits(sys: Sys, waiting: seq<Event>, next: Event, n: Name, inputs: Hashes, until: Option<int>)
    requires AllSteady(waiting, n, inputs) && Steady(next, n, inputs)
    requires !Reserved(n) && sys.disk.settled == [] && BackingOff(sys.disk, n, inputs, until)
    requires AttemptedUnasked(sys, waiting, next, n)
    ensures until.Some? && TurnOf(next, n).startedAt >= until.value - 60
  {
    StaysBackingOff(sys, waiting, n, inputs, until);
    EventWhileBackingOff(AfterAll(sys, waiting), next, n, inputs, until);
  }

  // ---------- how many failures a backoff stands for ----------

  /** The failures before start that the hold counts for these inputs. */
  function AttemptsOf(st: State, n: Name, inputs: Hashes): nat {
    if n in st.held && st.held[n].fingerprint == inputs then st.held[n].attempts else 0
  }

  /** How a turn moves the number of consecutive failures before start: a deploy, a version that broke
      and a look that finds nothing to deploy end the streak, an attempt that is cut short does not. */
  function NextCount(count: nat, a: Action): nat {
    match a
    case Attempted(FailedEarly) => count + 1
    case Attempted(Applied) => 0
    case Attempted(Broke(_)) => 0
    case Unchanged => 0
    case _ => count
  }

  /** When the change is due again: five minutes from the start of the first failed attempt, ten from that of
      the second, and never after the third. */
  function RetryAfter(started: int, failures: nat): Option<int> {
    if failures == 1 then Some(started + 300) else if failures == 2 then Some(started + 600) else None
  }

  /** The backoff is five minutes, and twice as long after each further failure. */
  lemma BackoffDoubles(k: nat)
    requires k >= 1
    ensures PreStartBackoff(1) == 300 && PreStartBackoff(2) == 600
    ensures PreStartBackoff(k + 1) == 2 * PreStartBackoff(k)
  {
    assert Doubled(BACKOFF_BASE, 0) == 300 && Doubled(BACKOFF_BASE, 1) == 600;
  }

  /** The count follows the stack's turn, and a failure before start leaves the backoff for its number. */
  ghost predicate Accounted(before: State, after: State, n: Name, inputs: Hashes, a: Option<Action>, started: int) {
    var count := AttemptsOf(before, n, inputs);
    && AttemptsOf(after, n, inputs) == (if a.None? then count else NextCount(count, a.value))
    && (a == Some(Attempted(FailedEarly)) ==> BackingOff(after, n, inputs, RetryAfter(started, count + 1)))
  }

  lemma AttemptAccounts(st: State, mem: Mem, n: Name, inputs: Hashes, t: Turn)
    ensures var r := HoldOrAttempt(st, mem, n, inputs, t);
      Changed(inputs, RecordedFor(st, n)) != {} ==> Accounted(st, r.st, n, inputs, Some(r.action), t.startedAt)
  {
    var checked := AfterCheck(st, n, inputs);
    assert AttemptsOf(checked, n, inputs) == AttemptsOf(st, n, inputs) && checked.stacks == st.stacks;
  }

  lemma TurnAccounts(st: State, mem: Mem, n: Name, inputs: Hashes, t: Turn, gate: Outcome)
    requires t.reading.Some? ==> t.reading.value == inputs
    ensures var r := Gated(st, mem, n, t, gate); Accounted(st, r.st, n, inputs, Some(r.action), t.startedAt)
  {
    AttemptAccounts(st, mem, n, inputs, t);
  }

  lemma AccountedSame(a: State, b: State, c: State, d: State, n: Name, inputs: Hashes, act: Option<Action>,
                      started: int)
    requires SameHold(a, b, n) && Accounted(b, c, n, inputs, act, started) && SameHold(c, d, n)
    ensures Accounted(a, d, n, inputs, act, started)
  {
  }

  lemma EventAccounts(sys: Sys, e: Event, n: Name, inputs: Hashes)
    requires Steady(e, n, inputs) && !Reserved(n) && sys.disk.settled == []
    ensures After(sys, e).disk.settled == []
    ensures Accounted(sys.disk, After(sys, e).disk, n, inputs, ActionIn(sys, e, n), TurnOf(e, n).startedAt)
  {
    var had, st, mem, gate := EventIsTurn(sys, e, n, inputs);
    if had {
      var out := Gated(st, mem, n, TurnOf(e, n), gate);
      TurnAccounts(st, mem, n, inputs, TurnOf(e, n), gate);
      AccountedSame(sys.disk, st, out.st, After(sys, e).disk, n, inputs, Some(out.action), TurnOf(e, n).startedAt);
    }
  }

  /** The stack's consecutive failures before start in the history. */
  ghost function EarlyFailures(sys: Sys, events: seq<Event>, n: Name): nat {
    if events == [] then 0
    else
      var front := events[..|events| - 1];
      var count, a := EarlyFailures(sys, front, n), ActionIn(AfterAll(sys, front), events[|events| - 1], n);
      if a.None? then count else NextCount(count, a.value)
  }

  /** The hold's counter is the number of consecutive failures before start. */
  lemma {:induction false} HoldCountsFailures(sys: Sys, events: seq<Event>, n: Name, inputs: Hashes)
    requires AllSteady(events, n, inputs)
    requires !Reserved(n) && sys.disk.settled == [] && AttemptsOf(sys.disk, n, inputs) == 0
    ensures AttemptsOf(AfterAll(sys, events).disk, n, inputs) == EarlyFailures(sys, events, n)
    ensures AfterAll(sys, events).disk.settled == []
  {
    if events != [] {
      var front := events[..|events| - 1];
      HoldCountsFailures(sys, front, n, inputs);
      EventAccounts(AfterAll(sys, front), events[|events| - 1], n, inputs);
    }
  }

  /** A failure before start, the k-th in a row, holds the change: for five minutes from the start of the
      first attempt, for ten from that of the second, and from the third one until somebody asks. */
  lemma FailureBacksOff(sys: Sys, events: seq<Event>, before: Sys, failed: Event, n: Name, inputs: Hashes, k: nat)
    requires AllSteady(events, n, inputs) && Steady(failed, n, inputs)
    requires !Reserved(n) && sys.disk.settled == [] && AttemptsOf(sys.disk, n, inputs) == 0
    requires before == AfterAll(sys, events) && k == EarlyFailures(sys, events, n) + 1
    requires ActionIn(before, failed, n) == Some(Attempted(FailedEarly))
    ensures var after := After(before, failed).disk;
      after.settled == [] && AttemptsOf(after, n, inputs) == k
      && BackingOff(after, n, inputs, RetryAfter(TurnOf(failed, n).startedAt, k))
  {
    HoldCountsFailures(sys, events, n, inputs);
    EventAccounts(before, failed, n, inputs);
  }

  /** The next attempt that nobody asked for, after the k-th failure before start in a row and however
      many runs without an attempt or with one that was cut short, begins no earlier than that failure's
      start plus five minutes for the first and ten for the second, less a minute. After the third failure
      there is no such attempt. */
  lemma BackoffIsKept(sys: Sys, events: seq<Event>, failed: Event, after: Sys, waiting: seq<Event>, next: Event,
                      n: Name, inputs: Hashes, k: nat)
    requires AllSteady(events, n, inputs) && Steady(failed, n, inputs)
    requires AllSteady(waiting, n, inputs) && Steady(next, n, inputs)
    requires !Reserved(n) && sys.disk.settled == [] && AttemptsOf(sys.disk, n, inputs) == 0
    requires ActionIn(AfterAll(sys, events), failed, n) == Some(Attempted(FailedEarly))
    requires k == EarlyFailures(sys, events, n) + 1 && after == After(AfterAll(sys, events), failed)
    requires AttemptedUnasked(after, waiting, next, n)
    ensures k < 3
    ensures TurnOf(next, n).startedAt >= TurnOf(failed, n).startedAt + (if k == 1 then 300 else 600) - 60
  {
    FailureBacksOff(sys, events, AfterAll(sys, events), failed, n, inputs, k);
    NextAttemptWaits(after, waiting, next, n, inputs, RetryAfter(TurnOf(failed, n).startedAt, k));
  }
}
