/** One stack's turn in a run (internal/deploy/stackrun.go deployStackIfChanged, held.go
    isHeld, ordering.go deployStackGated): skip, queue, block, hold or deploy it. */
module DeployStack {
  import opened Options
  import opened DeployState

  /** What happened to a stack, for its dependents' gate. */
  datatype Outcome = Ready | Queued | Blocked

  /** How applyStack ended: every command succeeded, the new version broke after it
      was applied, it failed before any container was touched, or a shutdown cut it short. */
  datatype Apply = Applied | Broke(status: FailureStatus) | FailedEarly | Cut

  /** Everything the environment decides about one stack's turn: the inputs as hashed by
      the gate's look-ahead and by the deploy itself (None: the hashing failed), whether
      autosync is paused, the clock at the hold check, start and failure, and the result. */
  datatype Turn = Turn(lookahead: Option<Hashes>, reading: Option<Hashes>, images: Option<Images>, paused: bool,
                       checkedAt: int, startedAt: int, failedAt: int, apply: Apply, newest: Commit, cleanupFails: bool)

  /** What the run did with the stack. */
  datatype Action = Unreadable | Unchanged | CleanupFailed | Paused | Deferred | Held | Attempted(apply: Apply)

  /** The deployer's in-memory part: the pending registry and the retry requests. */
  datatype Mem = Mem(queue: map<Name, set<Path>>, retries: set<Name>)

  datatype Result = Result(st: State, mem: Mem, action: Action)

  predicate Pending(reading: Option<Hashes>, st: State, n: Name) {
    reading.Some? && Changed(reading.value, RecordedFor(st, n)) != {}
  }

  /** A nil error from deployStackIfChanged. */
  predicate Succeeded(a: Action) {
    a.Unchanged? || a.Paused? || a == Attempted(Applied)
  }

  /** The stack is left at its desired state. */
  predicate Settles(a: Action) {
    a.Unchanged? || a.CleanupFailed? || a == Attempted(Applied)
  }

  function Success(st: State, n: Name, reading: Hashes, images: Option<Images>): State {
    st.(stacks := st.stacks[n := reading],
        held := st.held - {n},
        images := if images.Some? then st.images[n := images.value] else st.images,
        settled := st.settled + [n])
  }

  function Failure(st: State, n: Name, reading: Hashes, t: Turn): State {
    match t.apply
    case Broke(status) => st.(held := st.held[n := Hold(reading, t.failedAt, status, t.newest, 0, None)])
    case FailedEarly => st.(held := st.held[n := PreStartHold(st, n, reading, t.startedAt, t.failedAt, t.newest)])
    case _ => st
  }

  /** The change is held for exactly these inputs, nobody asked for a retry and no backoff is due. */
  predicate HeldNow(st: State, retry: bool, n: Name, fingerprint: Hashes, now: int) {
    n in st.held && st.held[n].fingerprint == fingerprint && !retry && !Due(st.held[n], now)
  }

  /** A hold for other inputs is dropped by the check. */
  function AfterCheck(st: State, n: Name, fingerprint: Hashes): State {
    if n in st.held && st.held[n].fingerprint != fingerprint then st.(held := st.held - {n}) else st
  }

  /** Nothing to deploy: whatever was pending, requested or held for the stack is settled. */
  function SettleUnchanged(st: State, mem: Mem, n: Name, t: Turn): Result {
    var quiet := Quiet(mem, n);
    if n in st.held && t.cleanupFails then Result(st.(settled := st.settled + [n]), quiet, CleanupFailed)
    else Result(st.(settled := st.settled + [n], held := st.held - {n}), quiet, Unchanged)
  }

  /** A change that is neither deferred nor paused: held back, or attempted. */
  function HoldOrAttempt(st: State, mem: Mem, n: Name, reading: Hashes, t: Turn): Result {
    var checked := AfterCheck(st, n, reading);
    if HeldNow(st, n in mem.retries, n, reading, t.checkedAt) then Result(checked, Quiet(mem, n), Held)
    else if t.apply.Applied? then Result(Success(checked, n, reading, t.images), Quiet(mem, n), Attempted(Applied))
    else Result(Failure(checked, n, reading, t), Quiet(mem, n), Attempted(t.apply))
  }

  /** No longer pending, and a retry request is consumed. */
  function Quiet(mem: Mem, n: Name): Mem {
    Mem(mem.queue - {n}, mem.retries - {n})
  }

  function DeployIfChanged(st: State, mem: Mem, n: Name, t: Turn): Result {
    if t.reading.None? then Result(st, mem, Unreadable)
    else
      var changed := Changed(t.reading.value, RecordedFor(st, n));
      if changed == {} then SettleUnchanged(st, mem, n, t)
      else if t.paused then Result(st, mem.(queue := mem.queue[n := changed]), Paused)
      else HoldOrAttempt(st, mem, n, t.reading.value, t)
  }

  /** The gate over the single-stack deploy: a constrained stack with a visible change is deferred. */
  function Gated(st: State, mem: Mem, n: Name, t: Turn, gate: Outcome): Result {
    if gate != Ready && Pending(t.lookahead, st, n) then
      Result(st, mem.(queue := mem.queue[n := Changed(t.lookahead.value, RecordedFor(st, n))]), Deferred)
    else DeployIfChanged(st, mem, n, t)
  }

  function OutcomeOf(r: Result, n: Name, gate: Outcome): Outcome {
    if r.action.Deferred? then gate
    else if !Succeeded(r.action) then Blocked
    else if n in r.mem.queue then Queued
    else Ready
  }

  // ---------- the deployer's per-stack methods ----------

  class Deployer {
    var queue: map<Name, set<Path>>
    var retryRequests: set<Name>

    function View(): Mem
      reads this
    {
      Mem(queue, retryRequests)
    }

    constructor (mem: Mem)
      ensures View() == mem
    {
      queue, retryRequests := mem.queue, mem.retries;
    }

    method ClearQueued(n: Name)
      modifies `queue
      ensures queue == old(queue) - {n}
    {
      queue := queue - {n};
    }

    method Mark(n: Name, changed: seq<Path>)
      modifies `queue
      ensures queue == old(queue)[n := set p | p in changed]
    {
      queue := queue[n := set p | p in changed];
    }

    /** One request is one attempt. */
    method TakeRetryRequest(n: Name) returns (requested: bool)
      modifies `retryRequests
      ensures requested == (n in old(retryRequests))
      ensures retryRequests == old(retryRequests) - {n}
    {
      requested := n in retryRequests;
      retryRequests := retryRequests - {n};
    }

    method IsHeld(n: Name, fingerprint: Hashes, state: PersistedState, now: int) returns (held: bool)
      modifies `retryRequests, state`held
      ensures retryRequests == old(retryRequests) - {n}
      ensures held == HeldNow(old(state.View()), n in old(retryRequests), n, fingerprint, now)
      ensures state.View() == AfterCheck(old(state.View()), n, fingerprint)
    {
      var retry := TakeRetryRequest(n);
      if n !in state.held {
        return false;
      }
      var h := state.held[n];
      if h.fingerprint != fingerprint {
        state.Release(n);
        return false;
      }
      return !retry && !Due(h, now);
    }

    method RecordStackSuccess(n: Name, reading: Hashes, images: Option<Images>, state: PersistedState)
      modifies state
      ensures state.View() == Success(old(state.View()), n, reading, images)
    {
      state.RecordStack(n, reading);
      state.Release(n);
      if images.Some? {
        state.images := state.images[n := images.value];
      }
      state.MarkSettled(n);
    }

    /** What the deferred failure handler records. */
    method RecordFailure(n: Name, reading: Hashes, t: Turn, state: PersistedState)
      modifies state
      ensures state.View() == Failure(old(state.View()), n, reading, t)
    {
      match t.apply
      case Broke(status) => state.HoldStack(n, Hold(reading, t.failedAt, status, t.newest, 0, None));
      case FailedEarly => state.RecordPreStartFailure(n, reading, t.startedAt, t.failedAt, t.newest);
      case _ =>
    }

    method DeployStackIfChanged(n: Name, t: Turn, state: PersistedState) returns (action: Action)
      modifies this, state
      ensures Result(state.View(), View(), action) == DeployIfChanged(old(state.View()), old(View()), n, t)
    {
      if t.reading.None? {
        return Unreadable;
      }
      var reading := t.reading.value;
      var recorded := RecordedFor(state.View(), n);
      var changed := ChangedFiles(reading, recorded);
      ghost var pending := Changed(reading, recorded);
      assert |changed| == 0 <==> pending == {};
      if |changed| == 0 {
        ClearQueued(n);
        state.MarkSettled(n);
        var _ := TakeRetryRequest(n);
        if n in state.held {
          if t.cleanupFails {
            return CleanupFailed;
          }
          state.Release(n);
        } else {
          assert state.held - {n} == state.held;
        }
        return Unchanged;
      }
      if t.paused {
        Mark(n, changed);
        assert (set p | p in changed) == pending;
        return Paused;
      }
      ClearQueued(n);
      var held := IsHeld(n, reading, state, t.checkedAt);
      if held {
        return Held;
      }
      if t.apply.Applied? {
        RecordStackSuccess(n, reading, t.images, state);
        return Attempted(Applied);
      }
      RecordFailure(n, reading, t, state);
      return Attempted(t.apply);
    }

    method DeployStackGated(n: Name, t: Turn, state: PersistedState, gate: Outcome)
      returns (action: Action, outcome: Outcome)
      modifies this, state
      ensures var r := Gated(old(state.View()), old(View()), n, t, gate);
        Result(state.View(), View(), action) == r && outcome == OutcomeOf(r, n, gate)
    {
      if gate != Ready && t.lookahead.Some? {
        var recorded := RecordedFor(state.View(), n);
        var changed := ChangedFiles(t.lookahead.value, recorded);
        ghost var pending := Changed(t.lookahead.value, recorded);
        assert |changed| == 0 <==> pending == {};
        if |changed| > 0 {
          Mark(n, changed);
          assert (set p | p in changed) == pending;
          return Deferred, gate;
        }
      }
      action := DeployStackIfChanged(n, t, state);
      if !Succeeded(action) {
        return action, Blocked;
      }
      if n in queue {
        return action, Queued;
      }
      return action, Ready;
    }
  }

  // ---------- what one turn keeps ----------

  ghost predicate SameAt<T>(a: map<Name, T>, b: map<Name, T>, m: Name) {
    (m in a <==> m in b) && (m in a ==> a[m] == b[m])
  }

  /** The two states agree about a stack. */
  ghost predicate SameFor(a: State, b: State, m: Name) {
    SameAt(a.stacks, b.stacks, m) && SameAt(a.images, b.images, m) && SameAt(a.held, b.held, m)
  }

  ghost predicate SameMemFor(a: Mem, b: Mem, m: Name) {
    SameAt(a.queue, b.queue, m) && (m in a.retries <==> m in b.retries)
  }

  /** What a turn of n leaves alone. */
  ghost predicate TurnFrame(st: State, mem: Mem, n: Name, r: Result) {
    && (forall m :: m != n ==> SameFor(st, r.st, m) && SameMemFor(mem, r.mem, m))
    && r.st.commits == st.commits && r.st.lastCommit == st.lastCommit && r.st.inFlight == st.inFlight
    && r.st.settled == st.settled + (if Settles(r.action) then [n] else [])
    && (r.action != Attempted(Applied) ==> r.st.stacks == st.stacks && r.st.images == st.images)
  }

  lemma CheckFrame(st: State, n: Name, reading: Hashes)
    ensures var c := AfterCheck(st, n, reading); c == st.(held := c.held)
    ensures forall m :: m != n ==> SameAt(st.held, AfterCheck(st, n, reading).held, m)
  {
  }

  lemma FailureFrame(st: State, n: Name, reading: Hashes, t: Turn)
    ensures var f := Failure(st, n, reading, t); f == st.(held := f.held)
    ensures forall m :: m != n ==> SameAt(st.held, Failure(st, n, reading, t).held, m)
  {
  }

  lemma SuccessFrame(st: State, n: Name, reading: Hashes, images: Option<Images>)
    ensures forall m :: m != n ==> SameFor(st, Success(st, n, reading, images), m)
  {
  }

  lemma SameForTrans(a: State, b: State, c: State, n: Name)
    requires forall m :: m != n ==> SameFor(a, b, m)
    requires forall m :: m != n ==> SameFor(b, c, m)
    ensures forall m :: m != n ==> SameFor(a, c, m)
  {
    forall m | m != n
      ensures SameFor(a, c, m)
    {
      assert SameFor(a, b, m) && SameFor(b, c, m);
    }
  }

  lemma AttemptFrame(st: State, mem: Mem, n: Name, reading: Hashes, t: Turn)
    ensures TurnFrame(st, mem, n, HoldOrAttempt(st, mem, n, reading, t))
  {
    var checked := AfterCheck(st, n, reading);
    CheckFrame(st, n, reading);
    if !HeldNow(st, n in mem.retries, n, reading, t.checkedAt) {
      if t.apply.Applied? {
        SuccessFrame(checked, n, reading, t.images);
        SameForTrans(st, checked, Success(checked, n, reading, t.images), n);
      } else {
        FailureFrame(checked, n, reading, t);
        SameForTrans(st, checked, Failure(checked, n, reading, t), n);
      }
    }
  }

  lemma UnchangedFrame(st: State, mem: Mem, n: Name, t: Turn)
    ensures TurnFrame(st, mem, n, SettleUnchanged(st, mem, n, t))
  {
  }

  /** A turn touches nothing but its own stack's entries, settles at most it, and
      keeps its recorded hashes and images unless it deployed. */
  lemma TurnKeepsTheRest(st: State, mem: Mem, n: Name, t: Turn, gate: Outcome)
    ensures TurnFrame(st, mem, n, Gated(st, mem, n, t, gate))
  {
    if t.reading.Some? {
      AttemptFrame(st, mem, n, t.reading.value, t);
    }
    UnchangedFrame(st, mem, n, t);
  }

  /** A deploy behind a constraining gate starts exactly when the look-ahead misses the
      change that the deploy itself then sees: its hashing failed, or read older inputs. */
  lemma GateLeaksIff(st: State, mem: Mem, n: Name, t: Turn, gate: Outcome)
    requires gate != Ready
    ensures Gated(st, mem, n, t, gate).action.Attempted? <==>
      && !Pending(t.lookahead, st, n) && Pending(t.reading, st, n) && !t.paused
      && !HeldNow(st, n in mem.retries, n, t.reading.value, t.checkedAt)
  {
  }

  /** A look-ahead that cannot hash the stack lets it deploy behind a failed dependency. */
  lemma GateLeaks()
    ensures var t := Turn(None, Some(map["/f" := "1"]), None, false, 0, 0, 0, Applied, "", false);
      Gated(EMPTY, Mem(map[], {}), "app", t, Blocked).action == Attempted(Applied)
  {
    assert "/f" in Changed(map["/f" := "1"], map[]);
  }
}
