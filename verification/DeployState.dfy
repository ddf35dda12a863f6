/** The persisted deploy state (internal/deploy/state.go, held.go, hash.go): the
    hashes, commit bases and holds a run reads and leaves behind. */
module DeployState {
  import opened Options

  type Name = string
  type Path = string
  type Commit = string
  /** A content hash is never the empty string, which a map lookup yields for a missing path. */
  type Hash = h: string | h != "" witness "0"
  type Hashes = map<Path, Hash>
  type Images = map<string, string>

  datatype FailureStatus = Failed | RolledBack | RolledBackUnhealthy

  /** One stack's hold. The fingerprint is the hash map itself: it identifies the inputs. */
  datatype Hold = Hold(fingerprint: Hashes, since: int, status: FailureStatus, commit: Commit,
                       attempts: nat, retryAt: Option<int>)

  datatype State = State(stacks: map<Name, Hashes>, images: map<Name, Images>, commits: map<Name, Commit>,
                         held: map<Name, Hold>, lastCommit: Commit, inFlight: set<Path>, settled: seq<Name>)

  const EMPTY := State(map[], map[], map[], map[], "", {}, [])

  const NIXOS: Name := "_nixos"

  predicate Reserved(n: Name) {
    n == NIXOS || n == "_config" || n == "_project_dir"
  }

  /** What a save writes: the settled list is run-local. */
  function Persisted(s: State): State {
    s.(settled := [])
  }

  function Saved(disk: State, s: State, writable: bool): State {
    if writable then Persisted(s) else disk
  }

  // ---------- change detection ----------

  function Lookup(h: Hashes, p: Path): string {
    if p in h then h[p] else ""
  }

  function RecordedFor(s: State, n: Name): Hashes {
    if n in s.stacks then s.stacks[n] else map[]
  }

  /** One-sided: the current inputs whose recorded hash differs. */
  function Changed(current: Hashes, last: Hashes): set<Path> {
    set p | p in current && Lookup(last, p) != current[p]
  }

  /** Two-sided: also the recorded inputs that are gone. */
  function Differing(current: Hashes, recorded: Hashes): set<Path> {
    Changed(current, recorded) + (recorded.Keys - current.Keys)
  }

  ghost predicate Lists(paths: seq<Path>, s: set<Path>) {
    |paths| == |s| && forall p :: p in paths <==> p in s
  }

  method ChangedFiles(current: Hashes, last: Hashes) returns (changed: seq<Path>)
    ensures Lists(changed, Changed(current, last))
  {
    changed := [];
    var todo := current.Keys;
    ghost var found: set<Path> := {};
    while todo != {}
      invariant todo <= current.Keys
      invariant found == set p | p in current.Keys - todo && Lookup(last, p) != current[p]
      invariant Lists(changed, found)
      decreases todo
    {
      var p :| p in todo;
      todo := todo - {p};
      if Lookup(last, p) != current[p] {
        changed := changed + [p];
        found := found + {p};
      }
    }
    assert found == Changed(current, last);
  }

  method DifferingInputs(current: Hashes, recorded: Hashes) returns (differing: seq<Path>)
    ensures Lists(differing, Differing(current, recorded))
  {
    differing := ChangedFiles(current, recorded);
    var todo := recorded.Keys;
    ghost var found := Changed(current, recorded);
    while todo != {}
      invariant todo <= recorded.Keys
      invariant forall p :: p in found <==>
                  p in Changed(current, recorded) || (p in recorded.Keys - current.Keys && p !in todo)
      invariant Lists(differing, found)
      decreases todo
    {
      var p :| p in todo;
      todo := todo - {p};
      if p !in current {
        assert p !in found;
        differing := differing + [p];
        found := found + {p};
      }
    }
    assert found == Differing(current, recorded);
  }

  /** No two-sided difference means the inputs are the recorded ones. */
  lemma NothingDiffersIffEqual(current: Hashes, recorded: Hashes)
    ensures Differing(current, recorded) == {} <==> current == recorded
  {
    if Differing(current, recorded) == {} {
      forall p | p in recorded
        ensures p in current
      {
        assert p !in Differing(current, recorded);
      }
      forall p | p in current
        ensures p in recorded && recorded[p] == current[p]
      {
        assert p !in Changed(current, recorded);
      }
      assert current.Keys == recorded.Keys;
    }
    if current == recorded {
      assert Changed(current, recorded) == {};
    }
  }

  /** After an unchanged look the recorded hashes are a superset of the current ones. */
  lemma UnchangedIffRecorded(current: Hashes, recorded: Hashes)
    ensures Changed(current, recorded) == {} <==>
            forall p :: p in current ==> p in recorded && recorded[p] == current[p]
  {
    if Changed(current, recorded) == {} {
      forall p | p in current
        ensures p in recorded && recorded[p] == current[p]
      {
        assert p !in Changed(current, recorded);
      }
    }
  }

  // ---------- commit bases ----------

  function BaseCommitFor(s: State, n: Name): Commit {
    if n in s.commits then s.commits[n] else s.lastCommit
  }

  /** Stacks recorded before per-stack bases existed: pinned to the global base first. */
  function Unpinned(s: State): set<Name> {
    if s.lastCommit == "" then {} else set n | n in s.stacks && !Reserved(n) && n !in s.commits
  }

  function Settled(s: State): set<Name> {
    set n | n in s.settled
  }

  function AdvanceBases(s: State, head: Commit): (r: State)
    ensures forall n :: n in s.settled ==> BaseCommitFor(r, n) == head
    ensures forall n :: n in s.stacks && !Reserved(n) && n !in s.settled && BaseCommitFor(s, n) != "" ==>
              n in r.commits && r.commits[n] == BaseCommitFor(s, n)
  {
    s.(settled := [],
       commits := map n | n in s.commits.Keys + Unpinned(s) + Settled(s) ::
                    if n in s.settled then head else BaseCommitFor(s, n))
  }

  // ---------- holds ----------

  const PRE_START_HOLD_AFTER := 3
  const BACKOFF_BASE := 300
  const BACKOFF_TOLERANCE := 60

  function Doubled(base: nat, times: nat): nat {
    if times == 0 then base else 2 * Doubled(base, times - 1)
  }

  /** Seconds to wait after the given number of consecutive failures before start. */
  function PreStartBackoff(attempts: nat): nat
    requires attempts >= 1
  {
    Doubled(BACKOFF_BASE, attempts - 1)
  }

  predicate Due(h: Hold, now: int) {
    h.retryAt.Some? && now + BACKOFF_TOLERANCE >= h.retryAt.value
  }

  function PreStartHold(s: State, n: Name, fingerprint: Hashes, started: int, failed: int, commit: Commit): (h: Hold)
    ensures h.fingerprint == fingerprint && h.attempts >= 1
    ensures h.retryAt.Some? <==> h.attempts < PRE_START_HOLD_AFTER
  {
    var attempts := if n in s.held && s.held[n].fingerprint == fingerprint then s.held[n].attempts + 1 else 1;
    Hold(fingerprint, failed, Failed, commit, attempts,
         if attempts < PRE_START_HOLD_AFTER then Some(started + PreStartBackoff(attempts)) else None)
  }

  ghost predicate NothingRecorded(s: State, n: Name) {
    n !in s.stacks && n !in s.images && n !in s.commits && n !in s.held
  }

  function Forgotten(s: State, names: set<Name>): State {
    s.(stacks := s.stacks - names, images := s.images - names, commits := s.commits - names, held := s.held - names)
  }

  // ---------- the state in memory ----------

  class PersistedState {
    var stacks: map<Name, Hashes>
    var images: map<Name, Images>
    var commits: map<Name, Commit>
    var held: map<Name, Hold>
    var lastCommit: Commit
    var inFlight: set<Path>
    var settled: seq<Name>

    function View(): State
      reads this
    {
      State(stacks, images, commits, held, lastCommit, inFlight, settled)
    }

    constructor (s: State)
      ensures View() == s
    {
      stacks, images, commits, held := s.stacks, s.images, s.commits, s.held;
      lastCommit, inFlight, settled := s.lastCommit, s.inFlight, s.settled;
    }

    method MarkSettled(n: Name)
      modifies `settled
      ensures settled == old(settled) + [n]
    {
      settled := settled + [n];
    }

    method RecordStack(n: Name, hashes: Hashes)
      modifies `stacks
      ensures stacks == old(stacks)[n := hashes]
    {
      stacks := stacks[n := hashes];
    }

    /** Undoes a record: back to the earlier snapshot, or to no entry at all. */
    method RevertStack(n: Name, previous: Option<Hashes>)
      modifies `stacks
      ensures previous.Some? ==> stacks == old(stacks)[n := previous.value]
      ensures previous.None? ==> stacks == old(stacks) - {n}
    {
      if previous.None? {
        stacks := stacks - {n};
        return;
      }
      stacks := stacks[n := previous.value];
    }

    method ForgetStack(n: Name)
      modifies this
      ensures View() == Forgotten(old(View()), {n})
    {
      stacks := stacks - {n};
      images := images - {n};
      commits := commits - {n};
      held := held - {n};
    }

    method HoldStack(n: Name, h: Hold)
      modifies `held
      ensures held == old(held)[n := h]
    {
      held := held[n := h];
    }

    method Release(n: Name)
      modifies `held
      ensures held == old(held) - {n}
    {
      held := held - {n};
    }

    method RecordPreStartFailure(n: Name, fingerprint: Hashes, started: int, failed: int, commit: Commit)
      modifies `held
      ensures held == old(held)[n := PreStartHold(old(View()), n, fingerprint, started, failed, commit)]
    {
      var attempts := 1;
      if n in held && held[n].fingerprint == fingerprint {
        attempts := held[n].attempts + 1;
      }
      var h := Hold(fingerprint, failed, Failed, commit, attempts, None);
      if attempts < PRE_START_HOLD_AFTER {
        h := h.(retryAt := Some(started + PreStartBackoff(attempts)));
      }
      HoldStack(n, h);
    }

    method PinUnpinned()
      modifies `commits
      ensures commits.Keys == old(commits).Keys + Unpinned(old(View()))
      ensures forall n :: n in commits ==> commits[n] == BaseCommitFor(old(View()), n)
    {
      ghost var before := View();
      if lastCommit == "" {
        return;
      }
      var todo := stacks.Keys;
      while todo != {}
        invariant todo <= stacks.Keys
        invariant commits.Keys == before.commits.Keys + (Unpinned(before) - todo)
        invariant forall n :: n in commits ==> commits[n] == BaseCommitFor(before, n)
        decreases todo
      {
        var n :| n in todo;
        todo := todo - {n};
        if !Reserved(n) && n !in commits {
          commits := commits[n := lastCommit];
        }
      }
    }

    method MoveSettled(head: Commit)
      modifies `commits
      ensures commits.Keys == old(commits).Keys + Settled(old(View()))
      ensures forall n :: n in commits ==> commits[n] == if n in settled then head else old(commits)[n]
    {
      for i := 0 to |settled|
        invariant forall n :: n in commits <==> n in old(commits) || n in settled[..i]
        invariant forall n :: n in commits ==> commits[n] == if n in settled[..i] then head else old(commits)[n]
      {
        commits := commits[settled[i] := head];
        assert settled[..i + 1] == settled[..i] + [settled[i]];
      }
      assert settled[..|settled|] == settled;
    }

    /** Pins the stacks without a base, then moves every settled stack's base to head. */
    method AdvanceCommitBases(head: Commit)
      modifies `commits, `settled
      ensures View() == AdvanceBases(old(View()), head)
    {
      PinUnpinned();
      MoveSettled(head);
      settled := [];
      assert commits == AdvanceBases(old(View()), head).commits;
    }
  }

  /** state.yaml. A save replaces it in one step, or fails and leaves it as it was. */
  class StateFile {
    var content: State

    constructor (s: State)
      ensures content == s
    {
      content := s;
    }

    method Save(state: PersistedState, writable: bool)
      modifies this
      ensures content == Saved(old(content), state.View(), writable)
    {
      if writable {
        content := Persisted(state.View());
      }
    }
  }
}
