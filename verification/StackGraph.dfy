/** The depends_on graph of a set of stacks: which stacks it cannot order
    (internal/config/stack.go) and how stack discovery drops them
    (internal/config/repo.go). */
module StackGraph {

  datatype Stack = Stack(name: string, dependsOn: seq<string>)

  function Names(stacks: seq<Stack>): set<string> {
    set s | s in stacks :: s.name
  }

  ghost predicate UniqueNames(stacks: seq<Stack>) {
    forall i, j :: 0 <= i < j < |stacks| ==> stacks[i].name != stacks[j].name
  }

  /** The stacks whose name is (kept) or is not (dropped) in the given set, in config order. */
  function Keep(stacks: seq<Stack>, names: set<string>): (r: seq<Stack>)
    ensures forall s :: s in r <==> s in stacks && s.name in names
  {
    if stacks == [] then []
    else if stacks[0].name in names then [stacks[0]] + Keep(stacks[1..], names)
    else Keep(stacks[1..], names)
  }

  function NameList(stacks: seq<Stack>): (r: seq<string>)
    ensures |r| == |stacks| && forall i :: 0 <= i < |r| ==> r[i] == stacks[i].name
  {
    seq(|stacks|, i requires 0 <= i < |stacks| => stacks[i].name)
  }

  // ---------- the stacks that cannot be ordered ----------

  /** Some edge of the stack stays inside the set. */
  ghost predicate HasDependencyIn(s: Stack, names: set<string>) {
    exists d :: d in s.dependsOn && d in names
  }

  /** A set of stack names is trapped when every member waits for a member. */
  ghost predicate Trapped(stacks: seq<Stack>, names: set<string>) {
    && names <= Names(stacks)
    && forall s {:trigger HasDependencyIn(s, names)} ::
         s in stacks && s.name in names ==> HasDependencyIn(s, names)
  }

  ghost predicate GreatestTrapped(stacks: seq<Stack>, names: set<string>) {
    && Trapped(stacks, names)
    && forall t :: Trapped(stacks, t) ==> t <= names
  }

  lemma GreatestTrappedExists(stacks: seq<Stack>)
    ensures exists t :: GreatestTrapped(stacks, t)
  {
    var all := set n | n in Names(stacks) && exists t :: Trapped(stacks, t) && n in t;
    forall t | Trapped(stacks, t)
      ensures t <= all
    {
    }
    forall s | s in stacks && s.name in all
      ensures HasDependencyIn(s, all)
    {
      var t :| Trapped(stacks, t) && s.name in t;
      assert HasDependencyIn(s, t);
    }
    assert GreatestTrapped(stacks, all);
  }

  /** The stacks that wait for one another for ever: the greatest trapped set. */
  ghost function Stuck(stacks: seq<Stack>): (stuck: set<string>)
    ensures GreatestTrapped(stacks, stuck)
  {
    GreatestTrappedExists(stacks);
    var t :| GreatestTrapped(stacks, t);
    t
  }

  /** Whether every dependency of the stack that lies in the set is resolved (the inner loop). */
  method AllResolved(s: Stack, inSet: set<string>, resolved: set<string>) returns (all: bool)
    ensures all <==> !HasDependencyIn(s, inSet - resolved)
  {
    all := true;
    for k := 0 to |s.dependsOn|
      invariant all
      invariant forall j :: 0 <= j < k ==> s.dependsOn[j] !in inSet - resolved
    {
      if s.dependsOn[k] in inSet && s.dependsOn[k] !in resolved {
        assert s.dependsOn[k] in s.dependsOn;
        return false;
      }
    }
  }

  /** One pass of the peeling: resolves every stack whose in-set dependencies are
      resolved at its turn. A pass without progress proves the rest trapped. */
  method PeelPass(stacks: seq<Stack>, inSet: set<string>, before: set<string>)
    returns (resolved: set<string>, count: nat)
    requires inSet == Names(stacks) && before <= inSet && Stuck(stacks) !! before
    ensures before <= resolved <= inSet && Stuck(stacks) !! resolved
    ensures |resolved| == |before| + count
    ensures count == 0 ==> resolved == before && Trapped(stacks, inSet - resolved)
  {
    resolved, count := before, 0;
    for i := 0 to |stacks|
      invariant before <= resolved <= inSet && Stuck(stacks) !! resolved
      invariant |resolved| == |before| + count
      invariant count == 0 ==> resolved == before && forall j :: 0 <= j < i && stacks[j].name !in resolved ==>
                                 HasDependencyIn(stacks[j], inSet - resolved)
    {
      if stacks[i].name in resolved {
        continue;
      }
      var allResolved := AllResolved(stacks[i], inSet, resolved);
      if allResolved {
        PeelKeepsStuck(stacks, stacks[i], resolved);
        resolved := resolved + {stacks[i].name};
        count := count + 1;
      }
    }
    if count == 0 {
      forall s | s in stacks && s.name in inSet - resolved
        ensures HasDependencyIn(s, inSet - resolved)
      {
        var j :| 0 <= j < |stacks| && stacks[j] == s;
      }
    }
  }

  /** Peels every stack whose dependencies are resolved until a pass makes no
      progress; what is left is the greatest trapped set, in config order. */
  method CyclicStacks(stacks: seq<Stack>) returns (stuck: seq<string>)
    ensures stuck == NameList(Keep(stacks, Stuck(stacks)))
  {
    var inSet := Names(stacks);
    var resolved: set<string> := {};
    var remaining := |stacks|;
    NamesAtMost(stacks);
    while remaining > 0
      invariant resolved <= inSet && Stuck(stacks) !! resolved
      invariant 0 <= remaining == |stacks| - |resolved|
      decreases remaining
    {
      var count;
      resolved, count := PeelPass(stacks, inSet, resolved);
      SubsetSize(resolved, inSet);
      remaining := remaining - count;
      if count == 0 {
        break;
      }
    }
    assert Trapped(stacks, inSet - resolved) by {
      if remaining == 0 {
        SubsetSize(resolved, inSet);
        assert inSet - resolved == {};
      }
    }
    assert Stuck(stacks) == inSet - resolved;

    stuck := [];
    for i := 0 to |stacks|
      invariant stuck == NameList(Keep(stacks[..i], Stuck(stacks)))
    {
      KeepStep(stacks, i, Stuck(stacks));
      if stacks[i].name !in resolved {
        stuck := stuck + [stacks[i].name];
      }
    }
    assert stacks[..|stacks|] == stacks;
  }

  lemma {:induction false} NamesAtMost(stacks: seq<Stack>)
    ensures |Names(stacks)| <= |stacks|
  {
    if stacks != [] {
      NamesAtMost(stacks[1..]);
      assert Names(stacks) == {stacks[0].name} + Names(stacks[1..]);
    }
  }

  lemma {:induction false} SubsetSize<T>(a: set<T>, b: set<T>)
    requires a <= b
    ensures |a| <= |b|
    ensures |a| == |b| ==> a == b
  {
    if a != {} {
      var x :| x in a;
      SubsetSize(a - {x}, b - {x});
    }
  }

  lemma PeelKeepsStuck(stacks: seq<Stack>, s: Stack, resolved: set<string>)
    requires s in stacks && Stuck(stacks) <= Names(stacks) - resolved
    requires !HasDependencyIn(s, Names(stacks) - resolved)
    ensures s.name !in Stuck(stacks)
  {
    assert s.name in Stuck(stacks) ==> HasDependencyIn(s, Stuck(stacks));
  }

  lemma {:induction false} KeepAppend(a: seq<Stack>, b: seq<Stack>, names: set<string>)
    ensures Keep(a + b, names) == Keep(a, names) + Keep(b, names)
  {
    if a == [] {
      assert a + b == b;
    } else {
      KeepAppend(a[1..], b, names);
      assert (a + b)[1..] == a[1..] + b;
    }
  }

  lemma KeepStep(stacks: seq<Stack>, i: nat, names: set<string>)
    requires i < |stacks|
    ensures Keep(stacks[..i + 1], names)
         == Keep(stacks[..i], names) + (if stacks[i].name in names then [stacks[i]] else [])
  {
    assert stacks[..i + 1] == stacks[..i] + [stacks[i]];
    KeepAppend(stacks[..i], [stacks[i]], names);
  }

  // ---------- cycles ----------

  ghost predicate Edge(stacks: seq<Stack>, a: string, b: string) {
    exists s :: s in stacks && s.name == a && b in s.dependsOn && b in Names(stacks)
  }

  /** A walk along in-set depends_on edges. */
  ghost predicate Walk(stacks: seq<Stack>, w: seq<string>) {
    && w != []
    && forall i :: 0 <= i < |w| - 1 ==> Edge(stacks, w[i], w[i + 1])
  }

  /** A walk from n that comes back to a stack it already visited. */
  ghost predicate LoopsFrom(stacks: seq<Stack>, n: string, w: seq<string>, i: nat) {
    Walk(stacks, w) && w[0] == n && i < |w| - 1 && w[i] == w[|w| - 1]
  }

  ghost predicate ReachesCycle(stacks: seq<Stack>, n: string) {
    exists w, i: nat :: LoopsFrom(stacks, n, w, i)
  }

  lemma LoopIsTrapped(stacks: seq<Stack>, n: string, w: seq<string>, i: nat)
    requires UniqueNames(stacks) && LoopsFrom(stacks, n, w, i)
    ensures n in Stuck(stacks)
  {
    var t := set k | 0 <= k < |w| - 1 :: w[k];
    forall s | s in stacks && s.name in t
      ensures HasDependencyIn(s, t)
    {
      var k :| 0 <= k < |w| - 1 && w[k] == s.name;
      var e :| e in stacks && e.name == w[k] && w[k + 1] in e.dependsOn && w[k + 1] in Names(stacks);
      assert e == s;
      assert w[k + 1] in t by {
        if k + 1 == |w| - 1 {
          assert w[k + 1] == w[i];
        }
      }
    }
    assert t <= Names(stacks) by {
      forall k | 0 <= k < |w| - 1
        ensures w[k] in Names(stacks)
      {
        assert Edge(stacks, w[k], w[k + 1]);
      }
    }
    assert Trapped(stacks, t);
    assert w[0] in t;
  }

  /** From a stuck stack a walk inside the stuck set can be made as long as one likes. */
  lemma {:induction false} StuckWalk(stacks: seq<Stack>, n: string, steps: nat) returns (w: seq<string>)
    requires n in Stuck(stacks)
    ensures Walk(stacks, w) && w[0] == n && |w| == steps + 1
    ensures forall k :: 0 <= k < |w| ==> w[k] in Stuck(stacks)
  {
    if steps == 0 {
      w := [n];
    } else {
      var v := StuckWalk(stacks, n, steps - 1);
      var last := v[|v| - 1];
      var s :| s in stacks && s.name == last;
      assert HasDependencyIn(s, Stuck(stacks));
      var d :| d in s.dependsOn && d in Stuck(stacks);
      w := v + [d];
      forall i | 0 <= i < |w| - 1
        ensures Edge(stacks, w[i], w[i + 1])
      {
        if i < |v| - 1 {
          assert Edge(stacks, v[i], v[i + 1]);
        } else {
          assert w[i] == last && w[i + 1] == d;
        }
      }
    }
  }

  /** A sequence longer than the set it is drawn from repeats an element. */
  lemma {:induction false} Pigeonhole(w: seq<string>, pool: set<string>) returns (i: nat, j: nat)
    requires forall k :: 0 <= k < |w| ==> w[k] in pool
    requires |w| > |pool|
    ensures i < j < |w| && w[i] == w[j]
    decreases |w|
  {
    var m := |w| - 1;
    if exists k :: 0 <= k < m && w[k] == w[m] {
      i :| 0 <= i < m && w[i] == w[m];
      j := m;
    } else {
      i, j := Pigeonhole(w[..m], pool - {w[m]});
    }
  }

  /** cyclicStacks names exactly the stacks that can reach a cycle. */
  lemma StuckIffReachesCycle(stacks: seq<Stack>, n: string)
    requires UniqueNames(stacks)
    ensures n in Stuck(stacks) <==> ReachesCycle(stacks, n)
  {
    if n in Stuck(stacks) {
      var w := StuckWalk(stacks, n, |Stuck(stacks)|);
      var i, j := Pigeonhole(w, Stuck(stacks));
      var loop := w[..j + 1];
      forall k | 0 <= k < |loop| - 1
        ensures Edge(stacks, loop[k], loop[k + 1])
      {
        assert Edge(stacks, w[k], w[k + 1]);
      }
      assert LoopsFrom(stacks, n, loop, i);
    }
    if ReachesCycle(stacks, n) {
      var w, i: nat :| LoopsFrom(stacks, n, w, i);
      LoopIsTrapped(stacks, n, w, i);
    }
  }

  // ---------- ranks ----------

  /** A rank that falls along every in-set edge of the ranked stacks: a witness that they can be ordered. */
  ghost predicate Ranks(stacks: seq<Stack>, rank: map<string, nat>) {
    forall s, d :: s in stacks && s.name in rank && d in s.dependsOn && d in Names(stacks) ==>
      d in rank && rank[d] < rank[s.name]
  }

  lemma ExtendRank(stacks: seq<Stack>, rank: map<string, nat>, s: Stack)
    requires UniqueNames(stacks) && Ranks(stacks, rank) && s in stacks && s.name !in rank
    requires forall n :: n in rank ==> rank[n] < |rank|
    requires !HasDependencyIn(s, Names(stacks) - rank.Keys)
    ensures Ranks(stacks, rank[s.name := |rank|])
  {
    var next := rank[s.name := |rank|];
    forall u, d | u in stacks && u.name in next && d in u.dependsOn && d in Names(stacks)
      ensures d in next && next[d] < next[u.name]
    {
      if u.name == s.name {
        assert u == s;
        assert d !in Names(stacks) - rank.Keys;
      }
    }
  }

  lemma {:induction false} RankTheRest(stacks: seq<Stack>, rank: map<string, nat>) returns (full: map<string, nat>)
    requires UniqueNames(stacks) && Ranks(stacks, rank) && rank.Keys <= Names(stacks)
    requires forall n :: n in rank ==> rank[n] < |rank|
    ensures Ranks(stacks, full) && Names(stacks) - Stuck(stacks) <= full.Keys <= Names(stacks)
    decreases Names(stacks) - rank.Keys
  {
    var rest := Names(stacks) - rank.Keys;
    if Trapped(stacks, rest) {
      full := rank;
    } else {
      var s :| s in stacks && s.name in rest && !HasDependencyIn(s, rest);
      ExtendRank(stacks, rank, s);
      full := RankTheRest(stacks, rank[s.name := |rank|]);
    }
  }

  /** cyclicStacks names nothing exactly when the stacks can be ranked. */
  lemma NothingStuckIffRanked(stacks: seq<Stack>)
    requires UniqueNames(stacks)
    ensures Stuck(stacks) == {} <==> exists rank :: Ranks(stacks, rank) && Names(stacks) <= rank.Keys
  {
    if Stuck(stacks) == {} {
      var full := RankTheRest(stacks, map[]);
    }
    if exists rank :: Ranks(stacks, rank) && Names(stacks) <= rank.Keys {
      var rank :| Ranks(stacks, rank) && Names(stacks) <= rank.Keys;
      forall n | n in Names(stacks)
        ensures n !in Stuck(stacks)
      {
        RankedIsNotStuck(stacks, rank, n);
      }
    }
  }

  lemma {:induction false} RankedIsNotStuck(stacks: seq<Stack>, rank: map<string, nat>, n: string)
    requires Ranks(stacks, rank) && n in rank
    ensures n !in Stuck(stacks)
    decreases if n in rank then rank[n] else 0
  {
    if s :| s in stacks && s.name == n {
      forall d | d in s.dependsOn && d in Names(stacks)
        ensures d !in Stuck(stacks)
      {
        RankedIsNotStuck(stacks, rank, d);
      }
      assert n in Stuck(stacks) ==> HasDependencyIn(s, Stuck(stacks));
    }
  }

  // ---------- dropping and validating ----------

  /** Splits the stacks by name, keeping config order on both sides. */
  method Split(stacks: seq<Stack>, cyclic: set<string>) returns (kept: seq<Stack>, errors: seq<string>)
    ensures kept == Keep(stacks, Names(stacks) - cyclic)
    ensures errors == NameList(Keep(stacks, cyclic))
  {
    kept, errors := [], [];
    ghost var good := Names(stacks) - cyclic;
    for i := 0 to |stacks|
      invariant kept == Keep(stacks[..i], good)
      invariant errors == NameList(Keep(stacks[..i], cyclic))
    {
      KeepStep(stacks, i, cyclic);
      KeepStep(stacks, i, good);
      if stacks[i].name !in cyclic {
        kept := kept + [stacks[i]];
        continue;
      }
      errors := errors + [stacks[i].name];
    }
    assert stacks[..|stacks|] == stacks;
  }

  /** Splits the stacks into the ones that can be ordered and the names reported as errors. */
  method DropDependencyCycles(stacks: seq<Stack>) returns (kept: seq<Stack>, errors: seq<string>)
    ensures kept == Keep(stacks, Names(stacks) - Stuck(stacks))
    ensures errors == NameList(Keep(stacks, Stuck(stacks)))
    ensures Stuck(kept) == {}
  {
    var stuck := CyclicStacks(stacks);
    KeptHasNoCycle(stacks);
    if |stuck| == 0 {
      KeepAll(stacks, Names(stacks) - Stuck(stacks));
      return stacks, [];
    }
    var cyclic := set n | n in stuck;
    assert cyclic == Stuck(stacks);
    kept, errors := Split(stacks, cyclic);
  }

  lemma {:induction false} KeepAll(stacks: seq<Stack>, names: set<string>)
    requires forall s :: s in stacks ==> s.name in names
    ensures Keep(stacks, names) == stacks
  {
    if stacks != [] {
      KeepAll(stacks[1..], names);
    }
  }

  /** One drop is enough: among the stacks that are kept nothing is stuck any more. */
  lemma KeptHasNoCycle(stacks: seq<Stack>)
    ensures Stuck(Keep(stacks, Names(stacks) - Stuck(stacks))) == {}
  {
    var kept := Keep(stacks, Names(stacks) - Stuck(stacks));
    assert Trapped(stacks, Stuck(kept));
  }

  datatype GraphError =
    | SelfReference(stack: string)
    | UnknownDependency(stack: string, dep: string)
    | Cycle(stuck: seq<string>)
  datatype Validation = Valid | Invalid(error: GraphError)

  ghost predicate EdgesKnown(s: Stack, names: set<string>) {
    s.name !in s.dependsOn && forall d :: d in s.dependsOn ==> d in names
  }

  /** Accepts a configured graph exactly when every edge names another listed stack and no stack is stuck. */
  method ValidateStackDependencies(stacks: seq<Stack>) returns (v: Validation)
    ensures v.Valid? <==> (forall s :: s in stacks ==> EdgesKnown(s, Names(stacks))) && Stuck(stacks) == {}
  {
    var names := Names(stacks);
    for i := 0 to |stacks|
      invariant forall j :: 0 <= j < i ==> EdgesKnown(stacks[j], names)
    {
      var s := stacks[i];
      for k := 0 to |s.dependsOn|
        invariant forall j :: 0 <= j < k ==> s.dependsOn[j] != s.name && s.dependsOn[j] in names
      {
        var d := s.dependsOn[k];
        assert s in stacks && d in s.dependsOn;
        if d == s.name {
          return Invalid(SelfReference(s.name));
        }
        if d !in names {
          return Invalid(UnknownDependency(s.name, d));
        }
      }
    }
    var stuck := CyclicStacks(stacks);
    if |stuck| > 0 {
      assert stuck[0] in Stuck(stacks);
      return Invalid(Cycle(stuck));
    }
    return Valid;
  }
}
