/** The deploy order of a run (orderStacks in internal/deploy/ordering.go): a
    pass-based topological sort seeded by config order, and what it leaves over.
    Stacks are identified by their config index. */
module Ordering {
  import opened StackGraph

  // ---------- rounds ----------

  /** The config index of a name, or |stacks| when the list does not hold it. */
  ghost function IndexOf(stacks: seq<Stack>, n: string): (i: nat)
    ensures i <= |stacks|
    ensures i < |stacks| ==> stacks[i].name == n
    ensures i == |stacks| ==> forall j :: 0 <= j < |stacks| ==> stacks[j].name != n
  {
    if exists i: nat :: i < |stacks| && stacks[i].name == n then
      var i: nat :| i < |stacks| && stacks[i].name == n;
      i
    else
      |stacks|
  }

  /** A round per stack: the pass that emits it, 0 when none does. By the turn of
      stack i in pass r the dependency d was emitted: in an earlier pass, or in
      this one when it is listed before i. */
  ghost predicate EmittedBy(stacks: seq<Stack>, rounds: seq<nat>, i: nat, d: string, r: nat)
    requires |rounds| == |stacks|
  {
    var j := IndexOf(stacks, d);
    j < |stacks| && 0 < rounds[j] && rounds[j] + (if j >= i then 1 else 0) <= r
  }

  ghost predicate ReadyBy(stacks: seq<Stack>, rounds: seq<nat>, i: nat, r: nat)
    requires |rounds| == |stacks| && i < |stacks|
  {
    forall d :: d in stacks[i].dependsOn ==> EmittedBy(stacks, rounds, i, d, r)
  }

  /** The round is the first pass in which the stack is ready. */
  ghost predicate FirstReady(stacks: seq<Stack>, rounds: seq<nat>, i: nat)
    requires |rounds| == |stacks| && i < |stacks|
  {
    ReadyBy(stacks, rounds, i, rounds[i]) && (rounds[i] > 1 ==> !ReadyBy(stacks, rounds, i, rounds[i] - 1))
  }

  /** Every stack is emitted in the first pass in which it is ready, or is never ready. */
  ghost predicate Rounds(stacks: seq<Stack>, rounds: seq<nat>) {
    && |rounds| == |stacks|
    && (forall i :: 0 <= i < |stacks| && rounds[i] > 0 ==> FirstReady(stacks, rounds, i))
    && (forall i, r: nat {:trigger ReadyBy(stacks, rounds, i, r)} ::
          0 <= i < |stacks| && rounds[i] == 0 ==> !ReadyBy(stacks, rounds, i, r))
  }

  /** Resolved stacks by (round, config index), then the others by config index. */
  ghost predicate Earlier(rounds: seq<nat>, a: nat, b: nat)
    requires a < |rounds| && b < |rounds|
  {
    if rounds[a] == 0 then rounds[b] == 0 && a < b
    else rounds[b] == 0 || rounds[a] < rounds[b] || (rounds[a] == rounds[b] && a < b)
  }

  ghost predicate Increasing(rounds: seq<nat>, order: seq<nat>) {
    && (forall x :: 0 <= x < |order| ==> order[x] < |rounds|)
    && (forall x, y :: 0 <= x < y < |order| ==> Earlier(rounds, order[x], order[y]))
  }

  /** All config indices in deploy order. */
  ghost predicate DeployOrder(stacks: seq<Stack>, rounds: seq<nat>, order: seq<nat>) {
    && Rounds(stacks, rounds)
    && Increasing(rounds, order)
    && forall i :: 0 <= i < |stacks| ==> i in order
  }

  ghost function Pick(stacks: seq<Stack>, order: seq<nat>): (r: seq<Stack>)
    requires forall x :: 0 <= x < |order| ==> order[x] < |stacks|
    ensures |r| == |order| && forall x :: 0 <= x < |r| ==> r[x] == stacks[order[x]]
  {
    seq(|order|, x requires 0 <= x < |order| => stacks[order[x]])
  }

  // ---------- the algorithm ----------

  method DependenciesEmitted(deps: seq<string>, emitted: set<string>) returns (all: bool)
    ensures all <==> forall d :: d in deps ==> d in emitted
  {
    for k := 0 to |deps|
      invariant forall j :: 0 <= j < k ==> deps[j] in emitted
    {
      if deps[k] !in emitted {
        return false;
      }
    }
    return true;
  }

  ghost predicate EmittedNames(stacks: seq<Stack>, rounds: seq<nat>, emitted: set<string>)
    requires |rounds| == |stacks|
  {
    forall n :: n in emitted <==> IndexOf(stacks, n) < |stacks| && rounds[IndexOf(stacks, n)] > 0
  }

  /** What holds in pass r once the stacks before config index i had their turn. */
  ghost predicate MidPass(stacks: seq<Stack>, rounds: seq<nat>, r: nat, i: nat) {
    && |rounds| == |stacks|
    && (forall j :: 0 <= j < |stacks| ==> rounds[j] <= r && (rounds[j] == r && r > 0 ==> j < i))
    && (forall j :: 0 <= j < |stacks| && rounds[j] > 0 ==> FirstReady(stacks, rounds, j))
    && (forall j :: 0 <= j < |stacks| && rounds[j] == 0 && j < i && r > 0 ==> !ReadyBy(stacks, rounds, j, r))
    && (forall j :: 0 <= j < |stacks| && rounds[j] == 0 && j >= i && r > 1 ==> !ReadyBy(stacks, rounds, j, r - 1))
  }

  /** The resolved indices, in the order they were emitted. */
  ghost predicate Emitted(rounds: seq<nat>, order: seq<nat>) {
    && Increasing(rounds, order)
    && forall i :: 0 <= i < |rounds| ==> (i in order <==> rounds[i] > 0)
  }

  lemma EmitKeepsPass(stacks: seq<Stack>, rounds: seq<nat>, r: nat, i: nat)
    requires r >= 1 && i < |stacks| && MidPass(stacks, rounds, r, i)
    requires rounds[i] == 0 && ReadyBy(stacks, rounds, i, r)
    ensures MidPass(stacks, rounds[i := r], r, i + 1)
  {
    var next := rounds[i := r];
    forall j | 0 <= j < |stacks| && next[j] > 0
      ensures FirstReady(stacks, next, j)
    {
    }
    forall j | 0 <= j < |stacks| && next[j] == 0
      ensures j < i ==> !ReadyBy(stacks, next, j, r)
      ensures j > i && r > 1 ==> !ReadyBy(stacks, next, j, r - 1)
    {
    }
  }

  lemma EmitKeepsOrder(rounds: seq<nat>, order: seq<nat>, r: nat, i: nat)
    requires r >= 1 && i < |rounds| && rounds[i] == 0 && Emitted(rounds, order)
    requires forall j :: 0 <= j < |rounds| ==> rounds[j] <= r && (rounds[j] == r ==> j < i)
    ensures Emitted(rounds[i := r], order + [i])
  {
    var next, longer := rounds[i := r], order + [i];
    forall x | 0 <= x < |order|
      ensures order[x] in order && next[order[x]] == rounds[order[x]]
    {
    }
    forall j | 0 <= j < |next|
      ensures j in longer <==> next[j] > 0
    {
      assert j in longer <==> j in order || j == i;
    }
  }

  /** The state between two passes. */
  ghost predicate BetweenPasses(stacks: seq<Stack>, ordered: seq<Stack>, emitted: set<string>,
                                rounds: seq<nat>, order: seq<nat>, r: nat, i: nat)
  {
    && MidPass(stacks, rounds, r, i) && Emitted(rounds, order)
    && EmittedNames(stacks, rounds, emitted) && ordered == Pick(stacks, order)
  }

  lemma NextPass(stacks: seq<Stack>, rounds: seq<nat>, r: nat)
    requires r >= 1 && MidPass(stacks, rounds, r - 1, |stacks|)
    ensures MidPass(stacks, rounds, r, 0)
    ensures forall j :: 0 <= j < |stacks| ==> rounds[j] < r
  {
  }

  /** The loop's test at the turn of stack i. */
  predicate EmitsAt(s: Stack, emitted: set<string>) {
    s.name !in emitted && forall d :: d in s.dependsOn ==> d in emitted
  }

  lemma SkipKeeps(stacks: seq<Stack>, ordered: seq<Stack>, emitted: set<string>,
                  rounds: seq<nat>, order: seq<nat>, r: nat, i: nat)
    requires UniqueNames(stacks) && r >= 1 && i < |stacks|
    requires BetweenPasses(stacks, ordered, emitted, rounds, order, r, i) && !EmitsAt(stacks[i], emitted)
    ensures BetweenPasses(stacks, ordered, emitted, rounds, order, r, i + 1)
  {
    TurnIsReady(stacks, rounds, emitted, r, i);
  }

  lemma EmitKeeps(stacks: seq<Stack>, ordered: seq<Stack>, emitted: set<string>,
                  rounds: seq<nat>, order: seq<nat>, r: nat, i: nat)
    requires UniqueNames(stacks) && r >= 1 && i < |stacks| == |rounds|
    requires BetweenPasses(stacks, ordered, emitted, rounds, order, r, i) && EmitsAt(stacks[i], emitted)
    ensures BetweenPasses(stacks, ordered + [stacks[i]], emitted + {stacks[i].name},
                          rounds[i := r], order + [i], r, i + 1)
  {
    TurnIsReady(stacks, rounds, emitted, r, i);
    EmitKeepsPass(stacks, rounds, r, i);
    EmitKeepsOrder(rounds, order, r, i);
  }

  /** One pass over the list: emits every stack whose dependencies are emitted at its turn. */
  method EmitPass(stacks: seq<Stack>, before: seq<Stack>, emittedBefore: set<string>,
                  ghost roundsBefore: seq<nat>, ghost orderBefore: seq<nat>, ghost r: nat)
    returns (ordered: seq<Stack>, emitted: set<string>, progressed: bool, ghost rounds: seq<nat>, ghost order: seq<nat>)
    requires UniqueNames(stacks) && r >= 1
    requires BetweenPasses(stacks, before, emittedBefore, roundsBefore, orderBefore, r - 1, |stacks|)
    ensures BetweenPasses(stacks, ordered, emitted, rounds, order, r, |stacks|)
    ensures progressed ==> |ordered| > |before|
    ensures !progressed ==> Rounds(stacks, rounds)
  {
    ordered, emitted, rounds, order := before, emittedBefore, roundsBefore, orderBefore;
    progressed := false;
    NextPass(stacks, rounds, r);
    for i := 0 to |stacks|
      invariant BetweenPasses(stacks, ordered, emitted, rounds, order, r, i)
      invariant |ordered| >= |before|
      invariant if progressed then |ordered| > |before| else forall j :: 0 <= j < |stacks| ==> rounds[j] < r
    {
      var s := stacks[i];
      var ready := DependenciesEmitted(s.dependsOn, emitted);
      if s.name in emitted || !ready {
        SkipKeeps(stacks, ordered, emitted, rounds, order, r, i);
        continue;
      }
      EmitKeeps(stacks, ordered, emitted, rounds, order, r, i);
      ordered := ordered + [s];
      emitted := emitted + {s.name};
      rounds, order := rounds[i := r], order + [i];
      progressed := true;
    }
  }

  /** Appends what no pass could resolve, in config order. */
  method AppendRemainder(stacks: seq<Stack>, before: seq<Stack>, emittedBefore: set<string>,
                         ghost rounds: seq<nat>, ghost orderBefore: seq<nat>)
    returns (ordered: seq<Stack>, ghost order: seq<nat>)
    requires UniqueNames(stacks) && |rounds| == |stacks|
    requires Emitted(rounds, orderBefore) && before == Pick(stacks, orderBefore)
    requires EmittedNames(stacks, rounds, emittedBefore)
    ensures Increasing(rounds, order) && ordered == Pick(stacks, order)
    ensures forall i :: 0 <= i < |stacks| ==> i in order
  {
    ordered, order := before, orderBefore;
    var emitted := emittedBefore;
    for i := 0 to |stacks|
      invariant Increasing(rounds, order) && ordered == Pick(stacks, order)
      invariant forall j :: 0 <= j < |stacks| ==> (j in order <==> rounds[j] > 0 || j < i)
      invariant forall j :: 0 <= j < |stacks| ==> (stacks[j].name in emitted <==> j in order)
    {
      if stacks[i].name !in emitted {
        AppendUnresolved(rounds, order, i);
        ordered := ordered + [stacks[i]];
        emitted := emitted + {stacks[i].name};
        order := order + [i];
      }
    }
  }

  ghost predicate OrderOf(stacks: seq<Stack>, ordered: seq<Stack>, rounds: seq<nat>, order: seq<nat>) {
    DeployOrder(stacks, rounds, order) && ordered == Pick(stacks, order)
  }

  ghost predicate InDeployOrder(stacks: seq<Stack>, ordered: seq<Stack>) {
    exists rounds, order :: OrderOf(stacks, ordered, rounds, order)
  }

  /** All stacks in deploy order: pass by pass while a pass makes progress, then the remainder. */
  method OrderStacks(stacks: seq<Stack>) returns (ordered: seq<Stack>)
    requires UniqueNames(stacks)
    ensures InDeployOrder(stacks, ordered)
    ensures |ordered| == |stacks| && forall s :: s in ordered <==> s in stacks
  {
    var emitted: set<string> := {};
    ordered := [];
    ghost var order: seq<nat> := [];
    ghost var rounds: seq<nat> := seq(|stacks|, _ => 0);
    ghost var r: nat := 0;
    while |ordered| < |stacks|
      invariant BetweenPasses(stacks, ordered, emitted, rounds, order, r, |stacks|)
                || DeployOrder(stacks, rounds, order)
      invariant |ordered| < |stacks| ==> BetweenPasses(stacks, ordered, emitted, rounds, order, r, |stacks|)
      invariant Increasing(rounds, order) && |rounds| == |stacks| && ordered == Pick(stacks, order)
      decreases |stacks| - |ordered|
    {
      var progressed;
      r := r + 1;
      ordered, emitted, progressed, rounds, order := EmitPass(stacks, ordered, emitted, rounds, order, r);
      if !progressed {
        ordered, order := AppendRemainder(stacks, ordered, emitted, rounds, order);
      }
      IndicesCount(rounds, order);
    }
    IndicesCount(rounds, order);
    assert OrderOf(stacks, ordered, rounds, order);
    OrderIsPermutation(stacks, ordered, rounds, order);
  }

  /** The order holds every stack, and no more. */
  lemma OrderIsPermutation(stacks: seq<Stack>, ordered: seq<Stack>, rounds: seq<nat>, order: seq<nat>)
    requires OrderOf(stacks, ordered, rounds, order)
    ensures |ordered| == |stacks| && forall s :: s in ordered <==> s in stacks
  {
    IndicesCount(rounds, order);
    forall i | 0 <= i < |stacks|
      ensures stacks[i] in ordered
    {
      assert i in order;
      var k :| 0 <= k < |order| && order[k] == i;
      assert ordered[k] == stacks[i];
    }
    forall k | 0 <= k < |ordered|
      ensures ordered[k] in stacks
    {
      assert ordered[k] == stacks[order[k]];
    }
  }

  /** The loop's test is the specification's: the stack is emitted at its turn exactly when it is ready. */
  lemma TurnIsReady(stacks: seq<Stack>, rounds: seq<nat>, emitted: set<string>, r: nat, i: nat)
    requires UniqueNames(stacks) && i < |stacks| && r >= 1
    requires MidPass(stacks, rounds, r, i) && EmittedNames(stacks, rounds, emitted)
    ensures stacks[i].name in emitted <==> rounds[i] > 0
    ensures rounds[i] == 0 ==>
            ((forall d :: d in stacks[i].dependsOn ==> d in emitted) <==> ReadyBy(stacks, rounds, i, r))
  {
    forall d
      ensures rounds[i] == 0 ==> (EmittedBy(stacks, rounds, i, d, r) <==> d in emitted)
    {
    }
  }

  lemma AppendUnresolved(rounds: seq<nat>, order: seq<nat>, i: nat)
    requires i < |rounds| && i !in order && Increasing(rounds, order) && rounds[i] == 0
    requires forall j :: 0 <= j < |rounds| ==> (j in order <==> rounds[j] > 0 || j < i)
    ensures Increasing(rounds, order + [i])
    ensures forall j :: 0 <= j < |rounds| ==> (j in order + [i] <==> rounds[j] > 0 || j < i + 1)
  {
    forall x | 0 <= x < |order|
      ensures Earlier(rounds, order[x], i)
    {
      assert order[x] in order;
    }
  }

  /** An increasing sequence of indices has no repeats, so it is a permutation exactly when it is as long as
      the list. */
  lemma IndicesCount(rounds: seq<nat>, order: seq<nat>)
    requires Increasing(rounds, order)
    ensures |order| <= |rounds|
    ensures |order| == |rounds| <==> forall i :: 0 <= i < |rounds| ==> i in order
  {
    DistinctCount(rounds, order);
    SubsetSize(Members(order), Below(|rounds|));
    if forall i :: 0 <= i < |rounds| ==> i in order {
      assert Members(order) == Below(|rounds|);
    }
    if |order| == |rounds| {
      forall i | 0 <= i < |rounds|
        ensures i in order
      {
        assert i in Below(|rounds|);
      }
    }
  }

  ghost function Below(n: nat): (b: set<nat>)
    ensures |b| == n && forall i: nat :: i in b <==> i < n
  {
    if n == 0 then {} else Below(n - 1) + {n - 1}
  }

  ghost function Members(order: seq<nat>): set<nat> {
    set i | i in order
  }

  lemma {:induction false} DistinctCount(rounds: seq<nat>, order: seq<nat>)
    requires Increasing(rounds, order)
    ensures |Members(order)| == |order|
  {
    if order != [] {
      var front, last := order[..|order| - 1], order[|order| - 1];
      DistinctCount(rounds, front);
      assert last !in front;
      assert order == front + [last];
      assert Members(order) == Members(front) + {last};
    } else {
      assert Members(order) == {};
    }
  }

  // ---------- what a caller gets ----------

  /** A stack emitted by progress comes after every one of its dependencies. */
  lemma DependenciesComeFirst(stacks: seq<Stack>, rounds: seq<nat>, order: seq<nat>, x: nat, d: string) returns (y: nat)
    requires DeployOrder(stacks, rounds, order)
    requires x < |order| && rounds[order[x]] > 0 && d in stacks[order[x]].dependsOn
    ensures y < x && stacks[order[y]].name == d && rounds[order[y]] > 0
  {
    assert FirstReady(stacks, rounds, order[x]);
    assert EmittedBy(stacks, rounds, order[x], d, rounds[order[x]]);
    var j := IndexOf(stacks, d);
    assert j in order;
    y :| 0 <= y < |order| && order[y] == j;
    assert Earlier(rounds, order[y], order[x]);
  }

  /** The round as an explicit maximum: over the dependencies, the dependency's
      round, plus one when it is listed later; 1 when there is none. */
  lemma RoundIsMaximum(stacks: seq<Stack>, rounds: seq<nat>, i: nat)
    requires UniqueNames(stacks) && Rounds(stacks, rounds) && i < |stacks| && rounds[i] > 0
    ensures forall d :: d in stacks[i].dependsOn ==>
              EmittedBy(stacks, rounds, i, d, rounds[i]) && IndexOf(stacks, d) != i
    ensures rounds[i] == 1
         || exists d, j :: d in stacks[i].dependsOn && j == IndexOf(stacks, d) && j < |stacks|
              && rounds[i] == rounds[j] + if j > i then 1 else 0
  {
    assert FirstReady(stacks, rounds, i);
    if rounds[i] > 1 {
      var d :| d in stacks[i].dependsOn && !EmittedBy(stacks, rounds, i, d, rounds[i] - 1);
      assert EmittedBy(stacks, rounds, i, d, rounds[i]);
      var j := IndexOf(stacks, d);
      assert rounds[i] == rounds[j] + if j > i then 1 else 0;
    }
  }

  /** The specification leaves no choice: it determines rounds and order. */
  lemma DeployOrderIsUnique(stacks: seq<Stack>, r1: seq<nat>, o1: seq<nat>, r2: seq<nat>, o2: seq<nat>)
    requires DeployOrder(stacks, r1, o1) && DeployOrder(stacks, r2, o2)
    ensures r1 == r2 && o1 == o2
  {
    forall i | 0 <= i < |stacks|
      ensures r1[i] == r2[i]
    {
      if r1[i] > 0 {
        RoundsAgree(stacks, r1, r2, i);
      } else if r2[i] > 0 {
        RoundsAgree(stacks, r2, r1, i);
      }
    }
    assert r1 == r2;
    IndicesCount(r1, o1);
    IndicesCount(r2, o2);
    FrontsAgree(r1, o1, o2, |o1|);
    assert o1[..|o1|] == o1 && o2[..|o2|] == o2;
  }

  lemma EarlierRoundNotReady(stacks: seq<Stack>, rounds: seq<nat>, i: nat, q: nat)
    requires |rounds| == |stacks| && i < |stacks| && FirstReady(stacks, rounds, i)
    ensures 0 < q < rounds[i] ==> !ReadyBy(stacks, rounds, i, q)
  {
  }

  lemma {:induction false} RoundsAgree(stacks: seq<Stack>, r1: seq<nat>, r2: seq<nat>, i: nat)
    requires Rounds(stacks, r1) && Rounds(stacks, r2) && i < |stacks| && r1[i] > 0
    ensures r1[i] == r2[i]
    decreases if i < |r1| then r1[i] else 0, i
  {
    assert FirstReady(stacks, r1, i);
    forall d | d in stacks[i].dependsOn
      ensures forall q: nat :: EmittedBy(stacks, r1, i, d, q) <==> EmittedBy(stacks, r2, i, d, q)
    {
      assert EmittedBy(stacks, r1, i, d, r1[i]);
      RoundsAgree(stacks, r1, r2, IndexOf(stacks, d));
    }
    forall q: nat
      ensures ReadyBy(stacks, r1, i, q) <==> ReadyBy(stacks, r2, i, q)
    {
    }
    assert FirstReady(stacks, r2, i);
    EarlierRoundNotReady(stacks, r1, i, r2[i]);
    EarlierRoundNotReady(stacks, r2, i, r1[i]);
  }

  lemma {:induction false} FrontsAgree(rounds: seq<nat>, o1: seq<nat>, o2: seq<nat>, k: nat)
    requires Increasing(rounds, o1) && Increasing(rounds, o2) && k <= |o1| == |o2|
    requires forall i :: 0 <= i < |rounds| ==> i in o1 && i in o2
    ensures o1[..k] == o2[..k]
  {
    if k > 0 {
      FrontsAgree(rounds, o1, o2, k - 1);
      var x := k - 1;
      assert o1[x] in o2 && o2[x] in o1;
      var y1 :| 0 <= y1 < |o2| && o2[y1] == o1[x];
      var y2 :| 0 <= y2 < |o1| && o1[y2] == o2[x];
      assert forall y :: 0 <= y < x ==> o1[y] == o1[..x][y] == o2[..x][y] == o2[y];
      assert o1[x] == o2[x];
      assert o1[..k] == o1[..x] + [o1[x]] && o2[..k] == o2[..x] + [o2[x]];
    }
  }

  /** A graph that validation accepts is ordered by progress alone: there is no remainder. */
  lemma ValidGraphIsResolved(stacks: seq<Stack>, rounds: seq<nat>)
    requires UniqueNames(stacks) && Rounds(stacks, rounds)
    requires forall s :: s in stacks ==> EdgesKnown(s, Names(stacks))
    requires Stuck(stacks) == {}
    ensures forall i :: 0 <= i < |stacks| ==> rounds[i] > 0
  {
    var rest := set i | 0 <= i < |stacks| && rounds[i] == 0 :: stacks[i].name;
    forall s | s in stacks && s.name in rest
      ensures HasDependencyIn(s, rest)
    {
      var i :| 0 <= i < |stacks| && rounds[i] == 0 && stacks[i].name == s.name;
      UnresolvedWaits(stacks, rounds, i);
    }
    assert Trapped(stacks, rest);
    assert rest <= {};
  }

  lemma UnresolvedWaits(stacks: seq<Stack>, rounds: seq<nat>, i: nat)
    requires Rounds(stacks, rounds) && i < |stacks| && rounds[i] == 0
    ensures exists d :: d in stacks[i].dependsOn
              && (d !in Names(stacks) || (IndexOf(stacks, d) < |stacks| && rounds[IndexOf(stacks, d)] == 0))
  {
    var top := Highest(rounds);
    assert !ReadyBy(stacks, rounds, i, top + 1);
    var d :| d in stacks[i].dependsOn && !EmittedBy(stacks, rounds, i, d, top + 1);
    assert IndexOf(stacks, d) == |stacks| ==> d !in Names(stacks);
  }

  function Highest(rounds: seq<nat>): (top: nat)
    ensures forall i :: 0 <= i < |rounds| ==> rounds[i] <= top
  {
    if rounds == [] then 0 else
      var rest := Highest(rounds[1..]);
      if rounds[0] > rest then rounds[0] else rest
  }

  // ---------- stack sets with edges that leave the set ----------

  /** Every dependency that is in the list comes before its dependent. */
  ghost predicate RespectsDependencies(ordered: seq<Stack>) {
    forall x, y :: 0 <= x < |ordered| && 0 <= y < |ordered| && ordered[y].name in ordered[x].dependsOn ==> y < x
  }

  /** Every stack of the set depends on a member of it, or on a name that the list does not hold. */
  ghost predicate Waiting(stacks: seq<Stack>, names: set<string>) {
    forall s :: s in stacks && s.name in names ==> WaitsIn(stacks, s, names)
  }

  ghost predicate WaitsIn(stacks: seq<Stack>, s: Stack, names: set<string>) {
    exists d :: d in s.dependsOn && (d in names || d !in Names(stacks))
  }

  ghost predicate Unresolvable(stacks: seq<Stack>, n: string) {
    exists names: set<string> :: n in names && Waiting(stacks, names)
  }

  /** The passes leave over exactly the stacks of such sets. */
  lemma RemainderIsUnresolvable(stacks: seq<Stack>, rounds: seq<nat>, i: nat)
    requires UniqueNames(stacks) && Rounds(stacks, rounds) && i < |stacks|
    ensures rounds[i] == 0 <==> Unresolvable(stacks, stacks[i].name)
  {
    if rounds[i] == 0 {
      var rest := set j | 0 <= j < |stacks| && rounds[j] == 0 :: stacks[j].name;
      forall s | s in stacks && s.name in rest
        ensures WaitsIn(stacks, s, rest)
      {
        var j :| 0 <= j < |stacks| && rounds[j] == 0 && stacks[j].name == s.name;
        UnresolvedWaits(stacks, rounds, j);
      }
      assert stacks[i].name in rest && Waiting(stacks, rest);
    }
    if names: set<string> :| stacks[i].name in names && Waiting(stacks, names) {
      WaitingIsLeftOver(stacks, rounds, names, i);
    }
  }

  lemma {:induction false} WaitingIsLeftOver(stacks: seq<Stack>, rounds: seq<nat>, names: set<string>, i: nat)
    requires Rounds(stacks, rounds) && Waiting(stacks, names) && i < |stacks| && stacks[i].name in names
    ensures rounds[i] == 0
    decreases if i < |rounds| then rounds[i] else 0, i
  {
    if rounds[i] > 0 {
      assert FirstReady(stacks, rounds, i) && WaitsIn(stacks, stacks[i], names);
      var d :| d in stacks[i].dependsOn && (d in names || d !in Names(stacks));
      assert EmittedBy(stacks, rounds, i, d, rounds[i]);
      WaitingIsLeftOver(stacks, rounds, names, IndexOf(stacks, d));
    }
  }

  /** The config lists whatever depends on an unresolvable stack after it. */
  ghost predicate RemainderInOrder(stacks: seq<Stack>) {
    forall i, j :: 0 <= i < |stacks| && 0 <= j < |stacks| && stacks[j].name in stacks[i].dependsOn ==>
      (Unresolvable(stacks, stacks[j].name) ==> j < i)
  }

  lemma ReadyNeedsResolved(stacks: seq<Stack>, rounds: seq<nat>, i: nat, j: nat, r: nat)
    requires UniqueNames(stacks) && |rounds| == |stacks| && i < |stacks| && j < |stacks|
    requires ReadyBy(stacks, rounds, i, r) && stacks[j].name in stacks[i].dependsOn
    ensures rounds[j] > 0
  {
    assert EmittedBy(stacks, rounds, i, stacks[j].name, r);
  }

  /** What depends on a stack that the passes leave over is left over itself. */
  lemma ResolvedNeedsResolved(stacks: seq<Stack>, rounds: seq<nat>, i: nat, j: nat)
    requires UniqueNames(stacks) && Rounds(stacks, rounds) && i < |stacks| && j < |stacks|
    requires stacks[j].name in stacks[i].dependsOn
    ensures rounds[i] > 0 ==> rounds[j] > 0
  {
    if rounds[i] > 0 {
      assert FirstReady(stacks, rounds, i);
      ReadyNeedsResolved(stacks, rounds, i, j, rounds[i]);
    }
  }

  /** The whole order respects the dependencies exactly when the config lists the dependents of
      unresolvable stacks after them. */
  lemma OrderRespectsIff(stacks: seq<Stack>, ordered: seq<Stack>)
    requires UniqueNames(stacks) && InDeployOrder(stacks, ordered)
    ensures RespectsDependencies(ordered) <==> RemainderInOrder(stacks)
  {
    var rounds, order :| OrderOf(stacks, ordered, rounds, order);
    if RespectsDependencies(ordered) {
      RespectsGivesRemainder(stacks, rounds, order);
    }
    if RemainderInOrder(stacks) {
      RemainderGivesRespects(stacks, rounds, order);
    }
  }

  lemma RespectsGivesRemainder(stacks: seq<Stack>, rounds: seq<nat>, order: seq<nat>)
    requires UniqueNames(stacks) && DeployOrder(stacks, rounds, order) && RespectsDependencies(Pick(stacks, order))
    ensures RemainderInOrder(stacks)
  {
    var ordered := Pick(stacks, order);
    forall i, j | 0 <= i < |stacks| && 0 <= j < |stacks| && stacks[j].name in stacks[i].dependsOn
               && Unresolvable(stacks, stacks[j].name)
      ensures j < i
    {
      RemainderIsUnresolvable(stacks, rounds, j);
      ResolvedNeedsResolved(stacks, rounds, i, j);
      assert i in order && j in order;
      var x :| 0 <= x < |order| && order[x] == i;
      var y :| 0 <= y < |order| && order[y] == j;
      assert ordered[y].name in ordered[x].dependsOn;
    }
  }

  lemma RemainderGivesRespects(stacks: seq<Stack>, rounds: seq<nat>, order: seq<nat>)
    requires UniqueNames(stacks) && DeployOrder(stacks, rounds, order) && RemainderInOrder(stacks)
    ensures RespectsDependencies(Pick(stacks, order))
  {
    var ordered := Pick(stacks, order);
    forall x, y | 0 <= x < |ordered| && 0 <= y < |ordered| && ordered[y].name in ordered[x].dependsOn
      ensures y < x
    {
      var i, j := order[x], order[y];
      if rounds[i] > 0 {
        var e := DependenciesComeFirst(stacks, rounds, order, x, ordered[y].name);
        assert stacks[order[e]].name == stacks[j].name;
        assert order[e] == j;
      } else if rounds[j] == 0 {
        assert stacks[j].name in stacks[i].dependsOn;
        RemainderIsUnresolvable(stacks, rounds, j);
      }
    }
  }

  /** A dependency on a stack outside the list (one that is disabled) can put a
      dependent before a dependency that is listed. */
  lemma OutsideDependencyBreaksOrder()
    ensures var stacks := [Stack("app", ["db", "vpn"]), Stack("db", ["vpn"])];
      UniqueNames(stacks) && DeployOrder(stacks, [0, 0], [0, 1]) && !RespectsDependencies(Pick(stacks, [0, 1]))
  {
    var app, db := Stack("app", ["db", "vpn"]), Stack("db", ["vpn"]);
    var stacks := [app, db];
    assert "vpn" == app.dependsOn[1] && "vpn" == db.dependsOn[0] && "db" == app.dependsOn[0];
    assert "vpn" in app.dependsOn && "vpn" in db.dependsOn && "db" in app.dependsOn;
    forall i: nat, r: nat | i < 2
      ensures !ReadyBy(stacks, [0, 0], i, r)
    {
      assert !EmittedBy(stacks, [0, 0], i, "vpn", r);
    }
    assert [0, 1][0] == 0 && [0, 1][1] == 1;
    assert Pick(stacks, [0, 1])[1].name in Pick(stacks, [0, 1])[0].dependsOn;
  }

  // ---------- names that repeat ----------

  lemma {:induction false} UniqueAreCounted(stacks: seq<Stack>)
    requires UniqueNames(stacks)
    ensures |Names(stacks)| == |stacks|
  {
    if stacks != [] {
      var front, last := stacks[..|stacks| - 1], stacks[|stacks| - 1];
      UniqueAreCounted(front);
      assert Names(stacks) == Names(front) + {last.name} && last.name !in Names(front);
    }
  }

  /** Lists with a name twice have fewer names than stacks. */
  lemma RepeatedAreFewer(stacks: seq<Stack>)
    requires !UniqueNames(stacks)
    ensures |Names(stacks)| < |stacks|
  {
    var i, j :| 0 <= i < j < |stacks| && stacks[i].name == stacks[j].name;
    var others := stacks[..j] + stacks[j + 1..];
    assert others[i] == stacks[i];
    forall s | s in stacks
      ensures s.name in Names(others)
    {
      var k :| 0 <= k < |stacks| && stacks[k] == s;
      assert k != j ==> s == others[if k < j then k else k - 1];
    }
    assert Names(stacks) == Names(others);
    NamesAtMost(others);
  }

  /** A list that never takes a name twice, as the loop's does, stays shorter than one with a repeated name
      from which it is drawn: the loop that waits for the two to be of equal length does not end. */
  lemma RepeatedNamesAreNeverFilled(stacks: seq<Stack>, ordered: seq<Stack>)
    requires !UniqueNames(stacks) && UniqueNames(ordered) && forall s :: s in ordered ==> s in stacks
    ensures |ordered| < |stacks|
  {
    UniqueAreCounted(ordered);
    RepeatedAreFewer(stacks);
    SubsetSize(Names(ordered), Names(stacks));
  }
}
