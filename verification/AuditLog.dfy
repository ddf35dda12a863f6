/** The per-stack audit log (internal/audit/log.go): bounded lists in memory, an append file behind them
    that compaction keeps short, and a reload that rebuilds the lists. */
module AuditLog {
  import opened Options
  import opened Sequences
  import opened Collapse

  const COMPACTION_SLACK := 8

  type Lists = map<string, seq<Outcome>>

  predicate Auditable(s: Status) {
    s.Success? || s.Failed? || s.RolledBack? || s.RolledBackUnhealthy? || s.Healed? || s.HealExhausted? || s.Removed?
  }

  /** The file's lines of one stack, in order. */
  function Lines(file: seq<Outcome>, stack: string): seq<Outcome> {
    if file == [] then []
    else
      var before := Lines(file[..|file| - 1], stack);
      if file[|file| - 1].stack == stack then before + [file[|file| - 1]] else before
  }

  /** A stack's list after a load of the file. */
  function Reloaded(file: seq<Outcome>, stack: string, cap: nat): seq<Outcome> {
    LastN(Collapsed(Lines(file, stack)), cap)
  }

  function ListOf(lists: Lists, stack: string): seq<Outcome> {
    if stack in lists then lists[stack] else []
  }

  ghost predicate Sorted(recs: seq<Outcome>) {
    forall i, j :: 0 <= i < j < |recs| ==> recs[i].span.latest <= recs[j].span.latest
  }

  ghost predicate Strict(recs: seq<Outcome>) {
    forall i, j :: 0 <= i < j < |recs| ==> recs[i].span.latest < recs[j].span.latest
  }

  ghost predicate OfStack(recs: seq<Outcome>, stack: string) {
    forall i :: 0 <= i < |recs| ==> recs[i].stack == stack
  }

  // ---------- lists and lines ----------

  lemma {:induction false} LinesSplit(a: seq<Outcome>, b: seq<Outcome>, stack: string)
    ensures Lines(a + b, stack) == Lines(a, stack) + Lines(b, stack)
  {
    if b == [] {
      assert a + b == a;
    } else {
      LinesSplit(a, b[..|b| - 1], stack);
      assert (a + b)[..|a + b| - 1] == a + b[..|b| - 1];
    }
  }

  lemma {:induction false} LinesOfOneStack(recs: seq<Outcome>, stack: string, other: string)
    requires OfStack(recs, stack)
    ensures Lines(recs, other) == if other == stack then recs else []
  {
    if recs != [] {
      LinesOfOneStack(recs[..|recs| - 1], stack, other);
      assert recs == recs[..|recs| - 1] + [recs[|recs| - 1]];
    }
  }

  /** Adding the whole list of a stack that has no line yet. */
  lemma LinesWithList(file: seq<Outcome>, list: seq<Outcome>, stack: string, s: string)
    requires OfStack(list, stack) && Lines(file, stack) == []
    ensures Lines(file + list, s) == if s == stack then list else Lines(file, s)
  {
    LinesSplit(file, list, s);
    LinesOfOneStack(list, stack, s);
  }

  lemma {:induction false} LinesAreOfStack(file: seq<Outcome>, stack: string)
    ensures OfStack(Lines(file, stack), stack)
  {
    if file != [] {
      LinesAreOfStack(file[..|file| - 1], stack);
    }
  }

  lemma {:induction false} LinesCount(file: seq<Outcome>, stack: string, r: Outcome)
    ensures multiset(Lines(file, stack))[r] == if r.stack == stack then multiset(file)[r] else 0
  {
    if file != [] {
      LinesCount(file[..|file| - 1], stack, r);
      assert file == file[..|file| - 1] + [file[|file| - 1]];
    }
  }

  lemma {:induction false} LinesStaySorted(file: seq<Outcome>, stack: string)
    requires Sorted(file)
    ensures Sorted(Lines(file, stack))
    ensures forall r :: r in Lines(file, stack) ==> r in file
  {
    if file != [] {
      LinesStaySorted(file[..|file| - 1], stack);
      assert forall r :: r in file[..|file| - 1] ==> r.span.latest <= file[|file| - 1].span.latest;
    }
  }

  lemma SameNewest(a: seq<Outcome>, b: seq<Outcome>)
    requires Strict(a) && Sorted(b) && a != [] && b != [] && multiset(a) == multiset(b)
    ensures a[|a| - 1] == b[|b| - 1]
  {
    var x, y := a[|a| - 1], b[|b| - 1];
    assert y in multiset(b) && x in multiset(a);
    var i :| 0 <= i < |a| && a[i] == y;
    var j :| 0 <= j < |b| && b[j] == x;
    assert x.span.latest <= y.span.latest;
    assert i < |a| - 1 ==> y.span.latest < x.span.latest;
  }

  lemma WithoutNewest(a: seq<Outcome>)
    requires a != []
    ensures multiset(a[..|a| - 1]) == multiset(a) - multiset{a[|a| - 1]}
  {
    assert a == a[..|a| - 1] + [a[|a| - 1]];
  }

  /** Only one ordering by time of records with distinct times. */
  lemma {:induction false} StrictOrderIsUnique(a: seq<Outcome>, b: seq<Outcome>)
    requires Strict(a) && Sorted(b) && multiset(a) == multiset(b)
    ensures a == b
  {
    assert |a| == |multiset(a)| == |multiset(b)| == |b|;
    if a != [] {
      SameNewest(a, b);
      WithoutNewest(a);
      WithoutNewest(b);
      StrictOrderIsUnique(a[..|a| - 1], b[..|b| - 1]);
      assert a == a[..|a| - 1] + [a[|a| - 1]];
    }
  }

  /** Rewriting the lines in any time-sorted order leaves each stack's lines as they were. */
  lemma SortingKeepsLines(all: seq<Outcome>, sorted: seq<Outcome>, stack: string)
    requires multiset(all) == multiset(sorted) && Sorted(sorted) && Strict(Lines(all, stack))
    ensures Lines(sorted, stack) == Lines(all, stack)
  {
    LinesStaySorted(sorted, stack);
    forall r
      ensures multiset(Lines(all, stack))[r] == multiset(Lines(sorted, stack))[r]
    {
      LinesCount(all, stack, r);
      LinesCount(sorted, stack, r);
    }
    StrictOrderIsUnique(Lines(all, stack), Lines(sorted, stack));
  }

  method SortByTime(all: seq<Outcome>) returns (sorted: seq<Outcome>)
    ensures multiset(sorted) == multiset(all) && Sorted(sorted) && |sorted| == |all|
  {
    sorted := [];
    for i := 0 to |all|
      invariant multiset(sorted) == multiset(all[..i]) && Sorted(sorted) && |sorted| == i
    {
      sorted := Insert(sorted, all[i]);
      assert all[..i + 1] == all[..i] + [all[i]];
    }
    assert all[..|all|] == all;
  }

  method SlotFor(sorted: seq<Outcome>, r: Outcome) returns (j: nat)
    requires Sorted(sorted)
    ensures j <= |sorted|
    ensures forall k :: 0 <= k < j ==> sorted[k].span.latest <= r.span.latest
    ensures forall k :: j <= k < |sorted| ==> sorted[k].span.latest > r.span.latest
  {
    j := |sorted|;
    while j > 0 && sorted[j - 1].span.latest > r.span.latest
      invariant 0 <= j <= |sorted|
      invariant forall k :: j <= k < |sorted| ==> sorted[k].span.latest > r.span.latest
    {
      j := j - 1;
    }
  }

  method Insert(sorted: seq<Outcome>, r: Outcome) returns (more: seq<Outcome>)
    requires Sorted(sorted)
    ensures multiset(more) == multiset(sorted) + multiset{r} && Sorted(more) && |more| == |sorted| + 1
  {
    var j := SlotFor(sorted, r);
    var a, b := sorted[..j], sorted[j..];
    more := a + [r] + b;
    assert sorted == a + b;
  }

  // ---------- one record ----------

  /** A stack's list after one more record. */
  function Recorded(recs: seq<Outcome>, r: Outcome, cap: nat): seq<Outcome> {
    LastN(Push(recs, r), cap)
  }

  /** Dropping the oldest first or last is the same, as long as one record is kept. */
  lemma RecordingCommutesWithTheCap(recs: seq<Outcome>, r: Outcome, cap: nat)
    requires cap >= 1
    ensures Recorded(LastN(recs, cap), r, cap) == LastN(Push(recs, r), cap)
  {
    if recs == [] {
    } else if Repeats(r, recs[|recs| - 1]) {
      var x := Absorb(r, recs[|recs| - 1]);
      LastNReplaced(recs, x, cap);
      assert Push(recs, r) == recs[..|recs| - 1] + [x];
    } else {
      LastNReplaced(recs, r, cap);
      LastNAppended(recs, r, cap);
    }
  }

  /** The file after its line was appended reloads to the new list; before, to the old one. */
  lemma AppendedLineReloads(lines: seq<Outcome>, r: Outcome, cap: nat)
    requires cap >= 1 && NoRepeats(lines) && (lines != [] ==> !Repeats(r, lines[|lines| - 1]))
    ensures LastN(lines + [r], cap) == Recorded(LastN(lines, cap), r, cap)
    ensures NoRepeats(lines + [r])
  {
    RecordingCommutesWithTheCap(lines, r, cap);
  }

  /** Every record of the stack so far, as the log keeps it. */
  function ListAfter(all: seq<Outcome>, stack: string, cap: nat): seq<Outcome> {
    LastN(Collapsed(Lines(all, stack)), cap)
  }

  /** The list follows the collapse of everything recorded. */
  lemma ListAfterMore(all: seq<Outcome>, r: Outcome, cap: nat, s: string)
    requires cap >= 1
    ensures ListAfter(all + [r], s, cap) == if s == r.stack then Recorded(ListAfter(all, s, cap), r, cap)
            else ListAfter(all, s, cap)
  {
    if s == r.stack {
      CollapsedMore(Lines(all, s), r);
      RecordingCommutesWithTheCap(Collapsed(Lines(all, s)), r, cap);
    }
  }

  lemma RecordedIsOfStack(recs: seq<Outcome>, r: Outcome, cap: nat)
    requires OfStack(recs, r.stack)
    ensures OfStack(Recorded(recs, r, cap), r.stack)
  {
  }

  // ---------- sizes ----------

  ghost function Size(lists: Lists): nat {
    if lists == map[] then 0
    else
      var k :| k in lists;
      |lists[k]| + Size(lists - {k})
  }

  lemma {:induction false} SizeWithout(lists: Lists, k: string)
    requires k in lists
    ensures Size(lists) == |lists[k]| + Size(lists - {k})
    decreases |lists|
  {
    var j :| j in lists && Size(lists) == |lists[j]| + Size(lists - {j});
    if j != k {
      SizeWithout(lists - {j}, k);
      SizeWithout(lists - {k}, j);
      assert (lists - {j}) - {k} == (lists - {k}) - {j};
    }
  }

  // ---------- the file behind the lists ----------

  /** The file holds each list: its lines of a stack, collapsed and in time order, end in the list. */
  ghost predicate Holds(file: seq<Outcome>, lists: Lists, cap: nat) {
    forall s :: HoldsOne(Lines(file, s), ListOf(lists, s), cap)
  }

  ghost predicate HoldsOne(lines: seq<Outcome>, list: seq<Outcome>, cap: nat) {
    NoRepeats(lines) && Strict(lines) && LastN(lines, cap) == list
  }

  /** A load of the file would rebuild the lists. */
  ghost predicate Rebuilds(file: seq<Outcome>, lists: Lists, cap: nat) {
    forall s :: Reloaded(file, s, cap) == ListOf(lists, s)
  }

  lemma HeldIsRebuilt(file: seq<Outcome>, lists: Lists, cap: nat)
    requires Holds(file, lists, cap)
    ensures Rebuilds(file, lists, cap)
  {
    forall s
      ensures Reloaded(file, s, cap) == ListOf(lists, s)
    {
      assert HoldsOne(Lines(file, s), ListOf(lists, s), cap);
      CollapsedStays(Lines(file, s));
    }
  }

  /** An event as a record: a single occurrence. */
  function RecordOf(e: Outcome): Outcome {
    e.(span := Span(0, None, e.span.latest))
  }

  /** A crash with this content of the file loses at most the newest record. */
  ghost predicate Recovers(file: seq<Outcome>, before: Lists, after: Lists, cap: nat) {
    Rebuilds(file, before, cap) || Rebuilds(file, after, cap)
  }

  predicate AppendsTo(recs: seq<Outcome>, r: Outcome) {
    recs == [] || !Repeats(r, recs[|recs| - 1])
  }

  predicate Newer(recs: seq<Outcome>, r: Outcome) {
    recs == [] || recs[|recs| - 1].span.latest < r.span.latest
  }

  lemma RecordedIsStrict(recs: seq<Outcome>, r: Outcome, cap: nat)
    requires Strict(recs) && Newer(recs, r)
    ensures Strict(Recorded(recs, r, cap))
  {
    var more := Push(recs, r);
    forall i, j | 0 <= i < j < |more|
      ensures more[i].span.latest < more[j].span.latest
    {
      assert i < |recs| && recs[i].span.latest <= recs[|recs| - 1].span.latest;
    }
  }

  /** Appending a record that repeats nothing. */
  lemma AppendedHolds(file: seq<Outcome>, lists: Lists, r: Outcome, cap: nat)
    requires cap >= 1 && Holds(file, lists, cap) && Newer(ListOf(lists, r.stack), r)
    requires AppendsTo(ListOf(lists, r.stack), r)
    ensures Holds(file + [r], With(lists, r, cap), cap)
  {
    var after := With(lists, r, cap);
    forall s
      ensures HoldsOne(Lines(file + [r], s), ListOf(after, s), cap)
    {
      assert HoldsOne(Lines(file, s), ListOf(lists, s), cap);
      if s == r.stack {
        AppendedHoldsOne(Lines(file, s), ListOf(lists, s), r, cap);
      }
    }
  }

  lemma AppendedHoldsOne(lines: seq<Outcome>, list: seq<Outcome>, r: Outcome, cap: nat)
    requires cap >= 1 && HoldsOne(lines, list, cap) && Newer(list, r) && AppendsTo(list, r)
    ensures HoldsOne(lines + [r], Recorded(list, r, cap), cap)
  {
    if lines != [] {
      LastNReplaced(lines, r, cap);
    }
    AppendedLineReloads(lines, r, cap);
  }

  /** The lists are the capped collapse of all records. */
  ghost predicate Follow(lists: Lists, all: seq<Outcome>, cap: nat) {
    forall s :: ListOf(lists, s) == ListAfter(all, s, cap) && OfStack(ListOf(lists, s), s)
  }

  ghost predicate AllStrict(lists: Lists) {
    forall s :: Strict(ListOf(lists, s))
  }

  function With(lists: Lists, r: Outcome, cap: nat): Lists {
    lists[r.stack := Recorded(ListOf(lists, r.stack), r, cap)]
  }

  lemma FollowMore(lists: Lists, all: seq<Outcome>, r: Outcome, cap: nat)
    requires cap >= 1 && Follow(lists, all, cap)
    ensures Follow(With(lists, r, cap), all + [r], cap)
  {
    var after := With(lists, r, cap);
    forall s
      ensures ListOf(after, s) == ListAfter(all + [r], s, cap) && OfStack(ListOf(after, s), s)
    {
      assert ListOf(lists, s) == ListAfter(all, s, cap) && OfStack(ListOf(lists, s), s);
      ListAfterMore(all, r, cap, s);
      if s == r.stack {
        RecordedIsOfStack(ListOf(lists, s), r, cap);
      } else {
        assert ListOf(after, s) == ListOf(lists, s);
      }
    }
  }

  lemma StrictMore(lists: Lists, r: Outcome, cap: nat)
    requires AllStrict(lists) && Newer(ListOf(lists, r.stack), r)
    ensures AllStrict(With(lists, r, cap))
  {
    RecordedIsStrict(ListOf(lists, r.stack), r, cap);
    forall s
      ensures Strict(ListOf(With(lists, r, cap), s))
    {
      assert Strict(ListOf(lists, s));
    }
  }

  lemma FollowedIsCollapsed(lists: Lists, all: seq<Outcome>, cap: nat, s: string)
    requires Follow(lists, all, cap)
    ensures NoRepeats(ListOf(lists, s)) && LastN(ListOf(lists, s), cap) == ListOf(lists, s)
  {
    var whole := Collapsed(Lines(all, s));
    assert ListOf(lists, s) == LastN(whole, cap);
    CollapsedHasNoRepeats(Lines(all, s));
  }

  method ListsIn(disk: seq<Outcome>) returns (lists: Lists)
    ensures forall s :: ListOf(lists, s) == Lines(disk, s)
  {
    lists := map[];
    for i := 0 to |disk|
      invariant forall s :: ListOf(lists, s) == Lines(disk[..i], s)
    {
      forall s
        ensures Lines(disk[..i + 1], s) == if disk[i].stack == s then Lines(disk[..i], s) + [disk[i]]
                else Lines(disk[..i], s)
      {
        assert disk[..i + 1] == disk[..i] + [disk[i]];
      }
      lists := lists[disk[i].stack := ListOf(lists, disk[i].stack) + [disk[i]]];
    }
    assert disk[..|disk|] == disk;
  }

  method FoldList(recs: seq<Outcome>, cap: nat) returns (folded: seq<Outcome>)
    ensures folded == LastN(Collapsed(recs), cap)
  {
    folded := CollapseRuns(recs);
    if |folded| > cap {
      folded := folded[|folded| - cap..];
    }
  }

  /** Collapses and caps every list. */
  method FoldLists(lists: Lists, cap: nat) returns (folded: Lists)
    ensures folded.Keys == lists.Keys && forall s :: s in lists ==> folded[s] == LastN(Collapsed(lists[s]), cap)
  {
    folded := lists;
    var todo := lists.Keys;
    while todo != {}
      invariant todo <= lists.Keys == folded.Keys
      invariant forall s :: s in lists ==> folded[s] == if s in todo then lists[s] else LastN(Collapsed(lists[s]), cap)
      decreases |todo|
    {
      var k :| k in todo;
      var recs := FoldList(folded[k], cap);
      folded := folded[k := recs];
      todo := todo - {k};
    }
  }

  lemma LoadedFollow(disk: seq<Outcome>, lists: Lists, folded: Lists, cap: nat)
    requires forall s :: ListOf(lists, s) == Lines(disk, s)
    requires folded.Keys == lists.Keys && forall s :: s in lists ==> folded[s] == LastN(Collapsed(lists[s]), cap)
    ensures Follow(folded, disk, cap)
  {
    forall s
      ensures ListOf(folded, s) == ListAfter(disk, s, cap) && OfStack(ListOf(folded, s), s)
    {
      assert ListOf(lists, s) == Lines(disk, s);
      LinesAreOfStack(disk, s);
      CollapsedIsOfStack(Lines(disk, s), s);
    }
  }

  lemma {:induction false} CollapsedIsOfStack(recs: seq<Outcome>, stack: string)
    requires OfStack(recs, stack)
    ensures OfStack(Collapsed(recs), stack)
  {
    if recs != [] {
      CollapsedIsOfStack(recs[..|recs| - 1], stack);
    }
  }

  class Log {
    const cap: nat
    var byStack: Lists
    var file: seq<Outcome>
    var diskLines: nat
    ghost var all: seq<Outcome>

    /** The lists are the capped collapse of all records, whatever became of the file. */
    ghost predicate Valid()
      reads this
    {
      cap >= 1 && diskLines <= |file| && Follow(byStack, all, cap)
    }

    /** The file is up to date and not much longer than the lists. */
    ghost predicate Synced()
      reads this
    {
      Holds(file, byStack, cap) && diskLines == |file| <= 2 * Size(byStack) + 8
    }

    /** Loads the well-formed lines of a file and rewrites it. A file that cannot be read is left alone, and
        the log starts empty. The lines of a file that is not rewritten are never counted. */
    constructor (perStackCap: nat, disk: seq<Outcome>, readable: bool, rewrites: bool)
      requires perStackCap >= 1
      ensures Valid() && cap == perStackCap && all == (if readable then disk else []) && Rebuilds(all, byStack, cap)
      ensures if readable && rewrites then AllStrict(byStack) ==> Synced() else file == disk && diskLines == 0
    {
      cap, byStack, file, diskLines, all := perStackCap, map[], disk, 0, if readable then disk else [];
      new;
      if !readable {
        assert Follow(map[], [], perStackCap);
        return;
      }
      var lists := ListsIn(disk);
      byStack := FoldLists(lists, perStackCap);
      LoadedFollow(disk, lists, byStack, perStackCap);
      Compact(rewrites);
    }

    method Total() returns (n: nat)
      ensures n == Size(byStack)
    {
      n := 0;
      var rest := byStack;
      while rest != map[]
        invariant n + Size(rest) == Size(byStack)
        decreases |rest|
      {
        var k :| k in rest;
        SizeWithout(rest, k);
        n := n + |rest[k]|;
        rest := rest - {k};
      }
    }

    /** All records, stack by stack. */
    method Gather() returns (every: seq<Outcome>)
      requires Valid()
      ensures |every| == Size(byStack) && forall s :: Lines(every, s) == ListOf(byStack, s)
    {
      every := [];
      var rest := byStack;
      while rest != map[]
        invariant rest.Keys <= byStack.Keys && forall k :: k in rest ==> rest[k] == byStack[k]
        invariant |every| + Size(rest) == Size(byStack)
        invariant forall s :: Lines(every, s) == if s in rest then [] else ListOf(byStack, s)
        decreases |rest|
      {
        var k :| k in rest;
        SizeWithout(rest, k);
        assert OfStack(ListOf(byStack, k), k);
        forall s
          ensures Lines(every + rest[k], s) == if s == k then rest[k] else Lines(every, s)
        {
          LinesWithList(every, rest[k], k, s);
        }
        every := every + rest[k];
        rest := rest - {k};
      }
    }

    /** Rewrites the file from the lists, in time order; a failed write leaves it. */
    method Compact(ok: bool)
      requires Valid()
      modifies this`file, this`diskLines
      ensures Valid()
      ensures ok && AllStrict(byStack) ==> Synced()
      ensures !ok ==> file == old(file) && diskLines == old(diskLines)
    {
      var every := Gather();
      var sorted := SortByTime(every);
      if ok {
        file := sorted;
        diskLines := |every|;
        if AllStrict(byStack) {
          forall s
            ensures HoldsOne(Lines(file, s), ListOf(byStack, s), cap)
          {
            assert Strict(ListOf(byStack, s));
            SortingKeepsLines(every, sorted, s);
            FollowedIsCollapsed(byStack, all, cap, s);
          }
        }
      }
    }

    /** Appends a line, then compacts a file that outgrew the lists; between holds what a crash between
        the two writes would leave. */
    method AppendLine(r: Outcome, appends: bool, rewrites: bool) returns (ghost between: seq<Outcome>)
      requires Valid()
      modifies this`file, this`diskLines
      ensures Valid()
      ensures between == if appends then old(file) + [r] else old(file)
      ensures file == between || (AllStrict(byStack) ==> Synced())
      ensures rewrites && old(diskLines == |file|) && AllStrict(byStack) && Holds(between, byStack, cap) ==> Synced()
    {
      if appends {
        file := file + [r];
        diskLines := diskLines + 1;
      }
      between := file;
      var total := Total();
      if diskLines > 2 * total + COMPACTION_SLACK {
        Compact(rewrites);
      }
    }

    /** The stack's new list: a repeat replaces its newest record, and the oldest makes room. */
    method NewList(r: Outcome) returns (recs: seq<Outcome>, rec: Outcome, collapsed: bool)
      ensures recs == Recorded(ListOf(byStack, r.stack), r, cap)
      ensures collapsed <==> !AppendsTo(ListOf(byStack, r.stack), r)
      ensures rec.stack == r.stack && (!collapsed ==> rec == r)
    {
      recs := if r.stack in byStack then byStack[r.stack] else [];
      rec, collapsed := r, false;
      var n := |recs|;
      if n > 0 && Repeats(rec, recs[n - 1]) {
        rec := Absorb(rec, recs[n - 1]);
        recs := recs[..n - 1];
        collapsed := true;
      }
      recs := recs + [rec];
      if |recs| > cap {
        recs := recs[|recs| - cap..];
      }
    }

    /** A record that absorbed the newest one: its line can only go with a rewrite. */
    method PersistRepeat(ghost lists: Lists, rewrites: bool)
      requires Valid()
      modifies this`file, this`diskLines
      ensures Valid()
      ensures AllStrict(byStack) && rewrites ==> Synced()
      ensures AllStrict(byStack) && Rebuilds(old(file), lists, cap) ==> Recovers(file, lists, byStack, cap)
    {
      Compact(rewrites);
      if Synced() {
        HeldIsRebuilt(file, byStack, cap);
      }
    }

    /** A record of its own: a line of its own. */
    method PersistNew(ghost lists: Lists, r: Outcome, appends: bool, rewrites: bool)
      returns (ghost between: seq<Outcome>)
      requires Valid() && byStack == With(lists, r, cap) && AppendsTo(ListOf(lists, r.stack), r)
      modifies this`file, this`diskLines
      ensures Valid()
      ensures AllStrict(byStack) && Newer(ListOf(lists, r.stack), r) && Holds(old(file), lists, cap) ==>
        && (appends ==> Holds(file, byStack, cap))
        && (appends && rewrites && old(diskLines == |file|) ==> Synced())
        && Recovers(between, lists, byStack, cap) && Recovers(file, lists, byStack, cap)
    {
      ghost var sound := AllStrict(byStack) && Newer(ListOf(lists, r.stack), r) && Holds(file, lists, cap);
      if sound {
        HeldIsRebuilt(file, lists, cap);
        AppendedHolds(file, lists, r, cap);
        HeldIsRebuilt(file + [r], byStack, cap);
      }
      between := AppendLine(r, appends, rewrites);
      if Synced() {
        HeldIsRebuilt(file, byStack, cap);
      }
    }

    /** The memory part of a record. */
    method Remember(r: Outcome) returns (rec: Outcome, collapsed: bool)
      requires Valid()
      modifies this`byStack, this`all
      ensures Valid() && all == old(all) + [r] && byStack == With(old(byStack), r, cap)
      ensures old(AllStrict(byStack)) && Newer(old(ListOf(byStack, r.stack)), r) ==> AllStrict(byStack)
      ensures collapsed <==> !AppendsTo(old(ListOf(byStack, r.stack)), r)
      ensures !collapsed ==> rec == r
    {
      var recs;
      recs, rec, collapsed := NewList(r);
      FollowMore(byStack, all, r, cap);
      if AllStrict(byStack) && Newer(ListOf(byStack, r.stack), r) {
        StrictMore(byStack, r, cap);
      }
      byStack := byStack[rec.stack := recs];
      all := all + [r];
    }

    /** One deploy event. Whatever the writes do, the lists follow all records. From a file that holds the
        lists, and with increasing times, every content of the file, also between its two writes, reloads the
        old or the new lists, and successful writes keep it so, and short when all its lines are counted. */
    method Record(e: Outcome, appends: bool, rewrites: bool) returns (ghost between: seq<Outcome>)
      requires Valid()
      modifies this
      ensures Valid()
      ensures all == if e.status in {Deploying, Skipped, Queued, Blocked, Held} then old(all)
                     else old(all) + [Outcome(e.stack, e.status, e.error, e.id, Span(0, None, e.span.latest), e.detail)]
      ensures old(AllStrict(byStack)) && Newer(old(ListOf(byStack, e.stack)), e) && old(Holds(file, byStack, cap)) ==>
        && AllStrict(byStack) && (appends && rewrites ==> Holds(file, byStack, cap))
        && (old(Synced()) && appends && rewrites ==> Synced())
        && Recovers(between, old(byStack), byStack, cap) && Recovers(file, old(byStack), byStack, cap)
    {
      between := file;
      if Holds(file, byStack, cap) && AllStrict(byStack) {
        HeldIsRebuilt(file, byStack, cap);
      }
      if !Auditable(e.status) {
        return;
      }
      var rec, collapsed := Remember(RecordOf(e));
      if collapsed {
        PersistRepeat(old(byStack), rewrites);
      } else {
        between := PersistNew(old(byStack), rec, appends, rewrites);
      }
    }
  }
}
