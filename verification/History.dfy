/** The bounded deploy history (internal/events/history.go). */
module History {
  import opened Sequences
  import opened Collapse

  /** A stored event; supersedes names the event it absorbed, 0 when none. */
  datatype Event = Event(o: Outcome, supersedes: nat)

  const MAX_HISTORY := 100

  predicate RepeatsOf(e: Event, prev: Event) {
    e.o.stack == prev.o.stack && Repeats(e.o, prev.o)
  }

  predicate IsOutcomeOf(e: Event, stack: string) {
    e.o.stack == stack && Terminal(e.o.status)
  }

  /** The index of the newest outcome of a stack, -1 when it has none. */
  function LastOutcome(events: seq<Event>, stack: string): (i: int)
    ensures -1 <= i < |events|
  {
    if events == [] then -1
    else if IsOutcomeOf(events[|events| - 1], stack) then |events| - 1
    else LastOutcome(events[..|events| - 1], stack)
  }

  lemma {:induction false} LastOutcomeIsNewest(events: seq<Event>, stack: string)
    ensures var i := LastOutcome(events, stack);
      && (i >= 0 ==> IsOutcomeOf(events[i], stack))
      && forall j :: i < j < |events| ==> !IsOutcomeOf(events[j], stack)
  {
    if events != [] && !IsOutcomeOf(events[|events| - 1], stack) {
      LastOutcomeIsNewest(events[..|events| - 1], stack);
    }
  }

  /** The event tells how something ended for the stack, not that it is on its way, waits or was left out. */
  predicate Concludes(e: Event, stack: string) {
    e.o.stack == stack && e.o.status !in {Deploying, Skipped, Queued, Blocked, Held}
  }

  /** The events of the other stacks, in order. */
  function Others(events: seq<Event>, stack: string): seq<Event> {
    if events == [] then []
    else
      var last := events[|events| - 1];
      var before := Others(events[..|events| - 1], stack);
      if last.o.stack != stack then before + [last] else before
  }

  /** The event as stored. */
  function Stored(events: seq<Event>, e: Event): Event {
    var i := LastOutcome(events, e.o.stack);
    if i >= 0 && RepeatsOf(e, events[i]) then Event(Absorb(e.o, events[i].o), events[i].o.id) else e
  }

  /** The history with the event, before trimming. */
  function Longer(events: seq<Event>, e: Event): seq<Event> {
    var i := LastOutcome(events, e.o.stack);
    if i >= 0 && RepeatsOf(e, events[i])
    then events[..i] + Others(events[i + 1..], e.o.stack) + [Stored(events, e)]
    else events + [e]
  }

  function Trimmed(events: seq<Event>): seq<Event> {
    LastN(events, MAX_HISTORY)
  }

  /** What the history holds after these additions. */
  function Kept(added: seq<Event>): seq<Event> {
    if added == [] then [] else Trimmed(Longer(Kept(added[..|added| - 1]), added[|added| - 1]))
  }

  predicate Fits(kept: seq<Event>, e: Event) {
    |Longer(kept, e)| <= MAX_HISTORY
  }

  /** Nothing was evicted. */
  predicate NeverTrimmed(added: seq<Event>) {
    added != [] ==> NeverTrimmed(added[..|added| - 1]) && Fits(Kept(added[..|added| - 1]), added[|added| - 1])
  }

  /** A stack's outcomes, in order. */
  function Outcomes(events: seq<Event>, stack: string): seq<Outcome> {
    if events == [] then []
    else
      var last := events[|events| - 1];
      var before := Outcomes(events[..|events| - 1], stack);
      if IsOutcomeOf(last, stack) then before + [last.o] else before
  }

  /** All events of a stack, in order. */
  function EventsOf(events: seq<Event>, stack: string): seq<Event> {
    if events == [] then []
    else
      var last := events[|events| - 1];
      var before := EventsOf(events[..|events| - 1], stack);
      if last.o.stack == stack then before + [last] else before
  }

  // ---------- splitting a history ----------

  lemma {:induction false} OutcomesSplit(a: seq<Event>, b: seq<Event>, stack: string)
    ensures Outcomes(a + b, stack) == Outcomes(a, stack) + Outcomes(b, stack)
  {
    if b == [] {
      assert a + b == a;
    } else {
      OutcomesSplit(a, b[..|b| - 1], stack);
      assert (a + b)[..|a + b| - 1] == a + b[..|b| - 1];
    }
  }

  lemma {:induction false} EventsSplit(a: seq<Event>, b: seq<Event>, stack: string)
    ensures EventsOf(a + b, stack) == EventsOf(a, stack) + EventsOf(b, stack)
  {
    if b == [] {
      assert a + b == a;
    } else {
      EventsSplit(a, b[..|b| - 1], stack);
      assert (a + b)[..|a + b| - 1] == a + b[..|b| - 1];
    }
  }

  lemma {:induction false} OthersKeep(events: seq<Event>, stack: string, other: string)
    requires other != stack
    ensures EventsOf(Others(events, stack), other) == EventsOf(events, other)
    ensures Outcomes(Others(events, stack), other) == Outcomes(events, other)
  {
    if events != [] {
      var front, last := events[..|events| - 1], events[|events| - 1];
      OthersKeep(front, stack, other);
      if last.o.stack != stack {
        EventsSplit(Others(front, stack), [last], other);
        OutcomesSplit(Others(front, stack), [last], other);
        EventsSplit(front, [last], other);
        OutcomesSplit(front, [last], other);
        assert front + [last] == events;
      }
    }
  }

  lemma {:induction false} OthersDrop(events: seq<Event>, stack: string)
    ensures Outcomes(Others(events, stack), stack) == [] && |Others(events, stack)| <= |events|
  {
    if events != [] {
      var front, last := events[..|events| - 1], events[|events| - 1];
      OthersDrop(front, stack);
      if last.o.stack != stack {
        OutcomesSplit(Others(front, stack), [last], stack);
      }
    }
  }

  lemma {:induction false} NoOutcomes(events: seq<Event>, stack: string)
    requires forall j :: 0 <= j < |events| ==> !IsOutcomeOf(events[j], stack)
    ensures Outcomes(events, stack) == []
  {
    if events != [] {
      NoOutcomes(events[..|events| - 1], stack);
    }
  }

  lemma OutcomesOfThree(a: seq<Event>, b: seq<Event>, x: Event, stack: string)
    ensures Outcomes(a + b + [x], stack) ==
      Outcomes(a, stack) + Outcomes(b, stack) + if IsOutcomeOf(x, stack) then [x.o] else []
  {
    OutcomesSplit(a + b, [x], stack);
    OutcomesSplit(a, b, stack);
  }

  /** The newest outcome of a stack ends the list of its outcomes; there is one iff the list is not empty. */
  lemma LastOutcomeEnds(events: seq<Event>, stack: string)
    ensures var i := LastOutcome(events, stack);
      if i < 0 then Outcomes(events, stack) == []
      else
        && Outcomes(events, stack) == Outcomes(events[..i], stack) + [events[i].o]
        && Outcomes(events[i + 1..], stack) == []
  {
    var i := LastOutcome(events, stack);
    LastOutcomeIsNewest(events, stack);
    if i < 0 {
      NoOutcomes(events, stack);
    } else {
      SplitAt(events, i);
      OutcomesSplit(events[..i] + [events[i]], events[i + 1..], stack);
      OutcomesOfThree(events[..i], [], events[i], stack);
      assert events[..i] + [] == events[..i];
      NoOutcomes(events[i + 1..], stack);
    }
  }

  // ---------- one addition ----------

  /** Adding an outcome collapses it into its stack's list; nothing else of any list moves. */
  lemma {:induction false} LongerOutcomes(events: seq<Event>, e: Event, stack: string)
    ensures Outcomes(Longer(events, e), stack) ==
      if IsOutcomeOf(e, stack) then Push(Outcomes(events, stack), e.o) else Outcomes(events, stack)
  {
    var i, s := LastOutcome(events, e.o.stack), e.o.stack;
    LastOutcomeIsNewest(events, s);
    LastOutcomeEnds(events, s);
    if i >= 0 && RepeatsOf(e, events[i]) {
      if stack == s {
        OwnWhenRepeated(events, e, i);
      } else {
        OtherWhenRepeated(events, e, stack, i);
      }
    } else {
      OutcomesOfThree(events, [], e, stack);
      assert events + [] == events;
    }
  }

  lemma PushOnto(before: seq<Outcome>, prev: Outcome, e: Outcome)
    requires Repeats(e, prev)
    ensures Push(before + [prev], e) == before + [Absorb(e, prev)]
  {
    assert (before + [prev])[..|before|] == before;
  }

  lemma CollapsedShape(a: seq<Event>, prev: Event, rest: seq<Event>, others: seq<Event>, stored: Event, e: Event)
    requires var s := e.o.stack;
      IsOutcomeOf(prev, s) && IsOutcomeOf(stored, s) && Outcomes(rest, s) == [] && Outcomes(others, s) == []
    requires Repeats(e.o, prev.o) && stored.o == Absorb(e.o, prev.o)
    ensures Outcomes(a + others + [stored], e.o.stack) == Push(Outcomes(a + [prev] + rest, e.o.stack), e.o)
  {
    var s := e.o.stack;
    var before := Outcomes(a, s);
    OutcomesOfThree(a, others, stored, s);
    OutcomesSplit(a + [prev], rest, s);
    OutcomesOfThree(a, [], prev, s);
    assert a + [] + [prev] == a + [prev];
    assert Outcomes(a + [prev] + rest, s) == before + [prev.o];
    PushOnto(before, prev.o, e.o);
  }

  lemma {:induction false} OwnWhenRepeated(events: seq<Event>, e: Event, i: nat)
    requires i < |events| && i == LastOutcome(events, e.o.stack) && RepeatsOf(e, events[i])
    ensures Outcomes(Longer(events, e), e.o.stack) == Push(Outcomes(events, e.o.stack), e.o)
  {
    var s, rest := e.o.stack, events[i + 1..];
    LastOutcomeIsNewest(events, s);
    NoOutcomes(rest, s);
    OthersDrop(rest, s);
    SplitAt(events, i);
    CollapsedShape(events[..i], events[i], rest, Others(rest, s), Stored(events, e), e);
  }

  lemma OtherWhenRepeated(events: seq<Event>, e: Event, stack: string, i: nat)
    requires i < |events| && i == LastOutcome(events, e.o.stack) && RepeatsOf(e, events[i]) && stack != e.o.stack
    ensures Outcomes(Longer(events, e), stack) == Outcomes(events, stack)
  {
    var s, rest := e.o.stack, events[i + 1..];
    OutcomesOfThree(events[..i], Others(rest, s), Stored(events, e), stack);
    OthersKeep(rest, s, stack);
    SplitAt(events, i);
    OutcomesSplit(events[..i] + [events[i]], rest, stack);
    OutcomesSplit(events[..i], [events[i]], stack);
  }

  /** A collapse takes nothing from the other stacks' interleaved history. */
  lemma LongerKeepsOthers(events: seq<Event>, e: Event, other: string)
    requires other != e.o.stack
    ensures EventsOf(Longer(events, e), other) == EventsOf(events, other)
  {
    var i, s := LastOutcome(events, e.o.stack), e.o.stack;
    if i >= 0 && RepeatsOf(e, events[i]) {
      var rest := events[i + 1..];
      EventsSplit(events[..i] + Others(rest, s), [Stored(events, e)], other);
      EventsSplit(events[..i], Others(rest, s), other);
      OthersKeep(rest, s, other);
      SplitAt(events, i);
      EventsSplit(events[..i] + [events[i]], rest, other);
      EventsSplit(events[..i], [events[i]], other);
    } else {
      EventsSplit(events, [e], other);
    }
  }

  ghost predicate IsSuffix<T>(a: seq<T>, b: seq<T>) {
    |a| <= |b| && a == b[|b| - |a|..]
  }

  /** Trimming keeps the newest hundred: it drops the oldest of each stack, and nothing between. */
  lemma TrimmedKeepsNewest(events: seq<Event>, stack: string)
    ensures Trimmed(events) == if |events| <= 100 then events else events[|events| - 100..]
    ensures IsSuffix(EventsOf(Trimmed(events), stack), EventsOf(events, stack))
    ensures IsSuffix(Outcomes(Trimmed(events), stack), Outcomes(events, stack))
  {
    var n := |events| - |Trimmed(events)|;
    assert events == events[..n] + events[n..];
    EventsSplit(events[..n], events[n..], stack);
    OutcomesSplit(events[..n], events[n..], stack);
  }

  lemma NewestIs(events: seq<Event>, stack: string, i: nat)
    requires i < |events| && Concludes(events[i], stack)
    requires forall j :: i < j < |events| ==> !Concludes(events[j], stack)
    ensures LastOutcome(events, stack) == i
  {
    LastOutcomeIsNewest(events, stack);
    assert IsOutcomeOf(events[i], stack);
    assert forall j :: i < j < |events| ==> !IsOutcomeOf(events[j], stack) by {
      assert forall j :: i < j < |events| ==> !Concludes(events[j], stack);
    }
  }

  /** With a newest outcome of its stack, an addition is absorbed exactly when it tells again, with the same
      error, that a deploy failed, was rolled back, or that healing was given up: it moves to the end as one
      occurrence more and names the event it absorbed. */
  lemma AdditionAbsorbsIff(events: seq<Event>, e: Event, i: nat)
    requires i < |events| && Concludes(events[i], e.o.stack)
    requires forall j :: i < j < |events| ==> !Concludes(events[j], e.o.stack)
    ensures var prev, stored := events[i].o, Stored(events, e);
      if e.o.status == prev.status && e.o.error == prev.error
         && e.o.status in {Failed, RolledBack, RolledBackUnhealthy, HealExhausted} then
        && Absorbs(prev.span, e.o, stored.o) && stored.supersedes == prev.id
        && Longer(events, e) == events[..i] + Others(events[i + 1..], e.o.stack) + [stored]
      else Longer(events, e) == events + [e] && stored == e
  {
    NewestIs(events, e.o.stack, i);
    AbsorbIsRaw(e.o, events[i].o);
  }

  /** Without one it is appended as it is. */
  lemma FirstIsAppended(events: seq<Event>, e: Event)
    requires forall j :: 0 <= j < |events| ==> !Concludes(events[j], e.o.stack)
    ensures Longer(events, e) == events + [e] && Stored(events, e) == e
  {
    LastOutcomeIsNewest(events, e.o.stack);
  }

  // ---------- every history ----------

  lemma SuffixHasNoRepeats(a: seq<Outcome>, b: seq<Outcome>)
    requires IsSuffix(a, b) && NoRepeats(b)
    ensures NoRepeats(a)
  {
    var n := |b| - |a|;
    forall i | 0 < i < |a|
      ensures !Repeats(a[i], a[i - 1])
    {
      assert a[i] == b[n + i] && a[i - 1] == b[n + i - 1];
    }
  }

  /** In every history: at most 100 events, and no stack has an outcome that repeats the one before. */
  lemma {:induction false} KeptIsCollapsed(added: seq<Event>, stack: string)
    ensures |Kept(added)| <= MAX_HISTORY
    ensures NoRepeats(Outcomes(Kept(added), stack))
  {
    if added != [] {
      var front, e := added[..|added| - 1], added[|added| - 1];
      KeptIsCollapsed(front, stack);
      LongerOutcomes(Kept(front), e, stack);
      if IsOutcomeOf(e, stack) {
        PushHasNoRepeats(Outcomes(Kept(front), stack), e.o);
      }
      TrimmedKeepsNewest(Longer(Kept(front), e), stack);
      SuffixHasNoRepeats(Outcomes(Kept(added), stack), Outcomes(Longer(Kept(front), e), stack));
    }
  }

  lemma CollapseStep(kept: seq<Event>, all: seq<Outcome>, e: Event, stack: string)
    requires Outcomes(kept, stack) == Collapsed(all)
    ensures Outcomes(Longer(kept, e), stack) == Collapsed(if IsOutcomeOf(e, stack) then all + [e.o] else all)
  {
    LongerOutcomes(kept, e, stack);
    CollapsedMore(all, e.o);
  }

  lemma OutcomesMore(added: seq<Event>, e: Event, stack: string)
    ensures Outcomes(added + [e], stack) == if IsOutcomeOf(e, stack) then Outcomes(added, stack) + [e.o]
            else Outcomes(added, stack)
  {
    assert (added + [e])[..|added|] == added;
  }

  lemma UntrimmedStep(front: seq<Event>, e: Event)
    requires NeverTrimmed(front + [e])
    ensures NeverTrimmed(front) && Kept(front + [e]) == Longer(Kept(front), e)
  {
    assert (front + [e])[..|front|] == front;
    var longer := Longer(Kept(front), e);
    assert |longer| <= MAX_HISTORY;
    assert Kept(front + [e]) == Trimmed(longer);
  }

  lemma CollapseMore(front: seq<Event>, e: Event, stack: string)
    requires NeverTrimmed(front + [e]) && Outcomes(Kept(front), stack) == Collapsed(Outcomes(front, stack))
    ensures Outcomes(Kept(front + [e]), stack) == Collapsed(Outcomes(front + [e], stack))
  {
    UntrimmedStep(front, e);
    CollapseStep(Kept(front), Outcomes(front, stack), e, stack);
    OutcomesMore(front, e, stack);
  }

  /** Until the first eviction a stack's stored outcomes are the collapse of all its outcomes. */
  lemma {:induction false} KeptIsTheCollapse(added: seq<Event>, stack: string)
    requires NeverTrimmed(added)
    ensures Outcomes(Kept(added), stack) == Collapsed(Outcomes(added, stack))
  {
    if added != [] {
      var front, e := added[..|added| - 1], added[|added| - 1];
      assert added == front + [e];
      UntrimmedStep(front, e);
      KeptIsTheCollapse(front, stack);
      CollapseMore(front, e, stack);
    }
  }

  /** So of single occurrences it holds one entry a run, and every occurrence is counted. */
  lemma {:induction false} KeptCountsEveryOccurrence(added: seq<Event>, stack: string)
    requires NeverTrimmed(added) && forall e :: e in added ==> Single(e.o)
    ensures Summarises(Outcomes(Kept(added), stack), Runs(Outcomes(added, stack)))
    ensures Total(Outcomes(Kept(added), stack)) == |Outcomes(added, stack)|
  {
    KeptIsTheCollapse(added, stack);
    OutcomesAreAdded(added, stack);
    CollapsedSummarisesRuns(Outcomes(added, stack));
    CollapseConservesIff(Outcomes(added, stack));
    SinglesTotal(Outcomes(added, stack));
  }

  lemma {:induction false} OutcomesAreAdded(added: seq<Event>, stack: string)
    requires forall e :: e in added ==> Single(e.o)
    ensures forall o :: o in Outcomes(added, stack) ==> Single(o)
  {
    if added != [] {
      OutcomesAreAdded(added[..|added| - 1], stack);
    }
  }

  lemma {:induction false} SinglesTotal(recs: seq<Outcome>)
    requires forall o :: o in recs ==> Single(o)
    ensures Total(recs) == |recs| && RepeatsAreSingle(recs)
  {
    if recs != [] {
      assert recs[|recs| - 1] in recs;
      SinglesTotal(recs[..|recs| - 1]);
    }
  }

  /** Replaying a history through the additions reproduces it. */
  lemma {:induction false} ReplayIsIdentity(events: seq<Event>)
    requires |events| <= MAX_HISTORY && forall s :: NoRepeats(Outcomes(events, s))
    ensures Kept(events) == events
  {
    if events != [] {
      var front, e := events[..|events| - 1], events[|events| - 1];
      assert events == front + [e];
      forall s
        ensures NoRepeats(Outcomes(front, s))
      {
        OutcomesSplit(front, [e], s);
        PrefixHasNoRepeats(Outcomes(front, s), Outcomes([e], s));
      }
      ReplayIsIdentity(front);
      NewestDoesNotRepeat(front, e);
    }
  }

  lemma PrefixHasNoRepeats(a: seq<Outcome>, b: seq<Outcome>)
    requires NoRepeats(a + b)
    ensures NoRepeats(a)
  {
    forall i | 0 < i < |a|
      ensures !Repeats(a[i], a[i - 1])
    {
      assert a[i] == (a + b)[i] && a[i - 1] == (a + b)[i - 1];
    }
  }

  lemma NewestDoesNotRepeat(front: seq<Event>, e: Event)
    requires NoRepeats(Outcomes(front + [e], e.o.stack))
    ensures Longer(front, e) == front + [e]
  {
    var i, s := LastOutcome(front, e.o.stack), e.o.stack;
    OutcomesSplit(front, [e], s);
    LastOutcomeEnds(front, s);
    if i >= 0 && Terminal(e.o.status) {
      var o := Outcomes(front, s);
      assert (o + [e.o])[|o|] == e.o && (o + [e.o])[|o| - 1] == Last(o);
      assert !Repeats(e.o, front[i].o);
    }
  }

  /** Loading a stored history gives it back. */
  lemma StoredHistoryReloads(added: seq<Event>)
    ensures Kept(Kept(added)) == Kept(added)
  {
    forall s
      ensures NoRepeats(Outcomes(Kept(added), s))
    {
      KeptIsCollapsed(added, s);
    }
    KeptIsCollapsed(added, "");
    ReplayIsIdentity(Kept(added));
  }

  lemma KeptMore(added: seq<Event>, e: Event)
    ensures Kept(added + [e]) == Trimmed(Longer(Kept(added), e))
  {
    assert (added + [e])[..|added|] == added;
  }

  /** The in-memory history and its file. */
  class Ring {
    var events: seq<Event>
    var file: seq<Event>
    ghost var added: seq<Event>

    ghost predicate Valid()
      reads this
    {
      events == Kept(added)
    }

    /** Loading replays the file, so one written before the collapse existed is folded down; one that a
        history wrote comes back as it was. */
    constructor (disk: seq<Event>)
      ensures Valid() && file == disk && events == Kept(disk)
    {
      events, file, added := [], disk, disk;
      new;
      Load(disk);
    }

    method Load(stored: seq<Event>)
      requires events == []
      modifies this`events
      ensures events == Kept(stored)
    {
      ghost var replayed: seq<Event> := [];
      for i := 0 to |stored|
        invariant replayed == stored[..i] && events == Kept(replayed)
      {
        KeptMore(replayed, stored[i]);
        var _ := AddLocked(stored[i]);
        replayed := replayed + [stored[i]];
        TakeMore(stored, i);
      }
      TakeAll(stored);
    }

    method LastOutcomeForStack(stack: string) returns (i: int)
      ensures i == LastOutcome(events, stack)
      ensures i >= 0 ==> Concludes(events[i], stack)
      ensures forall j :: i < j < |events| ==> !Concludes(events[j], stack)
    {
      LastOutcomeIsNewest(events, stack);
      i := |events| - 1;
      assert events[..i + 1] == events;
      while i >= 0
        invariant -1 <= i < |events|
        invariant LastOutcome(events, stack) == LastOutcome(events[..i + 1], stack)
      {
        assert events[..i + 1][..i] == events[..i];
        if IsOutcomeOf(events[i], stack) {
          return;
        }
        i := i - 1;
      }
    }

    method KeepOthers(from: nat, stack: string) returns (kept: seq<Event>)
      requires from <= |events|
      ensures kept == Others(events[from..], stack)
    {
      kept := [];
      for i := from to |events|
        invariant kept == Others(events[from..i], stack)
      {
        assert events[from..i + 1][..i - from] == events[from..i];
        if events[i].o.stack != stack {
          kept := kept + [events[i]];
        }
      }
      assert events[from..|events|] == events[from..];
    }

    method AddLocked(e: Event) returns (stored: Event)
      modifies this`events
      ensures events == Trimmed(Longer(old(events), e)) && stored == Stored(old(events), e)
    {
      stored := Append(e);
      if |events| > MAX_HISTORY {
        events := events[|events| - MAX_HISTORY..];
      }
    }

    method Append(e: Event) returns (stored: Event)
      modifies this`events
      ensures events == Longer(old(events), e) && stored == Stored(old(events), e)
    {
      stored := e;
      var i := LastOutcomeForStack(e.o.stack);
      if i >= 0 && RepeatsOf(e, events[i]) {
        stored := Event(Absorb(e.o, events[i].o), events[i].o.id);
        var others := KeepOthers(i + 1, e.o.stack);
        events := events[..i] + others;
      }
      events := events + [stored];
    }

    method Add(e: Event, saves: bool) returns (stored: Event)
      requires Valid()
      modifies this
      ensures Valid() && added == old(added) + [e]
      ensures events == Trimmed(Longer(old(events), e)) && stored == Stored(old(events), e)
      ensures file == if saves then events else old(file)
    {
      KeptMore(added, e);
      stored := AddLocked(e);
      added := added + [e];
      if saves {
        file := events;
      }
    }
  }
}
