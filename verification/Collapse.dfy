/** Repeated outcomes collapse into one (internal/events/span.go, internal/events/events.go and
    collapseRuns in internal/audit/log.go). */
module Collapse {
  import opened Options
  import opened Sequences

  datatype Status = Deploying | Skipped | Queued | Blocked | Held
                  | Success | Failed | RolledBack | RolledBackUnhealthy | Healed | HealExhausted | Removed

  /** How many occurrences a collapsed run stands for, when it started, when it last recurred. */
  datatype Span = Span(count: nat, firstSeen: Option<int>, latest: int)

  /** A deploy event or an audit record, with what the two stores keep; detail is the rest. */
  datatype Outcome = Outcome(stack: string, status: Status, error: string, id: nat, span: Span, detail: string)

  predicate Terminal(s: Status) {
    !(s.Deploying? || s.Skipped? || s.Queued? || s.Blocked? || s.Held?)
  }

  predicate Repeatable(s: Status) {
    s.Failed? || s.RolledBack? || s.RolledBackUnhealthy? || s.HealExhausted?
  }

  function Occurrences(s: Span): nat {
    if s.count > 1 then s.count else 1
  }

  function Start(s: Span): int {
    if s.firstSeen.Some? then s.firstSeen.value else s.latest
  }

  function Earlier(a: int, b: int): int {
    if b < a then b else a
  }

  function Later(a: int, b: int): int {
    if b > a then b else a
  }

  /** Folds the single occurrence s stands for into the standing run prev. */
  function AbsorbInto(s: Span, prev: Span): Span {
    Span(Occurrences(prev) + 1, Some(Earlier(Start(prev), s.latest)), Later(prev.latest, s.latest))
  }

  /** The same standing outcome within one stack's list. */
  predicate Repeats(e: Outcome, prev: Outcome) {
    Repeatable(e.status) && e.status == prev.status && e.error == prev.error
  }

  function Absorb(e: Outcome, prev: Outcome): Outcome {
    e.(span := AbsorbInto(e.span, prev.span))
  }

  /** One more outcome at the end of a list that is collapsed so far. */
  function Push(out: seq<Outcome>, e: Outcome): seq<Outcome> {
    if out != [] && Repeats(e, out[|out| - 1])
    then out[..|out| - 1] + [Absorb(e, out[|out| - 1])]
    else out + [e]
  }

  function Collapsed(recs: seq<Outcome>): seq<Outcome> {
    if recs == [] then [] else Push(Collapsed(recs[..|recs| - 1]), recs[|recs| - 1])
  }

  method CollapseRuns(recs: seq<Outcome>) returns (out: seq<Outcome>)
    ensures out == Collapsed(recs)
  {
    out := [];
    for i := 0 to |recs|
      invariant out == Collapsed(recs[..i])
    {
      assert recs[..i + 1][..i] == recs[..i];
      var n := |out|;
      if n > 0 && Repeats(recs[i], out[n - 1]) {
        out := out[n - 1 := Absorb(recs[i], out[n - 1])];
        continue;
      }
      out := out + [recs[i]];
    }
    assert recs[..|recs|] == recs;
  }

  ghost predicate NoRepeats(recs: seq<Outcome>) {
    forall i :: 0 < i < |recs| ==> !Repeats(recs[i], recs[i - 1])
  }

  lemma PushHasNoRepeats(out: seq<Outcome>, e: Outcome)
    requires NoRepeats(out)
    ensures NoRepeats(Push(out, e))
  {
    var more := Push(out, e);
    forall i | 0 < i < |more|
      ensures !Repeats(more[i], more[i - 1])
    {
      if i < |out| {
        assert !Repeats(out[i], out[i - 1]);
      }
    }
  }

  /** The newest entry of the collapsed list is the newest outcome, up to its span; so a later outcome
      repeats the one iff it repeats the other. */
  lemma {:induction false} CollapsedHasNoRepeats(recs: seq<Outcome>)
    ensures NoRepeats(Collapsed(recs)) && (Collapsed(recs) == [] <==> recs == [])
    ensures recs != [] ==> var out := Collapsed(recs);
            out[|out| - 1].(span := recs[|recs| - 1].span) == recs[|recs| - 1]
  {
    if recs != [] {
      CollapsedHasNoRepeats(recs[..|recs| - 1]);
      PushHasNoRepeats(Collapsed(recs[..|recs| - 1]), recs[|recs| - 1]);
    }
  }

  lemma CollapsedMore(recs: seq<Outcome>, e: Outcome)
    ensures Collapsed(recs + [e]) == Push(Collapsed(recs), e)
  {
    assert (recs + [e])[..|recs|] == recs;
  }

  /** A newcomer is absorbed exactly when it tells again, with the same error, that a deploy failed, was
      rolled back, or that healing was given up; then it is one occurrence more of the newest entry, whose
      times it widens. */
  lemma {:induction false} PushAbsorbsIff(recs: seq<Outcome>, e: Outcome)
    ensures var out, more := Collapsed(recs), Collapsed(recs + [e]);
      if recs != [] && e.status == recs[|recs| - 1].status && e.error == recs[|recs| - 1].error
         && e.status in {Failed, RolledBack, RolledBackUnhealthy, HealExhausted} then
        && |more| == |out| && |out| >= 1 && more[..|out| - 1] == out[..|out| - 1]
        && Absorbs(out[|out| - 1].span, e, more[|out| - 1])
      else more == out + [e]
  {
    CollapsedMore(recs, e);
    CollapsedHasNoRepeats(recs);
    if recs != [] {
      var last := Last(Collapsed(recs));
      assert last.status == recs[|recs| - 1].status && last.error == recs[|recs| - 1].error;
      AbsorbIsRaw(e, last);
    }
  }

  ghost predicate Absorbs(prev: Span, e: Outcome, stored: Outcome) {
    var first := if prev.firstSeen.Some? then prev.firstSeen.value else prev.latest;
    && stored == e.(span := stored.span)
    && stored.span.count == (if prev.count > 1 then prev.count else 1) + 1
    && stored.span.firstSeen == Some(if e.span.latest < first then e.span.latest else first)
    && stored.span.latest == (if e.span.latest > prev.latest then e.span.latest else prev.latest)
  }

  lemma AbsorbIsRaw(e: Outcome, prev: Outcome)
    ensures Absorbs(prev.span, e, Absorb(e, prev))
    ensures Repeats(e, prev) <==> e.status == prev.status && e.error == prev.error
                                    && e.status in {Failed, RolledBack, RolledBackUnhealthy, HealExhausted}
  {
  }

  /** Collapsing what is collapsed changes nothing. */
  lemma {:induction false} CollapsedStays(recs: seq<Outcome>)
    requires NoRepeats(recs)
    ensures Collapsed(recs) == recs
  {
    if recs != [] {
      var front := recs[..|recs| - 1];
      CollapsedStays(front);
      assert recs == front + [recs[|recs| - 1]];
    }
  }

  lemma CollapseIsIdempotent(recs: seq<Outcome>)
    ensures Collapsed(Collapsed(recs)) == Collapsed(recs)
  {
    CollapsedHasNoRepeats(recs);
    CollapsedStays(Collapsed(recs));
  }

  // ---------- what a collapsed list says: its maximal runs ----------

  /** A run: each outcome repeats the one before. */
  ghost predicate IsRun(run: seq<Outcome>) {
    run != [] && forall i :: 0 < i < |run| ==> Repeats(run[i], run[i - 1])
  }

  function RunPush(runs: seq<seq<Outcome>>, e: Outcome): seq<seq<Outcome>> {
    if runs != [] && Last(runs) != [] && Repeats(e, Last(Last(runs)))
    then runs[..|runs| - 1] + [Last(runs) + [e]]
    else runs + [[e]]
  }

  /** The outcomes cut into runs of repeats. */
  function Runs(recs: seq<Outcome>): seq<seq<Outcome>> {
    if recs == [] then [] else RunPush(Runs(recs[..|recs| - 1]), recs[|recs| - 1])
  }

  function Flat(runs: seq<seq<Outcome>>): seq<Outcome> {
    if runs == [] then [] else Flat(runs[..|runs| - 1]) + Last(runs)
  }

  /** Runs that cannot be longer: the first of each does not repeat the end of the one before. */
  ghost predicate MaximalRuns(runs: seq<seq<Outcome>>) {
    runs != [] ==>
      && MaximalRuns(runs[..|runs| - 1]) && IsRun(Last(runs))
      && (|runs| > 1 ==> runs[|runs| - 2] != [] && !Repeats(Last(runs)[0], Last(runs[|runs| - 2])))
  }

  lemma RunPushIsMaximal(runs: seq<seq<Outcome>>, e: Outcome)
    requires MaximalRuns(runs)
    ensures var more := RunPush(runs, e);
      MaximalRuns(more) && Flat(more) == Flat(runs) + [e] && more != [] && Last(more) != [] && Last(Last(more)) == e
  {
    var more := RunPush(runs, e);
    if |more| == |runs| {
      assert more[..|more| - 1] == runs[..|runs| - 1];
    } else {
      assert more[..|more| - 1] == runs;
    }
  }

  lemma {:induction false} RunsAreMaximal(recs: seq<Outcome>)
    ensures Flat(Runs(recs)) == recs && MaximalRuns(Runs(recs))
    ensures recs != [] ==> Runs(recs) != [] && Last(Runs(recs)) != [] && Last(Last(Runs(recs))) == recs[|recs| - 1]
  {
    if recs != [] {
      var front, e := recs[..|recs| - 1], recs[|recs| - 1];
      RunsAreMaximal(front);
      RunPushIsMaximal(Runs(front), e);
      assert recs == front + [e];
    }
  }

  function Oldest(run: seq<Outcome>): int
    requires run != []
  {
    if |run| == 1 then run[0].span.latest else Earlier(Oldest(run[..|run| - 1]), Last(run).span.latest)
  }

  function Newest(run: seq<Outcome>): int
    requires run != []
  {
    if |run| == 1 then run[0].span.latest else Later(Newest(run[..|run| - 1]), Last(run).span.latest)
  }

  /** A run's entry: its last outcome, with the run's length and its earliest and latest times. */
  function Summary(run: seq<Outcome>): Outcome
    requires run != []
  {
    if |run| == 1 then run[0] else Last(run).(span := Span(|run|, Some(Oldest(run)), Newest(run)))
  }

  predicate Single(e: Outcome) {
    e.span.count <= 1 && e.span.firstSeen.None?
  }

  lemma GrowingRun(run: seq<Outcome>, e: Outcome)
    requires run != [] && Single(e) && (|run| == 1 ==> Single(run[0]))
    ensures Absorb(e, Summary(run)) == Summary(run + [e])
  {
    var more := run + [e];
    assert more[..|more| - 1] == run;
    assert Oldest(more) == Earlier(Oldest(run), e.span.latest) && Newest(more) == Later(Newest(run), e.span.latest);
  }

  /** The collapsed list is the list of the runs' entries. */
  ghost predicate Summarises(out: seq<Outcome>, runs: seq<seq<Outcome>>) {
    |out| == |runs| && forall k :: 0 <= k < |runs| ==> runs[k] != [] && out[k] == Summary(runs[k])
  }

  lemma PushSummarises(out: seq<Outcome>, runs: seq<seq<Outcome>>, e: Outcome)
    requires Summarises(out, runs) && Single(e)
    requires runs != [] && |Last(runs)| == 1 ==> Single(Last(runs)[0])
    ensures Summarises(Push(out, e), RunPush(runs, e))
  {
    if runs != [] {
      var run := Last(runs);
      assert out[|out| - 1] == Summary(run);
      GrowingRun(run, e);
    }
  }

  lemma {:induction false} RunsHoldTheirOutcomes(runs: seq<seq<Outcome>>, recs: seq<Outcome>)
    requires Flat(runs) == recs
    ensures forall k, i :: 0 <= k < |runs| && 0 <= i < |runs[k]| ==> runs[k][i] in recs
  {
    if runs != [] {
      var front := runs[..|runs| - 1];
      RunsHoldTheirOutcomes(front, Flat(front));
      forall k, i | 0 <= k < |runs| && 0 <= i < |runs[k]|
        ensures runs[k][i] in recs
      {
        if k < |front| {
          assert front[k][i] in Flat(front);
        }
      }
    }
  }

  /** Of single occurrences, the collapsed list holds exactly one entry for each maximal run, with the
      run's length as its count and the run's earliest and latest times. */
  lemma {:induction false} CollapsedSummarisesRuns(recs: seq<Outcome>)
    requires forall e :: e in recs ==> Single(e)
    ensures Summarises(Collapsed(recs), Runs(recs)) && MaximalRuns(Runs(recs)) && Flat(Runs(recs)) == recs
  {
    RunsAreMaximal(recs);
    if recs != [] {
      var front, e := recs[..|recs| - 1], recs[|recs| - 1];
      RunsAreMaximal(front);
      CollapsedSummarisesRuns(front);
      RunsHoldTheirOutcomes(Runs(front), front);
      if front != [] {
        assert Last(Runs(front))[0] in front;
      }
      PushSummarises(Collapsed(front), Runs(front), e);
    }
  }

  /** The times of a run bound it, whatever the order its occurrences came in. */
  lemma {:induction false} RunBounds(run: seq<Outcome>)
    requires run != []
    ensures forall i :: 0 <= i < |run| ==> Oldest(run) <= run[i].span.latest <= Newest(run)
    ensures (exists i :: 0 <= i < |run| && run[i].span.latest == Oldest(run))
            && (exists i :: 0 <= i < |run| && run[i].span.latest == Newest(run))
  {
    if |run| == 1 {
      assert run[0].span.latest == Oldest(run) == Newest(run);
    } else {
      var front := run[..|run| - 1];
      RunBounds(front);
      var a :| 0 <= a < |front| && front[a].span.latest == Oldest(front);
      var b :| 0 <= b < |front| && front[b].span.latest == Newest(front);
      assert run[a] == front[a] && run[b] == front[b];
      assert Oldest(run) == run[|run| - 1].span.latest || Oldest(run) == run[a].span.latest;
      assert Newest(run) == run[|run| - 1].span.latest || Newest(run) == run[b].span.latest;
    }
  }

  // ---------- conservation ----------

  function Total(recs: seq<Outcome>): nat {
    if recs == [] then 0 else Total(recs[..|recs| - 1]) + Occurrences(recs[|recs| - 1].span)
  }

  /** Every outcome that repeats its predecessor stands for a single occurrence. */
  predicate RepeatsAreSingle(recs: seq<Outcome>) {
    recs == []
    || (RepeatsAreSingle(recs[..|recs| - 1])
        && (|recs| > 1 && Repeats(recs[|recs| - 1], recs[|recs| - 2]) ==> Occurrences(recs[|recs| - 1].span) == 1))
  }

  /** A collapse never invents an occurrence, and loses none exactly when the absorbed outcomes are
      single: absorbing adds one whatever the newcomer stands for. */
  lemma {:induction false} CollapseConservesIff(recs: seq<Outcome>)
    ensures Total(Collapsed(recs)) <= Total(recs)
    ensures Total(Collapsed(recs)) == Total(recs) <==> RepeatsAreSingle(recs)
  {
    if recs != [] {
      var front, e := recs[..|recs| - 1], recs[|recs| - 1];
      CollapseConservesIff(front);
      CollapsedHasNoRepeats(front);
    }
  }
}
