/** What a restart costs one service of the health watchdog (internal/healthwatch/watcher.go, state.go) when
    the newest saves of its state did not arrive: what stays of the spacing and of the completeness. */
module HealthRestart {
  import opened Options
  import opened HealthPolicy

  const NEW_WATCH := Watch(NEW_SERVICE, [])

  /** Without the change that is being debounced: it lives in memory only. */
  function Resting(v: Service): Service {
    v.(pending := None)
  }

  function NextAll(cfg: Config, w: Watch, steps: seq<Step>): Watch {
    if steps == [] then w
    else Next(cfg, NextAll(cfg, w, steps[..|steps| - 1]), steps[|steps| - 1])
  }

  lemma {:induction false} NextAllSplits(cfg: Config, w: Watch, a: seq<Step>, b: seq<Step>)
    ensures NextAll(cfg, w, a + b) == NextAll(cfg, NextAll(cfg, w, a), b)
  {
    if b == [] {
      assert a + b == a;
    } else {
      NextAllSplits(cfg, w, a, b[..|b| - 1]);
      assert (a + b)[..|a + b| - 1] == a + b[..|b| - 1];
    }
  }

  lemma NextMore(cfg: Config, w: Watch, steps: seq<Step>, s: Step)
    ensures NextAll(cfg, w, steps + [s]) == Next(cfg, NextAll(cfg, w, steps), s)
  {
    assert (steps + [s])[..|steps|] == steps;
  }

  lemma PacedMore(clock: Option<int>, steps: seq<Step>, s: Step)
    requires PacedAfter(clock, steps) && PacedStep(ClockAfter(clock, steps), s)
    ensures PacedAfter(clock, steps + [s]) && ClockAfter(clock, steps + [s]) == ClockNext(ClockAfter(clock, steps), s)
  {
    assert (steps + [s])[..|steps|] == steps;
  }

  /** A service is where its history puts it, and its saved state where the saved part of that does. */
  ghost predicate FollowsFrom(cfg: Config, base: Watch, history: seq<Step>, saved: nat, now: Watch, onFile: Service) {
    && now == NextAll(cfg, base, history)
    && saved <= |history|
    && onFile == Resting(NextAll(cfg, base, history[..saved]).v)
  }

  /** What a process knows of a service after a restart over a file that missed the newest saves: the state
      of the steps that were saved; the alerts of all of them were sent. */
  ghost function AfterLostSave(cfg: Config, base: Watch, steps: seq<Step>, saved: nat): Watch
  {
    var kept := if saved <= |steps| then steps[..saved] else steps;
    Watch(Resting(NextAll(cfg, base, kept).v), NextAll(cfg, base, steps).sent)
  }

  /** A new process follows the service from its saved state, with or without the history so far. */
  lemma ReloadedFollows(cfg: Config, now: Watch, onFile: Service, base: Watch, history: seq<Step>, saved: nat)
    requires FollowsFrom(cfg, base, history, saved, now, onFile)
    ensures onFile == Resting(now.v) ==>
              FollowsFrom(cfg, base, history + [Restart], saved, Watch(onFile, now.sent), onFile)
    ensures FollowsFrom(cfg, AfterLostSave(cfg, base, history, saved), [], 0, Watch(onFile, now.sent), onFile)
  {
    NextMore(cfg, base, history, Restart);
    assert (history + [Restart])[..saved] == history[..saved];
  }

  // ---------- what a lost save costs ----------

  ghost predicate IsPrefix(a: seq<Sent>, b: seq<Sent>) {
    |a| <= |b| && b[..|a|] == a
  }

  lemma {:induction false} SentOnlyGrows(cfg: Config, w: Watch, steps: seq<Step>)
    ensures IsPrefix(w.sent, NextAll(cfg, w, steps).sent)
  {
    if steps != [] {
      SentOnlyGrows(cfg, w, steps[..|steps| - 1]);
    }
  }

  ghost predicate SameTimes(a: AlertRecord, b: AlertRecord) {
    a.unhealthyAt == b.unhealthyAt && a.recoveredAt == b.recoveredAt
  }

  /** Steps that send nothing leave the recorded delivery times. */
  lemma {:induction false} QuietKeepsTimes(cfg: Config, w: Watch, steps: seq<Step>)
    requires cfg.cooldown > 0 && NextAll(cfg, w, steps).sent == w.sent
    ensures SameTimes(RecordOf(NextAll(cfg, w, steps).v), RecordOf(w.v))
  {
    if steps != [] {
      var front, last := steps[..|steps| - 1], steps[|steps| - 1];
      SentOnlyGrows(cfg, w, front);
      SentOnlyGrows(cfg, NextAll(cfg, w, front), [last]);
      assert NextAll(cfg, w, front).sent == w.sent;
      QuietKeepsTimes(cfg, w, front);
      NextSends(cfg, NextAll(cfg, w, front), last);
    }
  }

  /** The alert that a step sends is not in the cooldown of the recorded delivery. */
  lemma AlertIsCooled(cfg: Config, w: Watch, s: Step)
    requires cfg.cooldown > 0 && Next(cfg, w, s).sent != w.sent
    ensures var n := Next(cfg, w, s).sent;
      && !s.Restart? && |n| == |w.sent| + 1 && n[..|w.sent|] == w.sent
      && var x := n[|w.sent|];
         x.at == s.now && x.alert.to in {Unhealthy, Healthy}
         && (LastOf(RecordOf(w.v), x.alert.to).Some? ==> x.at - LastOf(RecordOf(w.v), x.alert.to).value >= cfg.cooldown)
  {
    NextSends(cfg, w, s);
  }

  /** Since the last save, no alert of the direction was sent within the cooldown before the given time. */
  ghost predicate CooledSince(cfg: Config, sent: seq<Sent>, saved: nat, to: Status, now: int) {
    forall i :: saved <= i < |sent| && sent[i].alert.to == to ==> now - sent[i].at >= cfg.cooldown
  }

  lemma SpacedMoreIff(cfg: Config, sent: seq<Sent>, saved: seq<Sent>, x: Sent)
    requires cfg.cooldown > 0 && Spaced(cfg, sent) && IsPrefix(saved, sent)
    requires LastSent(saved, x.alert.to).Some? ==> x.at - LastSent(saved, x.alert.to).value >= cfg.cooldown
    ensures Spaced(cfg, sent + [x]) <==> CooledSince(cfg, sent, |saved|, x.alert.to, x.at)
  {
    var more := sent + [x];
    assert Spaced(cfg, saved) by {
      assert forall i :: 0 <= i < |saved| ==> saved[i] == sent[i];
    }
    forall i | 0 <= i < |saved| && sent[i].alert.to == x.alert.to
      ensures x.at - sent[i].at >= cfg.cooldown
    {
      assert sent[i] == saved[i];
      LastSentIsNewest(cfg, saved, x.alert.to, i);
    }
    if Spaced(cfg, more) {
      forall i | |saved| <= i < |sent| && sent[i].alert.to == x.alert.to
        ensures x.at - sent[i].at >= cfg.cooldown
      {
        assert more[i] == sent[i] && more[|sent|] == x;
      }
    }
  }

  /** The saved part of a history knows what was sent until then. */
  lemma SavedPartTells(cfg: Config, steps: seq<Step>, saved: nat)
    requires cfg.cooldown > 0 && saved <= |steps|
    ensures var before, w := NextAll(cfg, NEW_WATCH, steps[..saved]), NextAll(cfg, NEW_WATCH, steps);
      IsPrefix(before.sent, w.sent) && Spaced(cfg, w.sent) && RecordTells(before)
  {
    var kept, rest := steps[..saved], steps[saved..];
    assert steps == kept + rest;
    NextAllSplits(cfg, NEW_WATCH, kept, rest);
    SentOnlyGrows(cfg, NextAll(cfg, NEW_WATCH, kept), rest);
    SpacingContinues(cfg, NEW_WATCH, kept);
    SpacingContinues(cfg, NEW_WATCH, steps);
  }

  /** The spacing of alerts survives a restart that lost a save exactly when no alert of the direction was
      sent within the cooldown since the last save that arrived: the next alert of the service comes a
      cooldown after all the saved ones, and whatever was sent later is forgotten. */
  lemma LostSaveSpacingIff(cfg: Config, steps: seq<Step>, saved: nat, quiet: seq<Step>, s: Step)
    requires cfg.cooldown > 0 && saved <= |steps|
    requires var r := AfterLostSave(cfg, NEW_WATCH, steps, saved);
      NextAll(cfg, r, quiet).sent == r.sent && Next(cfg, NextAll(cfg, r, quiet), s).sent != r.sent
    ensures var before, sent := NextAll(cfg, NEW_WATCH, steps[..saved]).sent, NextAll(cfg, NEW_WATCH, steps).sent;
      var after := Next(cfg, NextAll(cfg, AfterLostSave(cfg, NEW_WATCH, steps, saved), quiet), s).sent;
      && |after| == |sent| + 1 && after[..|sent|] == sent
      && (Spaced(cfg, after) <==> CooledSince(cfg, sent, |before|, after[|sent|].alert.to, after[|sent|].at))
  {
    var before, w := NextAll(cfg, NEW_WATCH, steps[..saved]), NextAll(cfg, NEW_WATCH, steps);
    var r := AfterLostSave(cfg, NEW_WATCH, steps, saved);
    var now := NextAll(cfg, r, quiet);
    SavedPartTells(cfg, steps, saved);
    QuietKeepsTimes(cfg, r, quiet);
    AlertIsCooled(cfg, now, s);
    var after := Next(cfg, now, s).sent;
    assert after == w.sent + [after[|w.sent|]];
    SpacedMoreIff(cfg, w.sent, before.sent, after[|w.sent|]);
  }

  // ---------- from any start ----------

  /** What a process can start from: nothing is being debounced, and the phases and delivery times lie in
      the past. A service that nothing is known of is one, and so is any that a restart goes back to. */
  ghost predicate StartsSound(cfg: Config, base: Watch, clock: Option<int>) {
    base.v.pending.None? && TimelineOk(cfg, base.v, clock) && Sane(base.v, clock)
  }

  /** Paced steps do not go back in time. */
  lemma {:induction false} TimelineContinues(cfg: Config, w: Watch, clock: Option<int>, steps: seq<Step>)
    requires TimelineOk(cfg, w.v, clock) && cfg.debounce >= 1 && PacedAfter(clock, steps)
    ensures TimelineOk(cfg, NextAll(cfg, w, steps).v, ClockAfter(clock, steps))
  {
    if steps != [] {
      var front, last := steps[..|steps| - 1], steps[|steps| - 1];
      TimelineContinues(cfg, w, clock, front);
      NextKeepsTimeline(cfg, NextAll(cfg, w, front), last, ClockAfter(clock, front));
    }
  }

  lemma {:induction false} SpacingContinues(cfg: Config, w: Watch, steps: seq<Step>)
    requires cfg.cooldown > 0 && Spaced(cfg, w.sent) && RecordTells(w)
    ensures Spaced(cfg, NextAll(cfg, w, steps).sent) && RecordTells(NextAll(cfg, w, steps))
  {
    if steps != [] {
      var front, last := steps[..|steps| - 1], steps[|steps| - 1];
      SpacingContinues(cfg, w, front);
      NextStaysSpaced(cfg, NextAll(cfg, w, front), last);
    }
  }

  lemma {:induction false} AccountContinues(cfg: Config, w: Watch, clock: Option<int>, steps: seq<Step>)
    requires cfg.alerter && cfg.cooldown > 0 && Sane(w.v, clock) && PacedAfter(clock, steps)
    ensures var n := NextAll(cfg, w, steps);
      Keeps(w, n, ClockAfter(clock, steps)) && (Answers(w) && ToldOrOwed(w) ==> ToldOrOwed(n))
  {
    if steps != [] {
      var front, last := steps[..|steps| - 1], steps[|steps| - 1];
      AccountContinues(cfg, w, clock, front);
      NextKeeps(cfg, NextAll(cfg, w, front), last, ClockAfter(clock, front));
    }
  }

  lemma {:induction false} ClockOnlyGrows(clock: Option<int>, a: seq<Step>, b: seq<Step>)
    requires PacedAfter(clock, a + b)
    ensures PacedAfter(clock, a)
    ensures ClockAfter(clock, a).Some? ==>
              ClockAfter(clock, a + b).Some? && ClockAfter(clock, a).value <= ClockAfter(clock, a + b).value
  {
    if b == [] {
      assert a + b == a;
    } else {
      assert (a + b)[..|a + b| - 1] == a + b[..|b| - 1];
      ClockOnlyGrows(clock, a, b[..|b| - 1]);
    }
  }

  /** Whatever a restart goes back to is a sound start at the present time. */
  lemma LostSaveIsSound(cfg: Config, base: Watch, clock: Option<int>, steps: seq<Step>, saved: nat)
    requires cfg.alerter && cfg.cooldown > 0 && cfg.debounce >= 1 && saved <= |steps|
    requires StartsSound(cfg, base, clock) && PacedAfter(clock, steps)
    ensures StartsSound(cfg, AfterLostSave(cfg, base, steps, saved), ClockAfter(clock, steps))
  {
    var kept := steps[..saved];
    assert steps == kept + steps[saved..];
    ClockOnlyGrows(clock, kept, steps[saved..]);
    TimelineContinues(cfg, base, clock, kept);
    AccountContinues(cfg, base, clock, kept);
  }

  // ---------- when an accepted failure stays told or owed ----------

  /** The record says of a failure that it is the newest thing told, and it is not; but the next failure
      cannot be accepted before that record's cooldown is over, so that it will be told. */
  ghost predicate Relearns(cfg: Config, v: Service, clock: Option<int>) {
    && !AcceptedUnhealthy(v) && clock.Some?
    && var told := RecordOf(v).unhealthyAt;
       told.Some? && clock.value + cfg.debounce >= told.value + cfg.cooldown
  }

  ghost predicate StaysTold(cfg: Config, w: Watch, clock: Option<int>) {
    ToldOrOwed(w) && (Answers(w) || Relearns(cfg, w.v, clock))
  }

  ghost predicate AlwaysTold(cfg: Config, w: Watch, clock: Option<int>) {
    forall more :: PacedAfter(clock, more) ==> ToldOrOwed(NextAll(cfg, w, more))
  }

  /** No failure has been accepted since the start at the time `from`, where the record said `told`, and
      one that is being debounced began after it. */
  ghost predicate Waiting(cfg: Config, v: Service, told: int, from: int, now: Option<int>) {
    && Sane(v, now) && !AcceptedUnhealthy(v) && RecordOf(v).unhealthyAt == Some(told)
    && now.Some? && from <= now.value
    && (v.pending.Some? && v.pending.value.status.Unhealthy? ==> v.pending.value.count <= now.value - from)
  }

  lemma WaitingStep(cfg: Config, w: Watch, s: Step, told: int, from: int, now: Option<int>)
    requires cfg.alerter && cfg.cooldown > 0 && cfg.debounce >= 1 && from + cfg.debounce >= told + cfg.cooldown
    requires Waiting(cfg, w.v, told, from, now) && PacedStep(now, s)
    ensures var n := Next(cfg, w, s);
      Waiting(cfg, n.v, told, from, ClockNext(now, s)) || (Answers(n) && ToldOrOwed(n))
  {
    NextKeeps(cfg, w, s, now);
  }

  lemma {:induction false} WaitingContinues(cfg: Config, w: Watch, steps: seq<Step>, told: int, from: int)
    requires cfg.alerter && cfg.cooldown > 0 && cfg.debounce >= 1 && from + cfg.debounce >= told + cfg.cooldown
    requires Waiting(cfg, w.v, told, from, Some(from)) && PacedAfter(Some(from), steps)
    ensures var n := NextAll(cfg, w, steps);
      && Sane(n.v, ClockAfter(Some(from), steps))
      && (Waiting(cfg, n.v, told, from, ClockAfter(Some(from), steps)) || (Answers(n) && ToldOrOwed(n)))
  {
    if steps != [] {
      var front, last := steps[..|steps| - 1], steps[|steps| - 1];
      var before, now := NextAll(cfg, w, front), ClockAfter(Some(from), front);
      WaitingContinues(cfg, w, front, told, from);
      NextKeeps(cfg, before, last, now);
      if Waiting(cfg, before.v, told, from, now) {
        WaitingStep(cfg, before, last, told, from, now);
      }
    }
  }

  /** The service fails, observation after observation. */
  function Failing(from: int, n: nat): seq<Step> {
    if n == 0 then [] else Failing(from, n - 1) + [Obs(Unhealthy, from + n, None)]
  }

  lemma {:induction false} FailingIsPaced(from: int, n: nat)
    ensures PacedAfter(Some(from), Failing(from, n)) && ClockAfter(Some(from), Failing(from, n)) == Some(from + n)
  {
    if n > 0 {
      FailingIsPaced(from, n - 1);
      PacedMore(Some(from), Failing(from, n - 1), Obs(Unhealthy, from + n, None));
    }
  }

  /** The watch while n failures are being debounced. */
  function Pended(w: Watch, from: int, n: nat): Watch {
    w.(v := w.v.(pending := if n == 0 then None else Some(PendingChange(Unhealthy, n, from + 1))))
  }

  lemma {:induction false} FailingPends(cfg: Config, w: Watch, from: int, n: nat)
    requires w.v.pending.None? && w.v.phases != [] && !w.v.phases[0].status.Unhealthy? && n < cfg.debounce
    ensures NextAll(cfg, w, Failing(from, n)) == Pended(w, from, n)
  {
    if n > 0 {
      var front, last := Failing(from, n - 1), Obs(Unhealthy, from + n, None);
      FailingPends(cfg, w, from, n - 1);
      PendsOneMore(cfg, w, from, n, from + n);
      NextMore(cfg, w, front, last);
      assert Failing(from, n) == front + [last];
    }
  }

  lemma PendsOneMore(cfg: Config, w: Watch, from: int, n: nat, now: int)
    requires w.v.phases != [] && !w.v.phases[0].status.Unhealthy? && 1 <= n < cfg.debounce
    requires n == 1 ==> now == from + 1
    ensures Next(cfg, Pended(w, from, n - 1), Obs(Unhealthy, now, None)) == Pended(w, from, n)
  {
    var v := Pended(w, from, n - 1).v;
    assert Counted(v, Unhealthy, now) == PendingChange(Unhealthy, n, from + 1);
  }

  /** An accepted failure that the newest alert contradicts is not owed after the end of a snapshot. */
  lemma ContradictionIsForgotten(cfg: Config, w: Watch, now: int)
    requires cfg.alerter && cfg.cooldown > 0 && !Answers(w) && AcceptedUnhealthy(w.v)
    ensures !ToldOrOwed(Next(cfg, w, EndOfSnapshot(now, None)))
  {
  }

  /** n + 1 failures, and the end of the last snapshot. */
  function FailingUntilEnd(from: int, n: nat): seq<Step> {
    Failing(from, n) + [Obs(Unhealthy, from + n + 1, None)] + [EndOfSnapshot(from + n + 1, None)]
  }

  lemma SuppressedIsForgotten(cfg: Config, w: Watch, from: int, n: nat, obs: Step, end: Step)
    requires cfg.alerter && cfg.cooldown > 0 && cfg.debounce == n + 1 && |w.v.phases| >= 2 && !AcceptedUnhealthy(w.v)
    requires obs == Obs(Unhealthy, from + n + 1, None) && end == EndOfSnapshot(from + n + 1, None)
    requires var told := RecordOf(w.v).unhealthyAt; told.Some? && obs.now < told.value + cfg.cooldown
    requires !Answers(w)
    ensures !ToldOrOwed(Next(cfg, Next(cfg, Pended(w, from, n), obs), end))
  {
    ContradictionIsForgotten(cfg, Next(cfg, Pended(w, from, n), obs), end.now);
  }

  /** A failure that is accepted within the cooldown of a record that is out of date is suppressed, and the
      end of the snapshot takes it for told. */
  lemma FailureIsForgotten(cfg: Config, w: Watch, from: int, n: nat)
    requires cfg.alerter && cfg.cooldown > 0 && cfg.debounce == n + 1 && w.v.pending.None?
    requires Sane(w.v, Some(from)) && !Answers(w) && !AcceptedUnhealthy(w.v)
    requires from + cfg.debounce < RecordOf(w.v).unhealthyAt.value + cfg.cooldown
    ensures PacedAfter(Some(from), FailingUntilEnd(from, n))
    ensures !ToldOrOwed(NextAll(cfg, w, FailingUntilEnd(from, n)))
  {
    var obs, end := Obs(Unhealthy, from + n + 1, None), EndOfSnapshot(from + n + 1, None);
    FailingIsPaced(from, n);
    PacedMore(Some(from), Failing(from, n), obs);
    PacedMore(Some(from), Failing(from, n) + [obs], end);
    FailingPends(cfg, w, from, n);
    SuppressedIsForgotten(cfg, w, from, n, obs, end);
    NextMore(cfg, w, Failing(from, n), obs);
    NextMore(cfg, w, Failing(from, n) + [obs], end);
  }

  /** Without the condition, some paced observations leave an accepted failure neither told nor owed. */
  lemma SomethingIsForgotten(cfg: Config, w: Watch, clock: Option<int>) returns (more: seq<Step>)
    requires cfg.alerter && cfg.cooldown > 0 && cfg.debounce >= 1 && w.v.pending.None? && Sane(w.v, clock)
    requires !StaysTold(cfg, w, clock)
    ensures PacedAfter(clock, more) && !ToldOrOwed(NextAll(cfg, w, more))
  {
    if !ToldOrOwed(w) {
      more := [];
    } else if AcceptedUnhealthy(w.v) {
      var end := EndOfSnapshot(clock.value, None);
      more := [] + [end];
      ContradictionIsForgotten(cfg, w, clock.value);
      NextMore(cfg, w, [], end);
      PacedMore(clock, [], end);
    } else {
      more := FailingUntilEnd(clock.value, cfg.debounce - 1);
      FailureIsForgotten(cfg, w, clock.value, cfg.debounce - 1);
    }
  }

  /** From any state that a restart can go back to: whatever paced observations follow, an accepted failure
      is what the newest delivered alert says, or owed, exactly when that is so at the start and the record
      is right about the newest alert, or else no failure can be accepted before the cooldown of the one on
      record is over. */
  lemma StaysToldIff(cfg: Config, w: Watch, clock: Option<int>)
    requires cfg.alerter && cfg.cooldown > 0 && cfg.debounce >= 1 && w.v.pending.None? && Sane(w.v, clock)
    ensures AlwaysTold(cfg, w, clock) <==> StaysTold(cfg, w, clock)
  {
    if StaysTold(cfg, w, clock) {
      forall more | PacedAfter(clock, more)
        ensures ToldOrOwed(NextAll(cfg, w, more))
      {
        AccountContinues(cfg, w, clock, more);
        if !Answers(w) {
          WaitingContinues(cfg, w, more, RecordOf(w.v).unhealthyAt.value, clock.value);
        }
      }
    }
    if !StaysTold(cfg, w, clock) {
      var more := SomethingIsForgotten(cfg, w, clock);
    }
  }

  /** A failure is told and saved, its recovery is told but not saved. */
  const RECOVERY_NOT_SAVED: seq<Step> := [Obs(Healthy, 0, None), Obs(Unhealthy, 1, None), Obs(Healthy, 20, None)]

  /** After the restart the service fails again, and the snapshot ends. */
  const FAILS_AGAIN: seq<Step> := [Obs(Unhealthy, 30, None), EndOfSnapshot(30, None)]

  lemma ThreeSteps(cfg: Config, w: Watch, a: Step, b: Step, c: Step)
    ensures NextAll(cfg, w, [a, b]) == Next(cfg, Next(cfg, w, a), b)
    ensures NextAll(cfg, w, [a, b, c]) == Next(cfg, Next(cfg, Next(cfg, w, a), b), c)
  {
    NextMore(cfg, w, [a], b);
    NextMore(cfg, w, [a, b], c);
    assert [a] + [b] == [a, b] && [a, b] + [c] == [a, b, c];
  }

  /** The state file says that the failure was told, and nobody is ever told of it. */
  lemma LostRecoveryHidesAFailure()
    ensures var cfg := Config(true, 1, 10, 0);
      var w := NextAll(cfg, AfterLostSave(cfg, NEW_WATCH, RECOVERY_NOT_SAVED, 2), FAILS_AGAIN);
      AcceptedUnhealthy(w.v) && !LastSentUnhealthy(w.sent) && !RecordOf(w.v).suppressed
  {
    var cfg, steps := Config(true, 1, 10, 0), RECOVERY_NOT_SAVED;
    assert steps[..2] == [steps[0], steps[1]] && steps == [steps[0], steps[1], steps[2]];
    ThreeSteps(cfg, NEW_WATCH, steps[0], steps[1], steps[2]);
    var r := AfterLostSave(cfg, NEW_WATCH, steps, 2);
    assert FAILS_AGAIN == [FAILS_AGAIN[0], FAILS_AGAIN[1]];
    ThreeSteps(cfg, r, FAILS_AGAIN[0], FAILS_AGAIN[1], Restart);
  }
}
