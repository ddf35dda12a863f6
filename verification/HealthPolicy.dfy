/** The health watchdog's policy for one service (internal/healthwatch/watcher.go): debounce, the
    per-direction alert cooldown, and the catch-up of alerts that a cooldown suppressed. */
module HealthPolicy {
  import opened Options

  datatype Status = Healthy | Unhealthy | Starting | Stopped | Unknown

  datatype Phase = Phase(status: Status, since: int, commit: string)
  datatype PendingChange = PendingChange(status: Status, count: nat, since: int)
  datatype AlertRecord = AlertRecord(unhealthyAt: Option<int>, recoveredAt: Option<int>, suppressed: bool)
  datatype DeployRecord = DeployRecord(commit: string, at: int)

  /** What the watcher knows of one service: its phases, newest first, the change it is debouncing
      (in memory only), and its alert record. */
  datatype Service = Service(phases: seq<Phase>, pending: Option<PendingChange>, rec: Option<AlertRecord>)

  datatype Alert = Alert(from: Status, to: Status, since: int, prevDuration: int, commit: string, correlated: bool)

  /** Seconds; a cooldown of 0 or less is disabled, a window bounds the deploy correlation. */
  datatype Config = Config(alerter: bool, debounce: nat, cooldown: int, window: int)

  const MAX_PHASES := 10
  const NEW_SERVICE := Service([], None, None)

  function CommitFor(d: Option<DeployRecord>): string {
    if d.None? then "" else d.value.commit
  }

  predicate Correlated(cfg: Config, d: Option<DeployRecord>, since: int) {
    d.Some? && 0 <= since - d.value.at <= cfg.window
  }

  function RecordOf(v: Service): AlertRecord {
    if v.rec.Some? then v.rec.value else AlertRecord(None, None, false)
  }

  /** Later than; a zero time is earlier than every other. */
  predicate Later(a: Option<int>, b: Option<int>) {
    a.Some? && (b.None? || a.value > b.value)
  }

  /** The most recent delivered alert said unhealthy. */
  predicate LastAlertedUnhealthy(r: AlertRecord) {
    Later(r.unhealthyAt, r.recoveredAt)
  }

  function LastOf(r: AlertRecord, to: Status): Option<int> {
    if to.Healthy? then r.recoveredAt else r.unhealthyAt
  }

  predicate InCooldown(cfg: Config, v: Service, to: Status, now: int) {
    && cfg.cooldown > 0 && v.rec.Some?
    && LastOf(v.rec.value, to).Some? && now - LastOf(v.rec.value, to).value < cfg.cooldown
  }

  /** Records a delivery, so later transitions of the direction are rate-limited. */
  function Delivered(cfg: Config, v: Service, to: Status, now: int): Service {
    if cfg.cooldown <= 0 then v
    else
      var r := RecordOf(v);
      v.(rec := Some(if to.Unhealthy? then AlertRecord(Some(now), r.recoveredAt, false)
                     else AlertRecord(r.unhealthyAt, Some(now), false)))
  }

  predicate AlertWorthy(from: Status, to: Status) {
    to.Unhealthy? || (from.Unhealthy? && to.Healthy?)
  }

  function Trimmed(phases: seq<Phase>): seq<Phase> {
    if |phases| > MAX_PHASES then phases[..MAX_PHASES] else phases
  }

  /** The alert a current phase is worth. */
  function AlertFor(cfg: Config, phases: seq<Phase>, d: Option<DeployRecord>): Alert
    requires |phases| >= 2
  {
    Alert(phases[1].status, phases[0].status, phases[0].since, phases[0].since - phases[1].since,
          phases[0].commit, Correlated(cfg, d, phases[0].since))
  }

  /** The pending change after one more observation of a status that is not the accepted one. */
  function Counted(v: Service, status: Status, now: int): PendingChange {
    var p := if v.pending.Some? && v.pending.value.status == status then v.pending.value
        else PendingChange(status, 0, now);
    p.(count := p.count + 1)
  }

  datatype Seen = Seen(service: Service, alert: Option<Alert>)

  /** An accepted change: recorded, and alerted, or suppressed by the cooldown. */
  function Accept(cfg: Config, v: Service, p: PendingChange, now: int, d: Option<DeployRecord>): Seen
    requires v.phases != []
  {
    var phases := Trimmed([Phase(p.status, p.since, CommitFor(d))] + v.phases);
    var w := v.(phases := phases, pending := None);
    if !cfg.alerter || !AlertWorthy(v.phases[0].status, p.status) then Seen(w, None)
    else if InCooldown(cfg, v, p.status, now) then Seen(w.(rec := Some(RecordOf(v).(suppressed := true))), None)
    else Seen(Delivered(cfg, w, p.status, now), Some(AlertFor(cfg, phases, d)))
  }

  /** One observation of the service. */
  function Observe(cfg: Config, v: Service, status: Status, now: int, d: Option<DeployRecord>): Seen {
    if v.phases == [] then Seen(v.(phases := [Phase(status, now, CommitFor(d))]), None)
    else if status == v.phases[0].status then Seen(v.(pending := None), None)
    else
      var p := Counted(v, status, now);
      if p.count < cfg.debounce then Seen(v.(pending := Some(p)), None) else Accept(cfg, v, p, now, d)
  }

  predicate Owes(v: Service) {
    && v.rec.Some? && |v.phases| >= 2
    && ((v.phases[0].status.Unhealthy? && !LastAlertedUnhealthy(v.rec.value))
        || (v.phases[0].status.Healthy? && LastAlertedUnhealthy(v.rec.value)))
  }

  /** The end of a snapshot: an owed alert is delivered once its direction's cooldown is over; a
      service that no longer diverges is settled silently. */
  function CatchUp(cfg: Config, v: Service, now: int, d: Option<DeployRecord>): Seen {
    if cfg.cooldown <= 0 || !cfg.alerter || v.rec.None? || !v.rec.value.suppressed || |v.phases| < 2 then Seen(v, None)
    else if !Owes(v) then Seen(v.(rec := Some(v.rec.value.(suppressed := false))), None)
    else if InCooldown(cfg, v, v.phases[0].status, now) then Seen(v, None)
    else Seen(Delivered(cfg, v, v.phases[0].status, now), Some(AlertFor(cfg, v.phases, d)))
  }

  // ---------- histories of one service ----------

  /** A step of one service's history: an observation, the end of a readable snapshot, a restart. */
  datatype Step = Obs(status: Status, now: int, d: Option<DeployRecord>)
                | EndOfSnapshot(now: int, d: Option<DeployRecord>)
                | Restart

  datatype Sent = Sent(alert: Alert, at: int)
  datatype Watch = Watch(v: Service, sent: seq<Sent>)

  function Sending(w: Watch, s: Seen, now: int): Watch {
    Watch(s.service, if s.alert.Some? then w.sent + [Sent(s.alert.value, now)] else w.sent)
  }

  function Next(cfg: Config, w: Watch, s: Step): Watch {
    match s
    case Obs(status, now, d) => Sending(w, Observe(cfg, w.v, status, now, d), now)
    case EndOfSnapshot(now, d) => Sending(w, CatchUp(cfg, w.v, now, d), now)
    case Restart => w.(v := w.v.(pending := None))
  }

  function After(cfg: Config, steps: seq<Step>): Watch {
    if steps == [] then Watch(NEW_SERVICE, [])
    else Next(cfg, After(cfg, steps[..|steps| - 1]), steps[|steps| - 1])
  }

  function ClockNext(before: Option<int>, s: Step): Option<int> {
    if s.Restart? then before else Some(s.now)
  }

  /** The time of the newest step that has one, counting on from the given time. */
  function ClockAfter(from: Option<int>, steps: seq<Step>): Option<int> {
    if steps == [] then from else ClockNext(ClockAfter(from, steps[..|steps| - 1]), steps[|steps| - 1])
  }

  function Clock(steps: seq<Step>): Option<int> {
    ClockAfter(None, steps)
  }

  /** The clock does not go back. */
  ghost predicate NotBefore(clock: Option<int>, s: Step) {
    s.Restart? || clock.None? || clock.value <= s.now
  }

  ghost predicate MonotoneAfter(from: Option<int>, steps: seq<Step>) {
    steps != [] ==>
      var front, last := steps[..|steps| - 1], steps[|steps| - 1];
      MonotoneAfter(from, front) && NotBefore(ClockAfter(from, front), last)
  }

  ghost predicate Monotone(steps: seq<Step>) {
    MonotoneAfter(None, steps)
  }

  // ---------- the phase list ----------

  /** Between 1 and 10 phases, adjacent statuses differ, start times do not increase with age. */
  ghost predicate PhasesOk(phases: seq<Phase>) {
    && 1 <= |phases| <= MAX_PHASES
    && (forall i :: 0 <= i < |phases| - 1 ==> phases[i].status != phases[i + 1].status)
    && (forall i :: 0 <= i < |phases| - 1 ==> phases[i].since >= phases[i + 1].since)
  }

  /** The phases and the pending change of a service, at a time not before its newest observation. */
  ghost predicate TimelineOk(cfg: Config, v: Service, now: Option<int>) {
    if v.phases == [] then v.pending.None?
    else
      && PhasesOk(v.phases) && now.Some? && v.phases[0].since <= now.value
      && (v.pending.Some? ==>
            && v.pending.value.status != v.phases[0].status && 1 <= v.pending.value.count < cfg.debounce
            && v.phases[0].since <= v.pending.value.since <= now.value)
  }

  lemma AcceptKeepsTimeline(cfg: Config, v: Service, p: PendingChange, now: int, d: Option<DeployRecord>)
    requires v.phases != [] && PhasesOk(v.phases) && p.status != v.phases[0].status
    requires v.phases[0].since <= p.since <= now
    ensures TimelineOk(cfg, Accept(cfg, v, p, now, d).service, Some(now))
  {
  }

  lemma NextKeepsTimeline(cfg: Config, w: Watch, s: Step, before: Option<int>)
    requires TimelineOk(cfg, w.v, before) && cfg.debounce >= 1 && NotBefore(before, s)
    ensures TimelineOk(cfg, Next(cfg, w, s).v, ClockNext(before, s))
  {
    if s.Obs? && w.v.phases != [] && s.status != w.v.phases[0].status {
      var p := Counted(w.v, s.status, s.now);
      if p.count >= cfg.debounce {
        AcceptKeepsTimeline(cfg, w.v, p, s.now, s.d);
      }
    }
  }

  /** In every history the phase list is well formed. */
  lemma {:induction false} PhaseListStaysOk(cfg: Config, steps: seq<Step>)
    requires Monotone(steps) && cfg.debounce >= 1
    ensures TimelineOk(cfg, After(cfg, steps).v, Clock(steps))
  {
    if steps != [] {
      var front, last := steps[..|steps| - 1], steps[|steps| - 1];
      PhaseListStaysOk(cfg, front);
      NextKeepsTimeline(cfg, After(cfg, front), last, Clock(front));
    }
  }

  // ---------- the debounce ----------

  /** How many of the newest observations in a row show the status, with no restart in between. */
  ghost function Streak(steps: seq<Step>, status: Status): nat {
    if steps == [] then 0
    else
      var front, last := steps[..|steps| - 1], steps[|steps| - 1];
      match last
      case Obs(s, _, _) => if s == status then 1 + Streak(front, status) else 0
      case EndOfSnapshot(_, _) => Streak(front, status)
      case Restart => 0
  }

  /** The time of the k-th newest observation. */
  ghost function ObsTime(steps: seq<Step>, k: nat): Option<int> {
    if steps == [] || k == 0 then None
    else
      var front, last := steps[..|steps| - 1], steps[|steps| - 1];
      if !last.Obs? then ObsTime(front, k) else if k == 1 then Some(last.now) else ObsTime(front, k - 1)
  }

  /** The pending change counts the streak, and began with its first observation. */
  ghost predicate PendingTells(cfg: Config, v: Service, steps: seq<Step>) {
    v.pending.Some? ==>
      && 1 <= v.pending.value.count <= Streak(steps, v.pending.value.status)
      && v.pending.value.count < cfg.debounce
      && ObsTime(steps, v.pending.value.count) == Some(v.pending.value.since)
  }

  lemma {:induction false} PendingCountsStreak(cfg: Config, steps: seq<Step>)
    ensures After(cfg, steps).v.phases == [] ==> After(cfg, steps).v.pending.None?
    ensures PendingTells(cfg, After(cfg, steps).v, steps)
  {
    if steps != [] {
      PendingCountsStreak(cfg, steps[..|steps| - 1]);
    }
  }

  /** The newest observations show the status debounce times in a row, the first of them at the given time. */
  ghost predicate Debounced(cfg: Config, steps: seq<Step>, status: Status, since: int) {
    Streak(steps, status) >= cfg.debounce && ObsTime(steps, cfg.debounce) == Some(since)
  }

  /** A status is accepted only when it was observed debounce times in a row, and its phase begins at the
      first of these observations, not at the confirming one. */
  lemma AcceptedAfterDebounce(cfg: Config, front: seq<Step>, s: Step)
    requires cfg.debounce >= 1 && After(cfg, front).v.phases != []
    requires After(cfg, front + [s]).v.phases != After(cfg, front).v.phases
    ensures var phases := After(cfg, front + [s]).v.phases;
      phases != [] && Debounced(cfg, front + [s], phases[0].status, phases[0].since)
  {
    PendingCountsStreak(cfg, front);
  }

  ghost predicate StreakPends(v: Service, steps: seq<Step>, st: Status) {
    Streak(steps, st) > 0 ==>
      v.phases != [] && (v.phases[0].status != st ==>
                           v.pending.Some? && v.pending.value.status == st
                               && v.pending.value.count == Streak(steps, st))
  }

  lemma ObservationPends(cfg: Config, w: Watch, front: seq<Step>, s: Step, st: Status)
    requires cfg.debounce >= 1 && s.Obs? && StreakPends(w.v, front, st) && PendingTells(cfg, w.v, front)
    requires w.v.phases == [] ==> w.v.pending.None?
    ensures StreakPends(Next(cfg, w, s).v, front + [s], st)
  {
    assert (front + [s])[..|front|] == front;
    if w.v.phases != [] && s.status != w.v.phases[0].status && s.status == st {
      assert Counted(w.v, st, s.now).count == 1 + Streak(front, st);
    }
  }

  lemma {:induction false} StreakIsPending(cfg: Config, steps: seq<Step>, st: Status)
    requires cfg.debounce >= 1
    ensures StreakPends(After(cfg, steps).v, steps, st)
  {
    if steps != [] {
      var front, last := steps[..|steps| - 1], steps[|steps| - 1];
      StreakIsPending(cfg, front, st);
      PendingCountsStreak(cfg, front);
      if last.Obs? {
        ObservationPends(cfg, After(cfg, front), front, last, st);
        assert front + [last] == steps;
      }
    }
  }

  /** And a status that was observed debounce times in a row is the accepted one. */
  lemma SteadyStatusIsAccepted(cfg: Config, steps: seq<Step>, st: Status)
    requires cfg.debounce >= 1 && Streak(steps, st) >= cfg.debounce
    ensures After(cfg, steps).v.phases != [] && After(cfg, steps).v.phases[0].status == st
  {
    StreakIsPending(cfg, steps, st);
    PendingCountsStreak(cfg, steps);
  }

  // ---------- the cooldown ----------

  /** The newest delivery of a direction. */
  ghost function LastSent(sent: seq<Sent>, to: Status): Option<int> {
    if sent == [] then None
    else if sent[|sent| - 1].alert.to == to then Some(sent[|sent| - 1].at)
    else LastSent(sent[..|sent| - 1], to)
  }

  /** Any two deliveries of one direction are at least the cooldown apart. */
  ghost predicate Spaced(cfg: Config, sent: seq<Sent>) {
    forall i, j :: 0 <= i < j < |sent| && sent[i].alert.to == sent[j].alert.to ==>
         sent[j].at - sent[i].at >= cfg.cooldown
  }

  /** The alert record is the deliveries' trace: per direction the newest delivery's time. */
  ghost predicate RecordTells(w: Watch) {
    && RecordOf(w.v).unhealthyAt == LastSent(w.sent, Unhealthy)
    && RecordOf(w.v).recoveredAt == LastSent(w.sent, Healthy)
    && (forall i :: 0 <= i < |w.sent| ==> w.sent[i].alert.to in {Unhealthy, Healthy})
  }

  /** Deliveries of a direction are not later than its newest one. */
  lemma {:induction false} LastSentIsNewest(cfg: Config, sent: seq<Sent>, to: Status, i: nat)
    requires cfg.cooldown > 0 && Spaced(cfg, sent) && i < |sent| && sent[i].alert.to == to
    ensures LastSent(sent, to).Some? && sent[i].at <= LastSent(sent, to).value
  {
    if sent[|sent| - 1].alert.to != to {
      LastSentIsNewest(cfg, sent[..|sent| - 1], to, i);
    }
  }

  lemma SendingStaysSpaced(cfg: Config, w: Watch, a: Alert, now: int)
    requires cfg.cooldown > 0 && Spaced(cfg, w.sent) && RecordTells(w) && a.to in {Unhealthy, Healthy}
    requires !InCooldown(cfg, w.v, a.to, now)
    ensures Spaced(cfg, w.sent + [Sent(a, now)])
  {
    var more := w.sent + [Sent(a, now)];
    forall i | 0 <= i < |w.sent| && w.sent[i].alert.to == a.to
      ensures now - w.sent[i].at >= cfg.cooldown
    {
      LastSentIsNewest(cfg, w.sent, a.to, i);
    }
  }

  lemma DeliveryIsTold(cfg: Config, w: Watch, v: Service, a: Alert, now: int)
    requires cfg.cooldown > 0 && RecordTells(w) && a.to in {Unhealthy, Healthy} && RecordOf(v) == RecordOf(w.v)
    ensures RecordTells(Watch(Delivered(cfg, v, a.to, now), w.sent + [Sent(a, now)]))
  {
    assert (w.sent + [Sent(a, now)])[..|w.sent|] == w.sent;
  }

  /** A step either sends nothing and keeps the delivery times, or sends an alert that is not in its
      direction's cooldown and records it. */
  lemma NextSends(cfg: Config, w: Watch, s: Step)
    requires cfg.cooldown > 0
    ensures var n := Next(cfg, w, s);
      if n.sent == w.sent then
        RecordOf(n.v).unhealthyAt == RecordOf(w.v).unhealthyAt && RecordOf(n.v).recoveredAt == RecordOf(w.v).recoveredAt
      else
        && !s.Restart?
        && exists a: Alert, v: Service :: a.to in {Unhealthy, Healthy} && n.sent == w.sent + [Sent(a, s.now)]
             && RecordOf(v) == RecordOf(w.v) && n.v == Delivered(cfg, v, a.to, s.now)
                  && !InCooldown(cfg, w.v, a.to, s.now)
  {
    if s.Obs? && w.v.phases != [] && s.status != w.v.phases[0].status {
      var p := Counted(w.v, s.status, s.now);
      if p.count >= cfg.debounce {
        var seen := Accept(cfg, w.v, p, s.now, s.d);
        if seen.alert.Some? {
          var v := w.v.(phases := Trimmed([Phase(p.status, p.since, CommitFor(s.d))] + w.v.phases), pending := None);
          assert RecordOf(v) == RecordOf(w.v) && seen.service == Delivered(cfg, v, seen.alert.value.to, s.now);
        }
      }
    }
    if s.EndOfSnapshot? {
      var seen := CatchUp(cfg, w.v, s.now, s.d);
      if seen.alert.Some? {
        assert RecordOf(w.v) == RecordOf(w.v) && seen.service == Delivered(cfg, w.v, seen.alert.value.to, s.now);
      }
    }
  }

  lemma NextStaysSpaced(cfg: Config, w: Watch, s: Step)
    requires cfg.cooldown > 0 && Spaced(cfg, w.sent) && RecordTells(w)
    ensures Spaced(cfg, Next(cfg, w, s).sent) && RecordTells(Next(cfg, w, s))
  {
    NextSends(cfg, w, s);
    var n := Next(cfg, w, s);
    if n.sent != w.sent {
      var a: Alert, v: Service :| a.to in {Unhealthy, Healthy} && n.sent == w.sent + [Sent(a, s.now)]
        && RecordOf(v) == RecordOf(w.v) && n.v == Delivered(cfg, v, a.to, s.now)
             && !InCooldown(cfg, w.v, a.to, s.now);
      SendingStaysSpaced(cfg, w, a, s.now);
      DeliveryIsTold(cfg, w, v, a, s.now);
    }
  }

  /** In every history, restarts included, two delivered alerts of the same direction are at least the
      cooldown apart, and the record names exactly the newest deliveries. */
  lemma {:induction false} AlertsAreSpaced(cfg: Config, steps: seq<Step>)
    requires cfg.cooldown > 0
    ensures Spaced(cfg, After(cfg, steps).sent) && RecordTells(After(cfg, steps))
  {
    if steps != [] {
      var front, last := steps[..|steps| - 1], steps[|steps| - 1];
      AlertsAreSpaced(cfg, front);
      NextStaysSpaced(cfg, After(cfg, front), last);
    }
  }

  // ---------- completeness ----------

  /** An observation is later than all that came before it, the end of a snapshot not earlier. */
  ghost predicate PacedStep(before: Option<int>, s: Step) {
    !s.Restart? && before.Some? ==> if s.Obs? then before.value < s.now else before.value <= s.now
  }

  /** Every observation of the service is later than all that came before it: one per snapshot. */
  ghost predicate PacedAfter(from: Option<int>, steps: seq<Step>) {
    steps != [] ==>
      var front, last := steps[..|steps| - 1], steps[|steps| - 1];
      PacedAfter(from, front) && PacedStep(ClockAfter(from, front), last)
  }

  ghost predicate Paced(steps: seq<Step>) {
    PacedAfter(None, steps)
  }

  ghost predicate LastSentUnhealthy(sent: seq<Sent>) {
    sent != [] && sent[|sent| - 1].alert.to.Unhealthy?
  }

  /** An accepted failure, not a baseline. */
  predicate AcceptedUnhealthy(v: Service) {
    |v.phases| >= 2 && v.phases[0].status.Unhealthy?
  }

  /** An accepted failure is the newest thing told, or owed. */
  ghost predicate ToldOrOwed(w: Watch) {
    AcceptedUnhealthy(w.v) ==> LastSentUnhealthy(w.sent) || RecordOf(w.v).suppressed
  }

  /** The record's delivery times lie in the past, and an unhealthy one is of an accepted change. */
  ghost predicate Sane(v: Service, clock: Option<int>) {
    var r := RecordOf(v);
    && (r.unhealthyAt.Some? ==> clock.Some? && r.unhealthyAt.value <= clock.value && |v.phases| >= 2)
    && (r.recoveredAt.Some? ==> clock.Some? && r.recoveredAt.value <= clock.value)
    && (r.recoveredAt.Some? && r.recoveredAt == clock ==> v.phases != [] && v.phases[0].status.Healthy?)
  }

  /** When the record says that the newest delivery was a failure's, it was. */
  ghost predicate Answers(w: Watch) {
    LastAlertedUnhealthy(RecordOf(w.v)) ==> LastSentUnhealthy(w.sent)
  }

  /** And the other way round. */
  ghost predicate Echoes(w: Watch) {
    LastSentUnhealthy(w.sent) ==> LastAlertedUnhealthy(RecordOf(w.v))
  }

  /** Delivery times lie in the past; the record knows the direction of the newest delivery; and an
      accepted failure was either the newest thing told or is owed. */
  ghost predicate Accounted(w: Watch, clock: Option<int>) {
    Sane(w.v, clock) && Answers(w) && Echoes(w) && ToldOrOwed(w)
  }

  /** What a step keeps of the account. */
  ghost predicate Keeps(w: Watch, n: Watch, clock: Option<int>) {
    Sane(n.v, clock) && (Answers(w) ==> Answers(n)) && (Echoes(w) ==> Echoes(n))
  }

  lemma AcceptKeeps(cfg: Config, w: Watch, p: PendingChange, now: int, d: Option<DeployRecord>, before: Option<int>)
    requires cfg.alerter && cfg.cooldown > 0 && Sane(w.v, before) && w.v.phases != []
    requires before.Some? ==> before.value < now
    ensures var n := Sending(w, Accept(cfg, w.v, p, now, d), now); Keeps(w, n, Some(now)) && ToldOrOwed(n)
  {
  }

  lemma ObservationKeeps(cfg: Config, w: Watch, s: Step, before: Option<int>)
    requires cfg.alerter && cfg.cooldown > 0 && s.Obs? && Sane(w.v, before) && PacedStep(before, s)
    ensures var n := Next(cfg, w, s); Keeps(w, n, Some(s.now)) && (ToldOrOwed(w) ==> ToldOrOwed(n))
  {
    if w.v.phases != [] && s.status != w.v.phases[0].status {
      var p := Counted(w.v, s.status, s.now);
      if p.count >= cfg.debounce {
        AcceptKeeps(cfg, w, p, s.now, s.d, before);
      }
    }
  }

  lemma CatchUpKeeps(cfg: Config, w: Watch, s: Step, before: Option<int>)
    requires cfg.alerter && cfg.cooldown > 0 && s.EndOfSnapshot? && Sane(w.v, before) && PacedStep(before, s)
    ensures var n := Next(cfg, w, s); Keeps(w, n, Some(s.now)) && (Answers(w) && ToldOrOwed(w) ==> ToldOrOwed(n))
  {
  }

  lemma NextKeeps(cfg: Config, w: Watch, s: Step, before: Option<int>)
    requires cfg.alerter && cfg.cooldown > 0 && Sane(w.v, before) && PacedStep(before, s)
    ensures var n := Next(cfg, w, s);
      Keeps(w, n, ClockNext(before, s)) && (Answers(w) && ToldOrOwed(w) ==> ToldOrOwed(n))
  {
    match s
    case Obs(_, _, _) => ObservationKeeps(cfg, w, s, before);
    case EndOfSnapshot(_, _) => CatchUpKeeps(cfg, w, s, before);
    case Restart =>
  }

  /** The end of a snapshot keeps the account, and delivers what is owed once the cooldown is over. */
  lemma CatchUpIsAccounted(cfg: Config, w: Watch, s: Step, before: Option<int>)
    requires cfg.alerter && cfg.cooldown > 0 && s.EndOfSnapshot? && Accounted(w, before)
    requires before.Some? ==> before.value <= s.now
    ensures Accounted(Next(cfg, w, s), Some(s.now))
    ensures var r := RecordOf(w.v);
      AcceptedUnhealthy(w.v) && (r.unhealthyAt.None? || s.now - r.unhealthyAt.value >= cfg.cooldown) ==>
        LastSentUnhealthy(Next(cfg, w, s).sent)
  {
    CatchUpKeeps(cfg, w, s, before);
  }

  lemma {:induction false} HistoryIsAccounted(cfg: Config, steps: seq<Step>)
    requires cfg.alerter && cfg.cooldown > 0 && Paced(steps)
    ensures Accounted(After(cfg, steps), Clock(steps))
  {
    if steps != [] {
      var front, last := steps[..|steps| - 1], steps[|steps| - 1];
      HistoryIsAccounted(cfg, front);
      NextKeeps(cfg, After(cfg, front), last, Clock(front));
    }
  }

  /** The newest step ends a snapshot, a cooldown or more after the newest unhealthy alert. */
  ghost predicate EndsCooledDown(cfg: Config, steps: seq<Step>) {
    && steps != [] && steps[|steps| - 1].EndOfSnapshot?
    && var told := LastSent(After(cfg, steps[..|steps| - 1]).sent, Unhealthy);
       (told.None? || steps[|steps| - 1].now - told.value >= cfg.cooldown)
  }

  /** No accepted failure goes untold: after every history, an accepted Unhealthy status is what the
      newest delivered alert says, or a catch-up is pending; and the end of a snapshot at which the
      direction's cooldown is over leaves it told. */
  lemma FailuresAreTold(cfg: Config, steps: seq<Step>)
    requires cfg.alerter && cfg.cooldown > 0 && Paced(steps)
    requires AcceptedUnhealthy(After(cfg, steps).v)
    ensures LastSentUnhealthy(After(cfg, steps).sent) || RecordOf(After(cfg, steps).v).suppressed
    ensures EndsCooledDown(cfg, steps) ==> LastSentUnhealthy(After(cfg, steps).sent)
  {
    HistoryIsAccounted(cfg, steps);
    if EndsCooledDown(cfg, steps) {
      var front := steps[..|steps| - 1];
      HistoryIsAccounted(cfg, front);
      assert After(cfg, front).v.phases == After(cfg, steps).v.phases;
      AlertsAreSpaced(cfg, front);
      CatchUpIsAccounted(cfg, After(cfg, front), steps[|steps| - 1], Clock(front));
    }
  }

  // ---------- which alerts are sent ----------

  /** The newest alert of the direction was delivered less than the cooldown ago. */
  predicate CoolingDown(cooldown: int, told: Option<int>, now: int) {
    cooldown > 0 && told.Some? && now - told.value < cooldown
  }

  /** A change is told when the service failed, and when it recovers from a failure. */
  predicate WorthTelling(from: Status, to: Status) {
    to == Unhealthy || (from == Unhealthy && to == Healthy)
  }

  /** What an alert says: the phase that ended and how long it lasted, the one that began, the commit of
      the newest deploy as of the given record, and whether that deploy was at most the window before. */
  ghost predicate Tells(cfg: Config, a: Alert, before: Phase, status: Status, since: int, commit: string,
                        d: Option<DeployRecord>)
  {
    && a.from == before.status && a.to == status && a.since == since && a.prevDuration == since - before.since
    && a.commit == commit
    && (a.correlated <==> d.Some? && d.value.at <= since && since - d.value.at <= cfg.window)
  }

  /** An observation sends an alert exactly when it completes the debounce of another status, the change is
      worth telling and its direction is not cooling down; one that is cooling down is owed. */
  lemma ObservationSendsIff(cfg: Config, v: Service, status: Status, now: int, d: Option<DeployRecord>)
    ensures var s := Observe(cfg, v, status, now, d);
      var again := v.pending.Some? && v.pending.value.status == status;
      var count := if again then v.pending.value.count + 1 else 1;
      var changes := v.phases != [] && status != v.phases[0].status && count >= cfg.debounce;
      var worth := cfg.alerter && changes && WorthTelling(v.phases[0].status, status);
      var r := RecordOf(v);
      var cooling := CoolingDown(cfg.cooldown, if status == Healthy then r.recoveredAt else r.unhealthyAt, now);
      && (s.alert.Some? <==> worth && !cooling)
      && (s.alert.Some? ==> Tells(cfg, s.alert.value, v.phases[0], status, if again then v.pending.value.since else now,
                                  if d.Some? then d.value.commit else "", d))
      && (RecordOf(s.service).suppressed <==>
            (worth && cooling) || (r.suppressed && !(worth && cfg.cooldown > 0)))
  {
  }

  /** What an observation leaves: the first one is the baseline; one of the accepted status ends a pending
      change; another one is counted, and starts a phase when it completes the debounce. The list keeps the
      newest ten. */
  lemma ObservationRecords(cfg: Config, v: Service, status: Status, now: int, d: Option<DeployRecord>)
    ensures var w := Observe(cfg, v, status, now, d).service;
      var again := v.pending.Some? && v.pending.value.status == status;
      var count := if again then v.pending.value.count + 1 else 1;
      var since := if again then v.pending.value.since else now;
      var commit := if d.Some? then d.value.commit else "";
      if v.phases == [] then w.phases == [Phase(status, now, commit)] && w.pending == v.pending
      else if status == v.phases[0].status then w.phases == v.phases && w.pending == None
      else if count < cfg.debounce then
        w.phases == v.phases && w.pending == Some(PendingChange(status, count, since))
      else
        && w.pending == None && |w.phases| == (if |v.phases| < 10 then |v.phases| + 1 else 10)
        && w.phases[0] == Phase(status, since, commit) && w.phases[1..] == v.phases[..|w.phases| - 1]
  {
    var p := Counted(v, status, now);
    if v.phases != [] && status != v.phases[0].status && p.count >= cfg.debounce {
      var longer := [Phase(p.status, p.since, CommitFor(d))] + v.phases;
      assert longer[1..] == v.phases && Trimmed(longer)[1..] == v.phases[..|Trimmed(longer)| - 1];
    }
  }

  /** The end of a snapshot sends the alert of the current phase exactly when one is owed and its direction
      is not cooling down: the service failed and no failure was the newest alert, or it recovered and one
      was. What is not owed any more is dropped. */
  lemma CatchUpSendsIff(cfg: Config, v: Service, now: int, d: Option<DeployRecord>)
    ensures var s := CatchUp(cfg, v, now, d);
      var r := RecordOf(v);
      var toldFailure := r.unhealthyAt.Some? && (r.recoveredAt.Some? ==> r.unhealthyAt.value > r.recoveredAt.value);
      var looks := cfg.alerter && cfg.cooldown > 0 && r.suppressed && |v.phases| >= 2;
      var owed := looks && if toldFailure then v.phases[0].status == Healthy else v.phases[0].status == Unhealthy;
      var cooling := owed && CoolingDown(cfg.cooldown, if toldFailure then r.recoveredAt else r.unhealthyAt, now);
      && (s.alert.Some? <==> owed && !cooling)
      && (s.alert.Some? ==> Tells(cfg, s.alert.value, v.phases[1], v.phases[0].status, v.phases[0].since,
                                  v.phases[0].commit, d))
      && (RecordOf(s.service).suppressed <==> r.suppressed && (looks ==> owed && cooling))
  {
  }

  /** The pending change counts the observations in a row, this one included. */
  lemma CountIsStreak(cfg: Config, front: seq<Step>, s: Step)
    requires cfg.debounce >= 1 && s.Obs?
    requires var v := After(cfg, front).v; v.phases != [] && s.status != v.phases[0].status
    ensures var p := Counted(After(cfg, front).v, s.status, s.now);
      && p.count == Streak(front + [s], s.status)
      && (p.count >= cfg.debounce ==> ObsTime(front + [s], cfg.debounce) == Some(p.since))
  {
    assert (front + [s])[..|front|] == front;
    PendingCountsStreak(cfg, front);
    StreakIsPending(cfg, front, s.status);
  }

  /** Over every history: the observation that follows it sends an alert exactly when the service's status
      has now been observed debounce times in a row, is not the accepted one, is worth telling, and the
      newest alert of its direction is a cooldown old. The alert begins with the first of those
      observations. */
  lemma AlertIsSentIff(cfg: Config, front: seq<Step>, s: Step)
    requires cfg.alerter && cfg.debounce >= 1 && cfg.cooldown > 0 && s.Obs?
    ensures var w, n := After(cfg, front), After(cfg, front + [s]);
      var since := ObsTime(front + [s], cfg.debounce);
      var sends := w.v.phases != [] && s.status != w.v.phases[0].status && WorthTelling(w.v.phases[0].status, s.status)
        && Streak(front + [s], s.status) >= cfg.debounce
        && !CoolingDown(cfg.cooldown, LastSent(w.sent, s.status), s.now);
      if sends then
        && since.Some? && |n.sent| == |w.sent| + 1 && n.sent[..|w.sent|] == w.sent && n.sent[|w.sent|].at == s.now
        && Tells(cfg, n.sent[|w.sent|].alert, w.v.phases[0], s.status, since.value,
                 if s.d.Some? then s.d.value.commit else "", s.d)
      else n.sent == w.sent
  {
    assert (front + [s])[..|front|] == front;
    var w := After(cfg, front);
    if w.v.phases != [] && s.status != w.v.phases[0].status {
      CountIsStreak(cfg, front, s);
    }
    AlertsAreSpaced(cfg, front);
    ObservationSendsIff(cfg, w.v, s.status, s.now, s.d);
  }
}
