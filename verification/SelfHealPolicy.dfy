/** The self-heal policy of one stack (internal/selfheal/selfheal.go): a debounce, a cooldown and an
    attempt budget that end only with a budget reset, whatever interleaves with a running heal. */
module SelfHealPolicy {
  import opened Options
  import H = HealthPolicy

  type Status = H.Status
  datatype ServiceHealth = ServiceHealth(name: string, status: Status, onDemand: bool)
  datatype Drift = Drift(name: string, status: Status)
  datatype Category = Degraded | Recovered | Ignore

  /** Seconds. */
  datatype Config = Config(minPolls: nat, maxAttempts: nat, cooldown: nat)

  function Classify(s: Status): Category {
    match s
    case Healthy => Recovered
    case Unhealthy => Degraded
    case Stopped => Degraded
    case Starting => Ignore
    case Unknown => Ignore
  }

  // ---------- reading a stack's health ----------

  /** An on-demand container in its intended stopped state. */
  predicate OnDemandIdle(s: ServiceHealth) {
    s.onDemand && s.status.Stopped?
  }

  /** The statuses that count: those of the services that are not idle on-demand containers. */
  function Relevant(services: seq<ServiceHealth>): set<Status> {
    set s | s in services && !OnDemandIdle(s) :: s.status
  }

  /** The health package's precedence: unhealthy, then starting, then healthy, else stopped. */
  function RollUp(statuses: set<Status>): Status {
    if H.Unhealthy in statuses then H.Unhealthy
    else if H.Starting in statuses then H.Starting
    else if H.Healthy in statuses then H.Healthy
    else H.Stopped
  }

  predicate Shows(services: seq<ServiceHealth>, st: Status) {
    exists s :: s in services && s.status == st
  }

  /** A container is down that is not meant to be. */
  predicate ShowsStopped(services: seq<ServiceHealth>) {
    exists s :: s in services && s.status == H.Stopped && !s.onDemand
  }

  /** Which statuses count, read off the services. */
  lemma RelevantShows(services: seq<ServiceHealth>)
    ensures forall st :: st != H.Stopped ==> (st in Relevant(services) <==> Shows(services, st))
    ensures H.Stopped in Relevant(services) <==> ShowsStopped(services)
  {
    forall s | s in services && !OnDemandIdle(s)
      ensures s.status in Relevant(services)
    {
    }
  }

  lemma RelevantMore(services: seq<ServiceHealth>, i: nat)
    requires i < |services|
    ensures Relevant(services[..i + 1]) ==
      if OnDemandIdle(services[i]) then Relevant(services[..i]) else Relevant(services[..i]) + {services[i].status}
    ensures OnDemandIdle(services[i]) || services[i].status in Relevant(services)
  {
    assert services[..i + 1] == services[..i] + [services[i]];
    assert services[i] in services;
  }

  /** The status self-heal acts on: the health package's roll-up of the services that are not idle
      on-demand containers; healthy when there are none, or none readable; the given roll-up without detail. */
  method SelfHealStatus(rolledUp: Status, services: seq<ServiceHealth>) returns (status: Status)
    ensures services == [] ==> status == rolledUp
    ensures services != [] ==>
              && (status == H.Unhealthy <==> Shows(services, H.Unhealthy))
              && (status == H.Starting <==> Shows(services, H.Starting) && !Shows(services, H.Unhealthy))
              && (status == H.Stopped <==>
                    ShowsStopped(services) && forall s :: s in services ==> s.status in {H.Stopped, H.Unknown})
              && status != H.Unknown
    ensures services != [] && Relevant(services) <= {H.Unknown} ==> status == H.Healthy
    ensures !(Relevant(services) <= {H.Unknown}) ==> status == RollUp(Relevant(services))
  {
    if |services| == 0 {
      return rolledUp;
    }
    RelevantShows(services);
    var anyStarting, anyHealthy, anyStopped, anyRelevant := false, false, false, false;
    for i := 0 to |services|
      invariant anyRelevant == (Relevant(services[..i]) != {})
      invariant H.Unhealthy !in Relevant(services[..i])
      invariant anyStarting == (H.Starting in Relevant(services[..i]))
      invariant anyHealthy == (H.Healthy in Relevant(services[..i]))
      invariant anyStopped == (H.Stopped in Relevant(services[..i]))
    {
      RelevantMore(services, i);
      if OnDemandIdle(services[i]) {
        continue;
      }
      anyRelevant := true;
      assert services[i].status in Relevant(services[..i + 1]);
      match services[i].status
      case Unhealthy => return H.Unhealthy;
      case Starting => anyStarting := true;
      case Healthy => anyHealthy := true;
      case Stopped => anyStopped := true;
      case Unknown =>
    }
    assert services[..|services|] == services;
    if !anyRelevant {
      return H.Healthy;
    }
    if anyStarting {
      return H.Starting;
    }
    if anyHealthy {
      return H.Healthy;
    }
    if anyStopped {
      return H.Stopped;
    }
    assert forall st :: st in Relevant(services) ==> st == H.Unknown;
    return H.Healthy;
  }

  /** The services a heal reacts to: the relevant ones that are unhealthy or stopped, in order. */
  function DriftOf(services: seq<ServiceHealth>): seq<Drift> {
    if services == [] then []
    else
      var last := services[|services| - 1];
      DriftOf(services[..|services| - 1]) + (if Drifts(last) then [Drift(last.name, last.status)] else [])
  }

  predicate Drifts(s: ServiceHealth) {
    !OnDemandIdle(s) && Classify(s.status).Degraded?
  }

  /** The entries name exactly the services that are unhealthy, or stopped and not on demand, in order; at says
      where in the list each of them is. */
  ghost predicate Names(drift: seq<Drift>, services: seq<ServiceHealth>, at: seq<nat>) {
    && |at| == |drift|
    && (forall i :: 0 <= i < |at| ==> at[i] < |services|)
    && (forall i :: 0 <= i < |at| ==> drift[i] == Drift(services[at[i]].name, services[at[i]].status))
    && (forall i, j :: 0 <= i < j < |at| ==> at[i] < at[j])
    && (forall k: nat :: k < |services| ==>
          (k in at <==> services[k].status == H.Unhealthy
                          || (services[k].status == H.Stopped && !services[k].onDemand)))
  }

  method DriftedServices(services: seq<ServiceHealth>) returns (drift: seq<Drift>, ghost at: seq<nat>)
    ensures drift == DriftOf(services) && Names(drift, services, at)
  {
    drift, at := [], [];
    for i := 0 to |services|
      invariant drift == DriftOf(services[..i]) && Names(drift, services[..i], at)
    {
      assert services[..i + 1][..i] == services[..i];
      NamesMore(drift, services[..i], at, services[i]);
      assert services[..i] + [services[i]] == services[..i + 1];
      if OnDemandIdle(services[i]) {
        continue;
      }
      if Classify(services[i].status).Degraded? {
        drift, at := drift + [Drift(services[i].name, services[i].status)], at + [i];
      }
    }
    assert services[..|services|] == services;
  }

  lemma NamesMore(drift: seq<Drift>, services: seq<ServiceHealth>, at: seq<nat>, s: ServiceHealth)
    requires Names(drift, services, at)
    ensures if Drifts(s) then Names(drift + [Drift(s.name, s.status)], services + [s], at + [|services|])
            else Names(drift, services + [s], at)
  {
    var n := |services|;
    assert forall i :: 0 <= i < |at| ==> (services + [s])[at[i]] == services[at[i]];
    forall k: nat | k < n
      ensures k in at + [n] <==> k in at
      ensures (services + [s])[k] == services[k]
    {
    }
    assert n in at + [n] && n !in at;
  }

  /** A degraded reading that lists services names what it reacts to. */
  lemma {:induction false} DegradedNamesDrift(services: seq<ServiceHealth>, s: ServiceHealth)
    requires s in services && (s.status == H.Unhealthy || (s.status == H.Stopped && !s.onDemand))
    ensures Drift(s.name, s.status) in DriftOf(services)
  {
    var front, last := services[..|services| - 1], services[|services| - 1];
    assert services == front + [last];
    if s != last {
      DegradedNamesDrift(front, s);
    }
  }

  // ---------- one stack's bookkeeping ----------

  datatype StackState = StackState(
    degraded: nat, healthy: nat, declined: bool, attempts: nat, lastTry: Option<int>,
    exhausted: bool, firstTry: int, recoveredAt: int, drift: seq<Drift>)

  const FRESH := StackState(0, 0, false, 0, None, false, 0, 0, [])

  datatype Verdict = Wait | StartHeal | GiveUp | OutageEnds(healed: bool, after: int, drift: seq<Drift>)
  datatype Poll = Poll(state: Option<StackState>, verdict: Verdict)

  /** The locked part of a poll of an opted-in stack. */
  function Evaluate(cfg: Config, old_: Option<StackState>, cat: Category, now: int): Poll {
    if old_.None? && !cat.Degraded? then Poll(None, Wait)
    else
      var s := if old_.Some? then old_.value else FRESH;
      match cat
      case Recovered =>
        var t := s.(degraded := 0, healthy := s.healthy + 1,
                    recoveredAt := if s.healthy == 0 then now else s.recoveredAt);
        if t.healthy < cfg.minPolls then Poll(Some(t), Wait)
        else Poll(None, OutageEnds(t.attempts > 0 && !t.exhausted, t.recoveredAt - t.firstTry, t.drift))
      case Ignore => Poll(Some(s), Wait)
      case Degraded =>
        var t := s.(healthy := 0);
        if t.exhausted then Poll(Some(t), Wait)
        else
          var u := t.(degraded := t.degraded + 1);
          if u.degraded < cfg.minPolls then Poll(Some(u), Wait)
          else if u.attempts >= cfg.maxAttempts then Poll(Some(u.(exhausted := true)), GiveUp)
          else if u.lastTry.Some? && now - u.lastTry.value < cfg.cooldown then Poll(Some(u), Wait)
          else Poll(Some(u), StartHeal)
  }

  /** A heal returned: an attempt is counted only when the redeploy ran and the stack was not reset
      meanwhile. The clock is read twice. */
  function Returned(s: Option<StackState>, drift: seq<Drift>, ran: bool, declines: bool, first: int,
                    last: int): Option<StackState>
  {
    if s.None? then None
    else if !ran then Some(if declines then s.value.(declined := true) else s.value)
    else
      var t := if s.value.attempts == 0 then s.value.(firstTry := first, drift := drift) else s.value;
      Some(t.(attempts := t.attempts + 1, lastTry := Some(last)))
  }

  // ---------- the history of one stack ----------

  datatype Ended = Ended(ran: bool, first: int, last: int)
  datatype Redeploy = Redeploy(epoch: nat, startedAt: int, drift: seq<Drift>, end: Option<Ended>)
  datatype Notice = Exhausted(epoch: nat) | Healed(epoch: nat, after: int, drift: seq<Drift>, recoveredAt: int)

  /** One poll's reading: the status the poll acted on. */
  datatype Look = Look(status: Status, at: int)

  /** A stack's state with everything that happened to it. A budget reset begins a new epoch, whose polls
      so far are the looks; the newest redeploy is open while the healer runs. */
  datatype Record = Record(state: Option<StackState>, heals: seq<Redeploy>, notices: seq<Notice>, epoch: nat,
                           looks: seq<Look>)

  const UNTOUCHED := Record(None, [], [], 0, [])

  predicate OpenIn(heals: seq<Redeploy>) {
    heals != [] && heals[|heals| - 1].end.None?
  }

  predicate Open(r: Record) {
    OpenIn(r.heals)
  }

  function AfterPoll(cfg: Config, r: Record, status: Status, drift: seq<Drift>, now: int): Record {
    Recorded(r.(looks := r.looks + [Look(status, now)]), Evaluate(cfg, r.state, Classify(status), now), drift, now)
  }

  function Recorded(r: Record, p: Poll, drift: seq<Drift>, now: int): Record {
    match p.verdict
    case Wait => r.(state := p.state)
    case StartHeal => r.(state := p.state, heals := r.heals + [Redeploy(r.epoch, now, drift, None)])
    case GiveUp => r.(state := p.state, notices := r.notices + [Exhausted(r.epoch)])
    case OutageEnds(healed, after, d) =>
      Record(p.state, r.heals,
             if healed && r.state.Some? then r.notices + [Healed(r.epoch, after, d, after + r.state.value.firstTry)]
                 else r.notices,
             r.epoch + 1, [])
  }

  function AfterReturn(r: Record, ran: bool, declines: bool, first: int, last: int): Record
    requires Open(r)
  {
    var n := |r.heals| - 1;
    r.(state := Returned(r.state, r.heals[n].drift, ran, declines, first, last),
       heals := Closed(r.heals, Ended(ran, first, last)))
  }

  function AfterReset(r: Record): Record {
    r.(state := None, epoch := r.epoch + 1, looks := [])
  }

  /** Ran, or still running and not yet known to have been skipped. */
  predicate Spends(h: Redeploy) {
    h.end.None? || h.end.value.ran
  }

  function Spent(heals: seq<Redeploy>, epoch: nat): nat {
    if heals == [] then 0
    else
      var last := heals[|heals| - 1];
      Spent(heals[..|heals| - 1], epoch) + (if last.epoch == epoch && Spends(last) then 1 else 0)
  }

  predicate RanIn(h: Redeploy, epoch: nat) {
    h.epoch == epoch && h.end.Some? && h.end.value.ran
  }

  /** The budget: at most maxAttempts redeploys an epoch, each starting the cooldown after those before
      it ended. */
  ghost predicate WithinBudget(cfg: Config, heals: seq<Redeploy>) {
    && (forall e: nat :: Spent(heals, e) <= cfg.maxAttempts)
    && (forall i, j :: 0 <= i < j < |heals| && RanIn(heals[i], heals[j].epoch) ==>
          heals[j].startedAt - heals[i].end.value.last >= cfg.cooldown)
  }

  /** The redeploy that opened an epoch: the first that ran. */
  ghost predicate FirstRun(heals: seq<Redeploy>, epoch: nat, i: nat) {
    i < |heals| && RanIn(heals[i], epoch) && forall j :: 0 <= j < i ==> !RanIn(heals[j], epoch)
  }

  ghost predicate NoticeTells(cfg: Config, heals: seq<Redeploy>, n: Notice) {
    match n
    case Exhausted(e) => Spent(heals, e) == cfg.maxAttempts
    case Healed(e, after, drift, at) =>
      exists i: nat :: FirstRun(heals, e, i) && drift == heals[i].drift && after == at - heals[i].end.value.first
  }

  /** At most one notice an epoch, so it heals once or gives up once and never both; giving up takes
      exactly maxAttempts redeploys, healing at least one, and no redeploy of the epoch is still open. */
  ghost predicate NoticesTell(cfg: Config, heals: seq<Redeploy>, notices: seq<Notice>) {
    && (forall i, j :: 0 <= i < j < |notices| ==> notices[i].epoch < notices[j].epoch)
    && (forall i :: 0 <= i < |notices| ==> NoticeTells(cfg, heals, notices[i]))
    && (forall i, j :: 0 <= i < |notices| && 0 <= j < |heals| && heals[j].end.None? ==>
         heals[j].epoch != notices[i].epoch)
  }

  /** How the state reflects the current epoch. */
  ghost predicate StateTells(state: Option<StackState>, heals: seq<Redeploy>, notices: seq<Notice>, epoch: nat) {
    && (forall i :: 0 <= i < |heals| - 1 ==> heals[i].end.Some?)
    && (if state.None? then
          && (forall i :: 0 <= i < |heals| ==> heals[i].epoch < epoch)
          && (forall i :: 0 <= i < |notices| ==> notices[i].epoch < epoch)
        else
          var s := state.value;
          && (forall i :: 0 <= i < |heals| ==> heals[i].epoch <= epoch)
          && s.attempts + (if OpenIn(heals) then 1 else 0) == Spent(heals, epoch)
          && (OpenIn(heals) ==> heals[|heals| - 1].epoch == epoch && !s.exhausted)
          && (forall i :: 0 <= i < |heals| && RanIn(heals[i], epoch) ==>
               s.lastTry.Some? && heals[i].end.value.last <= s.lastTry.value)
          && (s.attempts > 0 ==> exists i: nat ::
               FirstRun(heals, epoch, i) && s.firstTry == heals[i].end.value.first && s.drift == heals[i].drift)
          && (s.attempts == 0 ==> forall i :: 0 <= i < |heals| ==> !RanIn(heals[i], epoch))
          && (s.exhausted ==> Exhausted(epoch) in notices)
          && (forall i :: 0 <= i < |notices| ==>
               if s.exhausted then notices[i].epoch <= epoch else notices[i].epoch < epoch))
  }

  ghost predicate Sound(cfg: Config, r: Record) {
    WithinBudget(cfg, r.heals) && NoticesTell(cfg, r.heals, r.notices)
        && StateTells(r.state, r.heals, r.notices, r.epoch)
  }

  lemma {:induction false} UnusedEpoch(heals: seq<Redeploy>, e: nat)
    requires forall i :: 0 <= i < |heals| ==> heals[i].epoch < e
    ensures Spent(heals, e) == 0
  {
    if heals != [] {
      UnusedEpoch(heals[..|heals| - 1], e);
    }
  }

  lemma SpentMore(heals: seq<Redeploy>, h: Redeploy, e: nat)
    ensures Spent(heals + [h], e) == Spent(heals, e) + Spent([h], e)
  {
    assert (heals + [h])[..|heals|] == heals && [h][..0] == [];
  }

  lemma StartKeepsBudget(cfg: Config, heals: seq<Redeploy>, h: Redeploy)
    requires WithinBudget(cfg, heals) && Spent(heals, h.epoch) < cfg.maxAttempts
    requires forall i :: 0 <= i < |heals| && RanIn(heals[i], h.epoch) ==>
             h.startedAt - heals[i].end.value.last >= cfg.cooldown
    ensures WithinBudget(cfg, heals + [h])
  {
    forall e: nat
      ensures Spent(heals + [h], e) <= cfg.maxAttempts
    {
      SpentMore(heals, h, e);
    }
  }

  /** What was told stays true when a redeploy of an epoch without a notice is added or changed. */
  lemma NoticesSurvive(cfg: Config, old_: seq<Redeploy>, new_: seq<Redeploy>, n: Notice)
    requires NoticeTells(cfg, old_, n) && |new_| >= |old_|
    requires forall i :: 0 <= i < |new_| ==>
             (i < |old_| && new_[i] == old_[i])
                 || (new_[i].epoch != n.epoch && (i < |old_| ==> old_[i].epoch != n.epoch))
    ensures NoticeTells(cfg, new_, n)
  {
    match n
    case Exhausted(e) => SpentSame(old_, new_, e);
    case Healed(e, after, drift, at) =>
      var i: nat :| FirstRun(old_, e, i) && drift == old_[i].drift && after == at - old_[i].end.value.first;
      assert FirstRun(new_, e, i);
  }

  lemma {:induction false} SpentSame(old_: seq<Redeploy>, new_: seq<Redeploy>, e: nat)
    requires |new_| >= |old_|
    requires forall i :: 0 <= i < |new_| ==>
             (i < |old_| && new_[i] == old_[i]) || (new_[i].epoch != e && (i < |old_| ==> old_[i].epoch != e))
    ensures Spent(new_, e) == Spent(old_, e)
  {
    if |new_| > |old_| {
      SpentSame(old_, new_[..|new_| - 1], e);
    } else if new_ != [] {
      SpentSame(old_[..|old_| - 1], new_[..|new_| - 1], e);
    }
  }

  /** Tracking starts at the first degraded poll. */
  lemma FreshIsSound(cfg: Config, r: Record)
    requires Sound(cfg, r) && !Open(r) && r.state.None?
    ensures Sound(cfg, r.(state := Some(FRESH)))
  {
    UnusedEpoch(r.heals, r.epoch);
  }

  /** t is s with other poll counters. */
  predicate SameOutage(s: StackState, t: StackState) {
    t == s.(degraded := t.degraded, healthy := t.healthy, recoveredAt := t.recoveredAt)
  }

  lemma StartTells(s: StackState, heals: seq<Redeploy>, notices: seq<Notice>, epoch: nat, t: StackState, h: Redeploy)
    requires StateTells(Some(s), heals, notices, epoch) && !OpenIn(heals) && h.epoch == epoch && h.end.None?
    requires SameOutage(s, t) && !t.exhausted
    ensures StateTells(Some(t), heals + [h], notices, epoch)
  {
    if t.attempts > 0 {
      var i: nat :| FirstRun(heals, epoch, i) && t.firstTry == heals[i].end.value.first && t.drift == heals[i].drift;
      assert FirstRun(heals + [h], epoch, i);
    }
  }

  lemma StartKeepsNotices(cfg: Config, heals: seq<Redeploy>, notices: seq<Notice>, h: Redeploy)
    requires NoticesTell(cfg, heals, notices) && forall i :: 0 <= i < |notices| ==> notices[i].epoch < h.epoch
    ensures NoticesTell(cfg, heals + [h], notices)
  {
    forall i | 0 <= i < |notices|
      ensures NoticeTells(cfg, heals + [h], notices[i])
    {
      NoticesSurvive(cfg, heals, heals + [h], notices[i]);
    }
  }

  lemma StartIsSound(cfg: Config, r: Record, t: StackState, h: Redeploy)
    requires Sound(cfg, r) && !Open(r) && h.epoch == r.epoch && h.end.None?
    requires r.state.Some? && SameOutage(r.state.value, t) && !t.exhausted
    requires t.attempts < cfg.maxAttempts && (t.lastTry.Some? ==> h.startedAt - t.lastTry.value >= cfg.cooldown)
    ensures Sound(cfg, r.(state := Some(t), heals := r.heals + [h]))
  {
    StartKeepsBudget(cfg, r.heals, h);
    StartKeepsNotices(cfg, r.heals, r.notices, h);
    StartTells(r.state.value, r.heals, r.notices, r.epoch, t, h);
  }

  lemma CountingIsSound(cfg: Config, r: Record, t: StackState)
    requires Sound(cfg, r) && !Open(r) && r.state.Some? && SameOutage(r.state.value, t)
    ensures Sound(cfg, r.(state := Some(t)))
  {
  }

  lemma NoticeIsAdded(cfg: Config, heals: seq<Redeploy>, notices: seq<Notice>, n: Notice)
    requires NoticesTell(cfg, heals, notices) && NoticeTells(cfg, heals, n)
    requires forall i :: 0 <= i < |notices| ==> notices[i].epoch < n.epoch
    requires forall i :: 0 <= i < |heals| ==> heals[i].end.Some?
    ensures NoticesTell(cfg, heals, notices + [n])
  {
  }

  lemma GivingUpIsSound(cfg: Config, r: Record, t: StackState)
    requires Sound(cfg, r) && !Open(r) && r.state.Some? && SameOutage(r.state.value, t.(exhausted := false))
    requires t.exhausted && t.attempts >= cfg.maxAttempts
    ensures Sound(cfg, r.(state := Some(t), notices := r.notices + [Exhausted(r.epoch)]))
  {
    NoticeIsAdded(cfg, r.heals, r.notices, Exhausted(r.epoch));
  }

  /** What a poll may decide, apart from what its counters are. */
  ghost predicate Decided(cfg: Config, s: StackState, p: Poll, now: int) {
    match p.verdict
    case Wait => p.state.Some? && SameOutage(s, p.state.value)
    case StartHeal =>
      && p.state.Some? && SameOutage(s, p.state.value) && !s.exhausted && s.attempts < cfg.maxAttempts
      && (s.lastTry.Some? ==> now - s.lastTry.value >= cfg.cooldown)
    case GiveUp =>
      && p.state.Some? && SameOutage(s, p.state.value.(exhausted := false)) && p.state.value.exhausted
      && !s.exhausted && s.attempts >= cfg.maxAttempts
    case OutageEnds(healed, after, d) => p.state.None? && healed == (s.attempts > 0 && !s.exhausted) && d == s.drift
  }

  lemma DecisionIsSound(cfg: Config, r: Record, p: Poll, drift: seq<Drift>, now: int)
    requires Sound(cfg, r) && !Open(r) && r.state.Some? && Decided(cfg, r.state.value, p, now)
    ensures Sound(cfg, Recorded(r, p, drift, now))
  {
    var n := Recorded(r, p, drift, now);
    match p.verdict
    case StartHeal =>
      var h := Redeploy(r.epoch, now, drift, None);
      StartIsSound(cfg, r, p.state.value, h);
      assert n == r.(state := Some(p.state.value), heals := r.heals + [h]);
    case GiveUp =>
      GivingUpIsSound(cfg, r, p.state.value);
      assert n == r.(state := Some(p.state.value), notices := r.notices + [Exhausted(r.epoch)]);
    case OutageEnds(healed, after, d) =>
      assert n.notices == if healed then r.notices + [Healed(r.epoch, after, d, after + r.state.value.firstTry)]
          else r.notices;
    case Wait =>
      CountingIsSound(cfg, r, p.state.value);
      assert n == r.(state := Some(p.state.value));
  }

  lemma FreshPollIsSound(cfg: Config, r: Record, drift: seq<Drift>, now: int)
    requires Sound(cfg, r) && !Open(r) && r.state.None?
    ensures Sound(cfg, Recorded(r, Evaluate(cfg, None, Degraded, now), drift, now))
  {
    var p, tracked := Evaluate(cfg, Some(FRESH), Degraded, now), r.(state := Some(FRESH));
    FreshIsSound(cfg, r);
    DecisionIsSound(cfg, tracked, p, drift, now);
    FreshDecides(cfg, now);
    assert Recorded(tracked, p, drift, now) == Recorded(r, p, drift, now);
  }

  lemma FreshDecides(cfg: Config, now: int)
    ensures Evaluate(cfg, None, Degraded, now) == Evaluate(cfg, Some(FRESH), Degraded, now)
    ensures !Evaluate(cfg, None, Degraded, now).verdict.OutageEnds?
  {
  }

  /** A poll keeps the budget and the notices in order. */
  lemma PollIsSound(cfg: Config, r: Record, status: Status, drift: seq<Drift>, now: int)
    requires Sound(cfg, r) && !Open(r)
    ensures Sound(cfg, AfterPoll(cfg, r, status, drift, now))
  {
    var seen := r.(looks := r.looks + [Look(status, now)]);
    if r.state.Some? {
      DecisionIsSound(cfg, seen, Evaluate(cfg, r.state, Classify(status), now), drift, now);
    } else if Classify(status).Degraded? {
      FreshPollIsSound(cfg, seen, drift, now);
    }
  }

  lemma PollOpens(cfg: Config, r: Record, status: Status, drift: seq<Drift>, now: int)
    requires !Open(r)
    ensures var p := Evaluate(cfg, r.state, Classify(status), now);
      var after := AfterPoll(cfg, r, status, drift, now);
      p.state == after.state && (Open(after) <==> p.verdict.StartHeal?)
  {
  }

  /** A reset, whether the healer is idle or running, keeps them. */
  lemma ResetIsSound(cfg: Config, r: Record)
    requires Sound(cfg, r)
    ensures Sound(cfg, AfterReset(r)) && Counted(AfterReset(r))
    ensures Open(AfterReset(r)) <==> Open(r)
  {
  }

  /** The newest redeploy, once its result is known. */
  function Closed(heals: seq<Redeploy>, end: Ended): (closed: seq<Redeploy>)
    requires heals != []
  {
    heals[..|heals| - 1] + [heals[|heals| - 1].(end := Some(end))]
  }

  lemma ClosingSpends(heals: seq<Redeploy>, end: Ended, e: nat)
    requires heals != [] && heals[|heals| - 1].end.None?
    ensures Spent(Closed(heals, end), e) ==
            Spent(heals, e) - (if !end.ran && heals[|heals| - 1].epoch == e then 1 else 0)
  {
    assert Closed(heals, end)[..|heals| - 1] == heals[..|heals| - 1];
  }

  lemma ClosingKeepsBudget(cfg: Config, heals: seq<Redeploy>, end: Ended)
    requires WithinBudget(cfg, heals) && heals != [] && heals[|heals| - 1].end.None?
    ensures WithinBudget(cfg, Closed(heals, end))
  {
    forall e: nat
      ensures Spent(Closed(heals, end), e) <= cfg.maxAttempts
    {
      ClosingSpends(heals, end, e);
    }
  }

  lemma ClosingKeepsNotices(cfg: Config, heals: seq<Redeploy>, notices: seq<Notice>, end: Ended)
    requires NoticesTell(cfg, heals, notices) && heals != [] && heals[|heals| - 1].end.None?
    ensures NoticesTell(cfg, Closed(heals, end), notices)
  {
    forall i | 0 <= i < |notices|
      ensures NoticeTells(cfg, Closed(heals, end), notices[i])
    {
      NoticesSurvive(cfg, heals, Closed(heals, end), notices[i]);
    }
  }

  lemma ClosingTells(s: Option<StackState>, heals: seq<Redeploy>, notices: seq<Notice>, epoch: nat, end: Ended,
                     declines: bool)
    requires StateTells(s, heals, notices, epoch) && OpenIn(heals) && end.first <= end.last
    requires forall i :: 0 <= i < |heals| && RanIn(heals[i], epoch) ==> heals[i].end.value.last <= end.last
    ensures StateTells(Returned(s, heals[|heals| - 1].drift, end.ran, declines, end.first, end.last),
            Closed(heals, end), notices, epoch)
  {
    var k := |heals| - 1;
    var after := Closed(heals, end);
    ClosingSpends(heals, end, epoch);
    if s.Some? {
      if s.value.attempts > 0 {
        var i: nat :| FirstRun(heals, epoch, i) && s.value.firstTry == heals[i].end.value.first
            && s.value.drift == heals[i].drift;
        assert FirstRun(after, epoch, i);
      } else if end.ran {
        assert FirstRun(after, epoch, k);
      }
    }
  }

  /** The end of a redeploy keeps them, also when the stack was reset while it ran. */
  lemma ReturnIsSound(cfg: Config, r: Record, ran: bool, declines: bool, first: int, last: int)
    requires Sound(cfg, r) && Open(r) && r.heals[|r.heals| - 1].startedAt <= first <= last
    ensures Sound(cfg, AfterReturn(r, ran, declines, first, last)) && !Open(AfterReturn(r, ran, declines, first, last))
  {
    var end := Ended(ran, first, last);
    ClosingKeepsBudget(cfg, r.heals, end);
    ClosingKeepsNotices(cfg, r.heals, r.notices, end);
    ClosingTells(r.state, r.heals, r.notices, r.epoch, end, declines);
  }

  // ---------- what the counters count ----------

  /** What counts as an outage, and as its end; a starting or unknown stack is neither. */
  const DOWN: set<Status> := {H.Unhealthy, H.Stopped}
  const UP: set<Status> := {H.Healthy}
  const NEITHER: set<Status> := {H.Starting, H.Unknown}

  /** How many of the newest looks in a row show one of the statuses, starting and unknown looks apart. */
  function Trailing(looks: seq<Look>, row: set<Status>): nat {
    if looks == [] then 0
    else
      var front, last := looks[..|looks| - 1], looks[|looks| - 1];
      if last.status in row then 1 + Trailing(front, row)
      else if last.status in NEITHER then Trailing(front, row)
      else 0
  }

  /** The time of the first look of that row. */
  function Since(looks: seq<Look>, row: set<Status>): Option<int> {
    if looks == [] then None
    else
      var front, last := looks[..|looks| - 1], looks[|looks| - 1];
      if last.status in row then (if Since(front, row).Some? then Since(front, row) else Some(last.at))
      else if last.status in NEITHER then Since(front, row) else None
  }

  lemma StatusesAreClassified(s: Status)
    ensures Classify(s).Degraded? <==> s in DOWN
    ensures Classify(s).Recovered? <==> s in UP
    ensures Classify(s).Ignore? <==> s in NEITHER
  {
  }

  /** The counters of a tracked stack are the epoch's looks. */
  ghost predicate LooksTell(state: Option<StackState>, looks: seq<Look>) {
    if state.None? then Trailing(looks, DOWN) == 0
    else
      var s := state.value;
      && (!s.exhausted ==> s.degraded == Trailing(looks, DOWN))
      && s.healthy == Trailing(looks, UP)
      && (s.healthy > 0 ==> Since(looks, UP) == Some(s.recoveredAt))
  }

  /** The last try is a redeploy's end. */
  ghost predicate LastTryTells(state: Option<StackState>, heals: seq<Redeploy>, epoch: nat) {
    state.Some? && state.value.lastTry.Some? ==>
        exists i :: 0 <= i < |heals| && EndedAt(heals[i], epoch, state.value.lastTry.value)
  }

  predicate EndedAt(h: Redeploy, epoch: nat, at: int) {
    RanIn(h, epoch) && h.end.value.last == at
  }

  ghost predicate Counted(r: Record) {
    LooksTell(r.state, r.looks) && LastTryTells(r.state, r.heals, r.epoch)
  }

  lemma LookMore(looks: seq<Look>, l: Look, row: set<Status>)
    ensures Trailing(looks + [l], row) == if l.status in row then 1 + Trailing(looks, row)
            else if l.status in NEITHER then Trailing(looks, row) else 0
    ensures Since(looks + [l], row) ==
      if l.status in row then (if Since(looks, row).Some? then Since(looks, row) else Some(l.at))
          else if l.status in NEITHER then Since(looks, row) else None
  {
    assert (looks + [l])[..|looks|] == looks;
  }

  lemma {:induction false} RowsHaveAStart(looks: seq<Look>, row: set<Status>)
    ensures Trailing(looks, row) > 0 <==> Since(looks, row).Some?
    ensures !(Trailing(looks, DOWN) > 0 && Trailing(looks, UP) > 0)
  {
    if looks != [] {
      RowsHaveAStart(looks[..|looks| - 1], row);
    }
  }

  lemma PollCountsLook(cfg: Config, state: Option<StackState>, looks: seq<Look>, status: Status, now: int)
    requires LooksTell(state, looks)
    ensures var p := Evaluate(cfg, state, Classify(status), now);
      !p.verdict.OutageEnds? ==> LooksTell(p.state, looks + [Look(status, now)])
  {
    LookMore(looks, Look(status, now), DOWN);
    LookMore(looks, Look(status, now), UP);
    RowsHaveAStart(looks, UP);
    RowsHaveAStart(looks, DOWN);
    StatusesAreClassified(status);
  }

  lemma LastTryStays(state: Option<StackState>, after: Option<StackState>, heals: seq<Redeploy>, h: Redeploy,
                     epoch: nat)
    requires LastTryTells(state, heals, epoch)
    requires after.Some? && after.value.lastTry.Some? ==> state.Some? && state.value.lastTry == after.value.lastTry
    ensures LastTryTells(after, heals, epoch) && LastTryTells(after, heals + [h], epoch)
  {
    if after.Some? && after.value.lastTry.Some? {
      var i :| 0 <= i < |heals| && EndedAt(heals[i], epoch, state.value.lastTry.value);
      assert (heals + [h])[i] == heals[i];
    }
  }

  lemma PollIsCounted(cfg: Config, r: Record, status: Status, drift: seq<Drift>, now: int)
    requires Counted(r) && !Open(r)
    ensures Counted(AfterPoll(cfg, r, status, drift, now))
  {
    var p := Evaluate(cfg, r.state, Classify(status), now);
    PollCountsLook(cfg, r.state, r.looks, status, now);
    LastTryStays(r.state, p.state, r.heals, Redeploy(r.epoch, now, drift, None), r.epoch);
    RecordedIsCounted(r.(looks := r.looks + [Look(status, now)]), p, drift, now);
  }

  lemma RecordedIsCounted(r: Record, p: Poll, drift: seq<Drift>, now: int)
    requires if p.verdict.OutageEnds? then p.state.None? else LooksTell(p.state, r.looks)
    requires LastTryTells(p.state, r.heals, r.epoch)
             && LastTryTells(p.state, r.heals + [Redeploy(r.epoch, now, drift, None)], r.epoch)
    ensures Counted(Recorded(r, p, drift, now))
  {
  }

  lemma ReturnIsCounted(cfg: Config, r: Record, ran: bool, declines: bool, first: int, last: int)
    requires Counted(r) && Sound(cfg, r) && Open(r)
    ensures Counted(AfterReturn(r, ran, declines, first, last))
  {
    var n, k := AfterReturn(r, ran, declines, first, last), |r.heals| - 1;
    if n.state.Some? && n.state.value.lastTry.Some? {
      if ran {
        assert EndedAt(n.heals[k], n.epoch, last);
      } else {
        var i :| 0 <= i < |r.heals| && EndedAt(r.heals[i], r.epoch, r.state.value.lastTry.value);
        assert n.heals[i] == r.heals[i];
      }
    }
  }

  /** Every redeploy of the epoch that ran ended the cooldown ago. */
  ghost predicate CooledDown(cfg: Config, r: Record, now: int) {
    forall i :: 0 <= i < |r.heals| && RanIn(r.heals[i], r.epoch) ==> now - r.heals[i].end.value.last >= cfg.cooldown
  }

  /** When a poll of a stack that is not being healed acts, from what the polls read alone: it redeploys
      after minPolls looks in a row that found the stack unhealthy or stopped, with budget left and the
      cooldown over; it gives up when the budget is spent instead, once; and it ends an outage after minPolls
      healthy looks in a row. A stack that is starting or unknown stays as it is. */
  lemma PollActsIff(cfg: Config, r: Record, status: Status, now: int)
    requires Sound(cfg, r) && Counted(r) && !Open(r)
    ensures var looks, p := r.looks + [Look(status, now)], Evaluate(cfg, r.state, Classify(status), now);
      var v := p.verdict;
      var due := status in {H.Unhealthy, H.Stopped} && Trailing(looks, {H.Unhealthy, H.Stopped}) >= cfg.minPolls;
      && (v.StartHeal? <==> due && Spent(r.heals, r.epoch) < cfg.maxAttempts && CooledDown(cfg, r, now))
      && (v.GiveUp? <==> due && Spent(r.heals, r.epoch) >= cfg.maxAttempts && Exhausted(r.epoch) !in r.notices)
      && (v.OutageEnds? <==>
            r.state.Some? && status == H.Healthy && Trailing(looks, {H.Healthy}) >= cfg.minPolls)
      && (v.OutageEnds? ==>
            (v.healed <==> Spent(r.heals, r.epoch) >= 1 && Exhausted(r.epoch) !in r.notices))
      && (v.OutageEnds? && v.healed ==> Since(looks, {H.Healthy}) == Some(v.after + r.state.value.firstTry))
      && (status in {H.Starting, H.Unknown} ==> v.Wait? && p.state == r.state)
  {
    StateActsIff(cfg, r.state, r.looks, status, now);
    GaveUpIff(cfg, r);
    CooledDownIff(cfg, r, now);
  }

  /** The same, with what the engine remembers of the stack. */
  lemma StateActsIff(cfg: Config, state: Option<StackState>, looks: seq<Look>, status: Status, now: int)
    requires LooksTell(state, looks)
    ensures var all, p := looks + [Look(status, now)], Evaluate(cfg, state, Classify(status), now);
      var v, s := p.verdict, if state.Some? then state.value else FRESH;
      var due := status in {H.Unhealthy, H.Stopped} && Trailing(all, {H.Unhealthy, H.Stopped}) >= cfg.minPolls;
      var cool := s.lastTry.Some? ==> now - s.lastTry.value >= cfg.cooldown;
      && (v.StartHeal? <==> due && !s.exhausted && s.attempts < cfg.maxAttempts && cool)
      && (v.GiveUp? <==> due && !s.exhausted && s.attempts >= cfg.maxAttempts)
      && (v.OutageEnds? <==> state.Some? && status == H.Healthy && Trailing(all, {H.Healthy}) >= cfg.minPolls)
      && (v.OutageEnds? ==> (v.healed <==> s.attempts > 0 && !s.exhausted))
      && (v.OutageEnds? && v.healed ==> Since(all, {H.Healthy}) == Some(v.after + s.firstTry))
      && (status in {H.Starting, H.Unknown} ==> v.Wait? && p.state == state)
  {
    LookMore(looks, Look(status, now), DOWN);
    LookMore(looks, Look(status, now), UP);
    RowsHaveAStart(looks, UP);
    StatusesAreClassified(status);
  }

  lemma GaveUpIff(cfg: Config, r: Record)
    requires Sound(cfg, r) && !Open(r)
    ensures Exhausted(r.epoch) in r.notices <==> r.state.Some? && r.state.value.exhausted
    ensures Spent(r.heals, r.epoch) == if r.state.Some? then r.state.value.attempts else 0
  {
    if r.state.None? {
      UnusedEpoch(r.heals, r.epoch);
    }
  }

  lemma CooledDownIff(cfg: Config, r: Record, now: int)
    requires Sound(cfg, r) && Counted(r)
    ensures CooledDown(cfg, r, now) <==>
      (r.state.Some? && r.state.value.lastTry.Some? ==> now - r.state.value.lastTry.value >= cfg.cooldown)
  {
    if r.state.Some? && r.state.value.lastTry.Some? {
      var i :| 0 <= i < |r.heals| && EndedAt(r.heals[i], r.epoch, r.state.value.lastTry.value);
    }
  }
}
