/** The health watchdog over snapshots of many stacks (internal/healthwatch/watcher.go, state.go): a
    class whose every service follows HealthPolicy, and whose state file lags it by nothing accepted. */
module HealthWatch {
  import opened Options
  import opened HealthPolicy
  import opened HealthRestart
  import opened Sequences

  datatype Key = Key(stack: string, service: string)
  datatype StackState = StackState(lastDeploy: Option<DeployRecord>, services: map<string, seq<Phase>>,
                                   alerts: map<string, AlertRecord>)
  datatype ServiceHealth = ServiceHealth(name: string, status: Status)
  datatype StackHealth = StackHealth(status: Status, services: seq<ServiceHealth>)
  datatype Fired = Fired(key: Key, sent: Sent)

  const NEW_STACK := StackState(None, map[], map[])

  type Stacks = map<string, StackState>
  type Snapshot = map<string, StackHealth>

  function StackOf(stacks: Stacks, name: string): StackState {
    if name in stacks then stacks[name] else NEW_STACK
  }

  /** What the state knows of one service. */
  function ServiceOf(stacks: Stacks, pending: map<Key, PendingChange>, k: Key): Service {
    var s := StackOf(stacks, k.stack);
    Service(if k.service in s.services then s.services[k.service] else [],
            if k in pending then Some(pending[k]) else None,
            if k.service in s.alerts then Some(s.alerts[k.service]) else None)
  }

  /** The alerts one service's operator received. */
  function SentTo(fired: seq<Fired>, k: Key): seq<Sent> {
    if fired == [] then []
    else
      var last := fired[|fired| - 1];
      SentTo(fired[..|fired| - 1], k) + (if last.key == k then [last.sent] else [])
  }

  predicate Known(stacks: Stacks, k: Key) {
    k.service in StackOf(stacks, k.stack).services
  }

  /** One observation for each listed container of the service. */
  function Listed(services: seq<ServiceHealth>, svc: string, now: int, d: Option<DeployRecord>): seq<Step> {
    if services == [] then []
    else
      var last := services[|services| - 1];
      Listed(services[..|services| - 1], svc, now, d) + (if last.name == svc then [Obs(last.status, now, d)] else [])
  }

  predicate IsListed(services: seq<ServiceHealth>, svc: string) {
    exists i :: 0 <= i < |services| && services[i].name == svc
  }

  predicate ListedFor(k: Key, name: string, services: seq<ServiceHealth>) {
    k.stack == name && IsListed(services, k.service)
  }

  /** What a readable stack means for one service: each listed container's status, Stopped for a known
      service that is not listed, and the catch-up. */
  function StackSteps(services: seq<ServiceHealth>, known: bool, svc: string, now: int,
                      d: Option<DeployRecord>): seq<Step>
  {
    Listed(services, svc, now, d) + MissingSteps(services, known, svc, now, d) + [EndOfSnapshot(now, d)]
  }

  function MissingSteps(services: seq<ServiceHealth>, known: bool, svc: string, now: int,
                        d: Option<DeployRecord>): seq<Step>
  {
    if known && !IsListed(services, svc) then [Obs(Stopped, now, d)] else []
  }

  /** What a snapshot means for one service: nothing when its stack was not read. */
  function SnapshotSteps(snap: Snapshot, known: bool, k: Key, now: int, d: Option<DeployRecord>): seq<Step> {
    if k.stack !in snap || snap[k.stack].status.Unknown? then []
    else StackSteps(snap[k.stack].services, known, k.service, now, d)
  }

  /** What a service's history gains from one snapshot. Nothing when its stack was not probed or could not
      be read. Otherwise the end of the snapshot, and before it one observation: of its status when its
      container is listed, of a stopped service when a known one is not. */
  lemma {:induction false} SnapshotMeans(snap: Snapshot, known: bool, k: Key, now: int, d: Option<DeployRecord>,
                                         i: nat)
    ensures var steps := SnapshotSteps(snap, known, k, now, d);
      if k.stack !in snap || snap[k.stack].status == Unknown then steps == []
      else
        var services := snap[k.stack].services;
        && (ListedOnce(services, k.service, i) ==> steps == [Obs(services[i].status, now, d), EndOfSnapshot(now, d)])
        && ((forall j :: 0 <= j < |services| ==> services[j].name != k.service) ==>
              steps == (if known then [Obs(Stopped, now, d)] else []) + [EndOfSnapshot(now, d)])
  {
    if k.stack in snap {
      ListsNone(snap[k.stack].services, k.service, now, d);
      if ListedOnce(snap[k.stack].services, k.service, i) {
        ListsOne(snap[k.stack].services, k.service, i, now, d);
      }
    }
  }

  predicate ListedOnce(services: seq<ServiceHealth>, svc: string, i: nat) {
    && i < |services| && services[i].name == svc
    && forall j :: 0 <= j < |services| && services[j].name == svc ==> j == i
  }

  lemma {:induction false} ListsNone(services: seq<ServiceHealth>, svc: string, now: int, d: Option<DeployRecord>)
    ensures (forall j :: 0 <= j < |services| ==> services[j].name != svc) ==> Listed(services, svc, now, d) == []
  {
    if services != [] {
      ListsNone(services[..|services| - 1], svc, now, d);
    }
  }

  lemma {:induction false} ListsOne(services: seq<ServiceHealth>, svc: string, i: nat, now: int,
                                    d: Option<DeployRecord>)
    requires ListedOnce(services, svc, i)
    ensures Listed(services, svc, now, d) == [Obs(services[i].status, now, d)]
  {
    var front := services[..|services| - 1];
    if i < |front| {
      ListsOne(front, svc, i, now, d);
    } else {
      ListsNone(front, svc, now, d);
    }
  }

  lemma StackStepsCompose(cfg: Config, w: Watch, services: seq<ServiceHealth>, known: bool, svc: string, now: int,
                          d: Option<DeployRecord>)
    ensures NextAll(cfg, w, StackSteps(services, known, svc, now, d)) ==
      var listed := NextAll(cfg, w, Listed(services, svc, now, d));
      Next(cfg, NextAll(cfg, listed, MissingSteps(services, known, svc, now, d)), EndOfSnapshot(now, d))
  {
    var steps := StackSteps(services, known, svc, now, d);
    assert steps[..|steps| - 1] == Listed(services, svc, now, d) + MissingSteps(services, known, svc, now, d);
    NextAllSplits(cfg, w, Listed(services, svc, now, d), MissingSteps(services, known, svc, now, d));
  }

  lemma ListedMore(cfg: Config, w: Watch, services: seq<ServiceHealth>, i: nat, svc: string, now: int,
                   d: Option<DeployRecord>)
    requires i < |services|
    ensures var before := NextAll(cfg, w, Listed(services[..i], svc, now, d));
      NextAll(cfg, w, Listed(services[..i + 1], svc, now, d)) ==
        if services[i].name == svc then Next(cfg, before, Obs(services[i].status, now, d)) else before
  {
    var l := Listed(services[..i], svc, now, d);
    assert services[..i + 1][..i] == services[..i];
    if services[i].name == svc {
      assert (l + [Obs(services[i].status, now, d)])[..|l|] == l;
    } else {
      assert l + [] == l;
    }
  }

  lemma ListedMoreNames(services: seq<ServiceHealth>, i: nat, svc: string)
    requires i < |services|
    ensures IsListed(services[..i + 1], svc) <==> services[i].name == svc || IsListed(services[..i], svc)
  {
    if IsListed(services[..i], svc) {
      var j :| 0 <= j < i && services[..i][j].name == svc;
      assert services[..i + 1][j].name == svc;
    }
    assert services[..i + 1][i] == services[i];
  }

  /** A counted change is pending, or accepted whatever was pending. */
  lemma ChangeIsCounted(cfg: Config, w: Watch, p: PendingChange, s: Step)
    requires s.Obs? && w.v.phases != [] && s.status != w.v.phases[0].status && p == Counted(w.v, s.status, s.now)
    ensures var pending := w.(v := w.v.(pending := Some(p)));
      Next(cfg, w, s) == if p.count < cfg.debounce then pending
          else Sending(pending, Accept(cfg, pending.v, p, s.now, s.d), s.now)
  {
  }

  class Watcher {
    const cfg: Config
    var stacks: Stacks
    var pending: map<Key, PendingChange>
    var fired: seq<Fired>
    var dirty: bool
    var file: Stacks
    /** Per service: where it stood when the process began to follow it, its steps since, and how many of
        them the state file knows. */
    ghost var base: Key -> Watch
    ghost var history: Key -> seq<Step>
    ghost var saved: Key -> nat

    /** Every service is where its history puts it, and the file where an earlier part of it does. */
    ghost predicate Valid()
      reads this
    {
      cfg.debounce >= 1 && forall k :: Follows(k)
    }

    ghost predicate Follows(k: Key)
      reads this
    {
      FollowsFrom(cfg, base(k), history(k), saved(k), WatchAt(k), OnFile(k))
    }

    /** What a new process would know of the service. */
    function OnFile(k: Key): Service
      reads this
    {
      ServiceOf(file, map[], k)
    }

    ghost predicate UpToDate(k: Key)
      reads this
    {
      OnFile(k) == Resting(WatchAt(k).v)
    }

    function WatchAt(k: Key): Watch
      reads this
    {
      Watch(ServiceOf(stacks, pending, k), SentTo(fired, k))
    }

    function DeployOf(stack: string): Option<DeployRecord>
      reads this
    {
      StackOf(stacks, stack).lastDeploy
    }

    constructor (c: Config, disk: Stacks)
      ensures cfg == c.(debounce := if c.debounce < 1 then 2 else c.debounce)
      ensures stacks == file == disk && pending == map[] && fired == [] && !dirty
      ensures Valid() && forall k :: history(k) == [] && base(k) == Watch(ServiceOf(disk, map[], k), [])
    {
      base, history, saved := k => Watch(ServiceOf(disk, map[], k), []), _ => [], _ => 0;
      cfg := c.(debounce := if c.debounce < 1 then 2 else c.debounce);
      stacks, file, pending, fired, dirty := disk, disk, map[], [], false;
    }

    method ObserveDeploy(stack: string, success: bool, commits: seq<string>, at: int)
      modifies this`stacks, this`dirty
      ensures forall s :: DeployOf(s) == if success && s == stack
                                         then Some(DeployRecord(if commits == [] then "" else commits[0], at))
                                         else old(DeployOf(s))
      ensures forall k :: WatchAt(k) == old(WatchAt(k)) && Known(stacks, k) == old(Known(stacks, k))
      ensures old(Valid()) ==> Valid()
      ensures dirty == (success || old(dirty)) && (!success ==> stacks == old(stacks))
    {
      if !success {
        return;
      }
      var d := DeployRecord(if |commits| > 0 then commits[0] else "", at);
      stacks := stacks[stack := StackOf(stacks, stack).(lastDeploy := Some(d))];
      dirty := true;
      assert forall k :: old(Follows(k)) ==> Follows(k);
    }

    method WriteRecord(k: Key, r: AlertRecord)
      modifies this`stacks
      ensures WatchAt(k) == old(WatchAt(k)).(v := old(WatchAt(k).v).(rec := Some(r)))
      ensures forall o :: o != k ==> WatchAt(o) == old(WatchAt(o))
      ensures forall s :: DeployOf(s) == old(DeployOf(s))
      ensures forall o :: Known(stacks, o) == old(Known(stacks, o))
    {
      var s := StackOf(stacks, k.stack);
      stacks := stacks[k.stack := s.(alerts := s.alerts[k.service := r])];
    }

    method Deliver(k: Key, a: Alert, now: int)
      modifies this`stacks, this`fired, this`dirty
      ensures WatchAt(k) == Watch(Delivered(cfg, old(WatchAt(k).v), a.to, now), old(WatchAt(k).sent) + [Sent(a, now)])
      ensures forall o :: o != k ==> WatchAt(o) == old(WatchAt(o))
      ensures forall s :: DeployOf(s) == old(DeployOf(s))
      ensures forall o :: Known(stacks, o) == old(Known(stacks, o))
      ensures if cfg.cooldown > 0 then dirty else stacks == old(stacks) && dirty == old(dirty)
    {
      if cfg.cooldown > 0 {
        var r := RecordOf(WatchAt(k).v);
        if a.to.Unhealthy? {
          r := r.(unhealthyAt := Some(now));
        } else {
          r := r.(recoveredAt := Some(now));
        }
        WriteRecord(k, r.(suppressed := false));
        dirty := true;
      }
      Fire(k, a, now);
    }

    method Fire(k: Key, a: Alert, now: int)
      modifies this`fired
      ensures WatchAt(k) == old(WatchAt(k)).(sent := old(WatchAt(k).sent) + [Sent(a, now)])
      ensures forall o :: o != k ==> WatchAt(o) == old(WatchAt(o))
    {
      fired := fired + [Fired(k, Sent(a, now))];
      assert fired[..|fired| - 1] == old(fired);
    }

    /** Installs an accepted change; the alert is still to be decided. */
    method RecordPhase(k: Key, p: PendingChange)
      requires WatchAt(k).v.phases != []
      modifies this`stacks, this`pending, this`dirty
      ensures var v := old(WatchAt(k).v);
        var phase := Phase(p.status, p.since, CommitFor(DeployOf(k.stack)));
        WatchAt(k).v == v.(phases := Trimmed([phase] + v.phases), pending := None)
      ensures forall o :: o != k ==> WatchAt(o) == old(WatchAt(o))
      ensures forall s :: DeployOf(s) == old(DeployOf(s))
      ensures forall o :: Known(stacks, o) == old(Known(stacks, o))
      ensures dirty
    {
      SetPending(k, None);
      var s := stacks[k.stack];
      var hist := [Phase(p.status, p.since, CommitFor(s.lastDeploy))] + s.services[k.service];
      if |hist| > MAX_PHASES {
        hist := hist[..MAX_PHASES];
      }
      stacks := stacks[k.stack := s.(services := s.services[k.service := hist])];
      dirty := true;
    }

    method SetBaseline(k: Key, status: Status, now: int)
      requires WatchAt(k).v.phases == []
      modifies this`stacks, this`dirty
      ensures WatchAt(k) == Next(cfg, old(WatchAt(k)), Obs(status, now, DeployOf(k.stack)))
      ensures forall o :: o != k ==> WatchAt(o) == old(WatchAt(o))
      ensures forall s :: DeployOf(s) == old(DeployOf(s))
      ensures forall o :: Known(stacks, o) == (o == k || old(Known(stacks, o)))
      ensures dirty
    {
      var s := StackOf(stacks, k.stack);
      var first := Phase(status, now, CommitFor(s.lastDeploy));
      stacks := stacks[k.stack := s.(services := s.services[k.service := [first]])];
      dirty := true;
    }

    method SetPending(k: Key, p: Option<PendingChange>)
      modifies this`pending
      ensures WatchAt(k) == old(WatchAt(k)).(v := old(WatchAt(k).v).(pending := p))
      ensures forall o :: o != k ==> WatchAt(o) == old(WatchAt(o))
    {
      pending := if p.None? then pending - {k} else pending[k := p.value];
    }

    /** One observation of one service. */
    method ObserveService(k: Key, status: Status, now: int)
      modifies this`stacks, this`pending, this`fired, this`dirty
      ensures WatchAt(k) == Next(cfg, old(WatchAt(k)), Obs(status, now, DeployOf(k.stack)))
      ensures forall o :: o != k ==> WatchAt(o) == old(WatchAt(o))
      ensures forall s :: DeployOf(s) == old(DeployOf(s))
      ensures forall o :: Known(stacks, o) == (o == k || old(Known(stacks, o)))
      ensures dirty || (!old(dirty) && stacks == old(stacks))
    {
      var v := WatchAt(k).v;
      if v.phases == [] {
        SetBaseline(k, status, now);
        return;
      }
      if status == v.phases[0].status {
        SetPending(k, None);
        return;
      }
      CountChange(k, status, now);
    }

    /** One more observation of a status that is not the accepted one. */
    method CountChange(k: Key, status: Status, now: int)
      requires WatchAt(k).v.phases != [] && status != WatchAt(k).v.phases[0].status
      modifies this`stacks, this`pending, this`fired, this`dirty
      ensures WatchAt(k) == Next(cfg, old(WatchAt(k)), Obs(status, now, DeployOf(k.stack)))
      ensures forall o :: o != k ==> WatchAt(o) == old(WatchAt(o))
      ensures forall s :: DeployOf(s) == old(DeployOf(s))
      ensures forall o :: Known(stacks, o) == old(Known(stacks, o))
      ensures dirty || (!old(dirty) && stacks == old(stacks))
    {
      var v := WatchAt(k).v;
      var p := if v.pending.Some? && v.pending.value.status == status then v.pending.value
          else PendingChange(status, 0, now);
      p := p.(count := p.count + 1);
      ChangeIsCounted(cfg, WatchAt(k), p, Obs(status, now, DeployOf(k.stack)));
      SetPending(k, Some(p));
      if p.count >= cfg.debounce {
        AcceptChange(k, p, now);
      }
    }

    /** The pending change reached the debounce. */
    method AcceptChange(k: Key, p: PendingChange, now: int)
      requires WatchAt(k).v.phases != []
      modifies this`stacks, this`pending, this`fired, this`dirty
      ensures WatchAt(k) == Sending(old(WatchAt(k)), Accept(cfg, old(WatchAt(k).v), p, now, DeployOf(k.stack)), now)
      ensures forall o :: o != k ==> WatchAt(o) == old(WatchAt(o))
      ensures forall s :: DeployOf(s) == old(DeployOf(s))
      ensures forall o :: Known(stacks, o) == old(Known(stacks, o))
      ensures dirty
    {
      var cur := stacks[k.stack].services[k.service][0].status;
      RecordPhase(k, p);
      if !cfg.alerter || !AlertWorthy(cur, p.status) {
        return;
      }
      if InCooldown(cfg, WatchAt(k).v, p.status, now) {
        WriteRecord(k, RecordOf(WatchAt(k).v).(suppressed := true));
        return;
      }
      Deliver(k, AlertFor(cfg, WatchAt(k).v.phases, DeployOf(k.stack)), now);
    }

    method ObserveListed(name: string, services: seq<ServiceHealth>, now: int)
      modifies this`stacks, this`pending, this`fired, this`dirty
      ensures forall k :: WatchAt(k) == if k.stack == name
                            then NextAll(cfg, old(WatchAt(k)), Listed(services, k.service, now, DeployOf(name)))
                            else old(WatchAt(k))
      ensures forall s :: DeployOf(s) == old(DeployOf(s))
      ensures forall k :: Known(stacks, k) == (old(Known(stacks, k)) || ListedFor(k, name, services))
      ensures dirty || (!old(dirty) && stacks == old(stacks))
    {
      ghost var d := DeployOf(name);
      for i := 0 to |services|
        invariant forall k :: WatchAt(k) == if k.stack == name
                                then NextAll(cfg, old(WatchAt(k)), Listed(services[..i], k.service, now, d))
                                else old(WatchAt(k))
        invariant forall s :: DeployOf(s) == old(DeployOf(s))
        invariant forall k :: Known(stacks, k) == (old(Known(stacks, k)) || ListedFor(k, name, services[..i]))
        invariant dirty || (!old(dirty) && stacks == old(stacks))
      {
        forall k: Key | k.stack == name
          ensures var before := NextAll(cfg, old(WatchAt(k)), Listed(services[..i], k.service, now, d));
            NextAll(cfg, old(WatchAt(k)), Listed(services[..i + 1], k.service, now, d)) ==
              if services[i].name == k.service then Next(cfg, before, Obs(services[i].status, now, d)) else before
          ensures IsListed(services[..i + 1], k.service) <==>
                  services[i].name == k.service || IsListed(services[..i], k.service)
        {
          ListedMore(cfg, old(WatchAt(k)), services, i, k.service, now, d);
          ListedMoreNames(services, i, k.service);
        }
        ObserveService(Key(name, services[i].name), services[i].status, now);
      }
      assert services[..|services|] == services;
    }

    /** A known service missing from the listing has no container any more. */
    method ObserveMissing(name: string, services: seq<ServiceHealth>, now: int)
      modifies this`stacks, this`pending, this`fired, this`dirty
      ensures forall k :: WatchAt(k) == if k.stack == name
                            then NextAll(cfg, old(WatchAt(k)),
                                MissingSteps(services, old(Known(stacks, k)), k.service, now, DeployOf(name)))
                            else old(WatchAt(k))
      ensures forall s :: DeployOf(s) == old(DeployOf(s))
      ensures forall k: Key :: k.stack != name ==> Known(stacks, k) == old(Known(stacks, k))
      ensures dirty || (!old(dirty) && stacks == old(stacks))
    {
      var known := StackOf(stacks, name).services.Keys;
      var todo := set svc | svc in known && !IsListed(services, svc);
      ghost var missing := todo;
      while todo != {}
        invariant todo <= missing
        invariant forall k: Key :: k.stack == name ==>
                  (k.service in missing <==> old(Known(stacks, k)) && !IsListed(services, k.service))
        invariant forall k :: WatchAt(k) == if k.stack == name && k.service in missing - todo
                                then Next(cfg, old(WatchAt(k)), Obs(Stopped, now, DeployOf(name)))
                                else old(WatchAt(k))
        invariant forall s :: DeployOf(s) == old(DeployOf(s))
        invariant forall k: Key :: k.stack != name ==> Known(stacks, k) == old(Known(stacks, k))
        invariant dirty || (!old(dirty) && stacks == old(stacks))
        decreases |todo|
      {
        var svc :| svc in todo;
        ObserveService(Key(name, svc), Stopped, now);
        todo := todo - {svc};
      }
      forall k: Key | k.stack == name
        ensures WatchAt(k) == NextAll(cfg, old(WatchAt(k)),
                MissingSteps(services, old(Known(stacks, k)), k.service, now, DeployOf(name)))
      {
      }
    }

    method CatchUpService(k: Key, now: int)
      requires cfg.cooldown > 0 && cfg.alerter
      modifies this`stacks, this`fired, this`dirty
      ensures WatchAt(k) == Next(cfg, old(WatchAt(k)), EndOfSnapshot(now, DeployOf(k.stack)))
      ensures forall o :: o != k ==> WatchAt(o) == old(WatchAt(o))
      ensures forall s :: DeployOf(s) == old(DeployOf(s))
      ensures forall o :: Known(stacks, o) == old(Known(stacks, o))
      ensures dirty || (!old(dirty) && stacks == old(stacks))
    {
      var v := WatchAt(k).v;
      if v.rec.None? || !v.rec.value.suppressed || |v.phases| < 2 {
        return;
      }
      if !Owes(v) {
        WriteRecord(k, v.rec.value.(suppressed := false));
        dirty := true;
        return;
      }
      if InCooldown(cfg, v, v.phases[0].status, now) {
        return;
      }
      Deliver(k, AlertFor(cfg, v.phases, DeployOf(k.stack)), now);
    }

    method CatchUpStack(name: string, now: int)
      modifies this`stacks, this`fired, this`dirty
      ensures forall k :: WatchAt(k) == if k.stack == name
                            then Next(cfg, old(WatchAt(k)), EndOfSnapshot(now, DeployOf(name)))
                            else old(WatchAt(k))
      ensures forall s :: DeployOf(s) == old(DeployOf(s))
      ensures forall o :: Known(stacks, o) == old(Known(stacks, o))
      ensures dirty || (!old(dirty) && stacks == old(stacks))
    {
      if cfg.cooldown <= 0 || !cfg.alerter {
        return;
      }
      var todo := StackOf(stacks, name).alerts.Keys;
      while todo != {}
        invariant forall k :: WatchAt(k) == if k.stack == name && k.service !in todo
                                then Next(cfg, old(WatchAt(k)), EndOfSnapshot(now, DeployOf(name)))
                                else old(WatchAt(k))
        invariant forall s :: DeployOf(s) == old(DeployOf(s))
        invariant forall o :: Known(stacks, o) == old(Known(stacks, o))
        invariant dirty || (!old(dirty) && stacks == old(stacks))
        decreases |todo|
      {
        var svc :| svc in todo;
        CatchUpService(Key(name, svc), now);
        todo := todo - {svc};
      }
    }

    method ObserveStack(name: string, services: seq<ServiceHealth>, now: int)
      modifies this`stacks, this`pending, this`fired, this`dirty
      ensures forall k :: WatchAt(k) == if k.stack == name
                            then NextAll(cfg, old(WatchAt(k)),
                                StackSteps(services, old(Known(stacks, k)), k.service, now, DeployOf(name)))
                            else old(WatchAt(k))
      ensures forall s :: DeployOf(s) == old(DeployOf(s))
      ensures forall k: Key :: k.stack != name ==> Known(stacks, k) == old(Known(stacks, k))
      ensures dirty || (!old(dirty) && stacks == old(stacks))
    {
      ObserveListed(name, services, now);
      ObserveMissing(name, services, now);
      CatchUpStack(name, now);
      forall k: Key | k.stack == name
        ensures WatchAt(k) == NextAll(cfg, old(WatchAt(k)),
                StackSteps(services, old(Known(stacks, k)), k.service, now, DeployOf(name)))
      {
        StackStepsCompose(cfg, old(WatchAt(k)), services, old(Known(stacks, k)), k.service, now, DeployOf(name));
      }
    }

    method ObserveStacks(snap: Snapshot, now: int)
      modifies this`stacks, this`pending, this`fired, this`dirty
      ensures forall k ::
                WatchAt(k) == NextAll(cfg, old(WatchAt(k)),
                    SnapshotSteps(snap, old(Known(stacks, k)), k, now, old(DeployOf(k.stack))))
      ensures forall s :: DeployOf(s) == old(DeployOf(s))
      ensures dirty || (!old(dirty) && stacks == old(stacks))
    {
      var todo := snap.Keys;
      while todo != {}
        invariant todo <= snap.Keys
        invariant forall k :: WatchAt(k) == if k.stack in todo then old(WatchAt(k))
                                else NextAll(cfg, old(WatchAt(k)),
                                    SnapshotSteps(snap, old(Known(stacks, k)), k, now, old(DeployOf(k.stack))))
        invariant forall k: Key :: k.stack in todo ==> Known(stacks, k) == old(Known(stacks, k))
        invariant forall s :: DeployOf(s) == old(DeployOf(s))
        invariant dirty || (!old(dirty) && stacks == old(stacks))
        decreases |todo|
      {
        var name :| name in todo;
        if !snap[name].status.Unknown? {
          ObserveStack(name, snap[name].services, now);
        }
        todo := todo - {name};
      }
    }

    /** One poller snapshot: every service takes its steps, and the state is saved once when anything
        was accepted. A failed save is logged and not repeated before the next change. */
    method Observe(snap: Snapshot, now: int, saves: bool)
      requires Valid()
      modifies this
      ensures Valid() && !dirty && base == old(base)
      ensures forall k ::
                var steps := SnapshotSteps(snap, old(Known(stacks, k)), k, now, old(DeployOf(k.stack)));
                history(k) == old(history(k)) + steps
      ensures if saves then old(dirty) || old(file == stacks) ==> file == stacks else file == old(file)
    {
      ghost var h, before, files := history, stacks, file;
      ObserveStacks(snap, now);
      history := k => h(k) + SnapshotSteps(snap, Known(before, k), k, now, StackOf(before, k.stack).lastDeploy);
      forall k
        ensures Follows(k)
      {
        ghost var more := SnapshotSteps(snap, Known(before, k), k, now, StackOf(before, k.stack).lastDeploy);
        assert old(Follows(k));
        NextAllSplits(cfg, base(k), h(k), more);
        assert (h(k) + more)[..saved(k)] == h(k)[..saved(k)];
      }
      if dirty {
        Save(saves);
      }
    }

    /** Writes the state once; a failed write leaves the file. */
    method Save(saves: bool)
      requires Valid()
      modifies this`file, this`dirty, this`saved
      ensures Valid() && !dirty && file == (if saves then stacks else old(file))
    {
      ghost var h := history;
      dirty := false;
      if saves {
        file := stacks;
        saved := k => |h(k)|;
      }
      forall k
        ensures Follows(k)
      {
        assert old(Follows(k));
        assert h(k)[..|h(k)|] == h(k);
      }
    }

    /** A new process loads the file: the debounce starts over. A service that the file is up to date about
        goes on with its history; any other goes back to the last saved part of it, whatever it fired since. */
    method Reload()
      requires Valid()
      modifies this
      ensures Valid() && stacks == file == old(file) && pending == map[] && fired == old(fired) && !dirty
      ensures forall k :: old(UpToDate(k)) ==> base(k) == old(base(k)) && history(k) == old(history(k)) + [Restart]
      ensures forall k :: !old(UpToDate(k)) ==>
                && history(k) == []
                && base(k) == AfterLostSave(cfg, old(base(k)), old(history(k)), old(saved(k)))
    {
      ghost var known := iset k: Key | UpToDate(k);
      ghost var b, h, m := base, history, saved;
      ghost var lost := k => AfterLostSave(cfg, b(k), h(k), m(k));
      stacks, pending, dirty := file, map[], false;
      base := k => if k in known then b(k) else lost(k);
      history := k => if k in known then h(k) + [Restart] else [];
      saved := k => if k in known then m(k) else 0;
      forall k
        ensures Follows(k)
      {
        assert old(Follows(k));
        ReloadedFollows(cfg, old(WatchAt(k)), OnFile(k), b(k), h(k), m(k));
        assert WatchAt(k) == Watch(OnFile(k), old(WatchAt(k)).sent);
      }
    }
  }

  /** In every reachable state of the watcher, for every service: well-formed phases; alerts of one
      direction a cooldown apart, when the record it started from knew them; and no accepted failure that
      is neither told nor owed, when that is so of every later state (HealthRestart.StaysToldIff). */
  lemma WatcherTells(w: Watcher, k: Key, clock: Option<int>)
    requires w.Valid() && w.cfg.alerter && w.cfg.cooldown > 0
    requires StartsSound(w.cfg, w.base(k), clock) && PacedAfter(clock, w.history(k))
    ensures var v, base := ServiceOf(w.stacks, w.pending, k), w.base(k);
      && (v.phases != [] ==> PhasesOk(v.phases))
      && (Spaced(w.cfg, base.sent) && RecordTells(base) ==> Spaced(w.cfg, SentTo(w.fired, k)))
      && (StaysTold(w.cfg, base, clock) && AcceptedUnhealthy(v) ==>
            LastSentUnhealthy(SentTo(w.fired, k)) || RecordOf(v).suppressed)
  {
    assert w.Follows(k);
    TimelineContinues(w.cfg, w.base(k), clock, w.history(k));
    if Spaced(w.cfg, w.base(k).sent) && RecordTells(w.base(k)) {
      SpacingContinues(w.cfg, w.base(k), w.history(k));
    }
    if StaysTold(w.cfg, w.base(k), clock) {
      StaysToldIff(w.cfg, w.base(k), clock);
      assert ToldOrOwed(NextAll(w.cfg, w.base(k), w.history(k)));
    }
  }

  /** A service that nothing is known of is a sound start, and everything is told from there. */
  lemma NewWatchIsSound(cfg: Config)
    ensures StartsSound(cfg, NEW_WATCH, None) && StaysTold(cfg, NEW_WATCH, None)
    ensures Spaced(cfg, NEW_WATCH.sent) && RecordTells(NEW_WATCH)
  {
  }

  lemma {:induction false} ListedAtMostOnce(services: seq<ServiceHealth>, svc: string, now: int,
                                            d: Option<DeployRecord>)
    requires forall i, j :: 0 <= i < j < |services| ==> services[i].name != services[j].name
    ensures if IsListed(services, svc) then exists st: Status :: Listed(services, svc, now, d) == [Obs(st, now, d)]
            else Listed(services, svc, now, d) == []
  {
    if services != [] {
      var front, last := services[..|services| - 1], services[|services| - 1];
      ListedAtMostOnce(front, svc, now, d);
      ListedMoreNames(services, |services| - 1, svc);
      assert services[..|services|] == services;
      if last.name == svc {
        assert !IsListed(front, svc);
        assert Listed(services, svc, now, d) == [Obs(last.status, now, d)];
      } else {
        assert Listed(services, svc, now, d) == Listed(front, svc, now, d);
      }
    }
  }

  /** Snapshots taken at later and later times, with distinct service names, keep histories paced. */
  lemma SnapshotsArePaced(h: seq<Step>, snap: Snapshot, known: bool, k: Key, now: int, d: Option<DeployRecord>)
    requires Paced(h) && (Clock(h).Some? ==> Clock(h).value < now)
    requires k.stack in snap ==>
               var l := snap[k.stack].services;
               forall i, j :: 0 <= i < j < |l| ==> l[i].name != l[j].name
    ensures Paced(h + SnapshotSteps(snap, known, k, now, d))
  {
    if k.stack !in snap || snap[k.stack].status.Unknown? {
      assert h + [] == h;
    } else {
      var l := snap[k.stack].services;
      ListedAtMostOnce(l, k.service, now, d);
      PacedVisit(h, Listed(l, k.service, now, d) + MissingSteps(l, known, k.service, now, d), now, d);
    }
  }

  lemma PacedVisit(h: seq<Step>, obs: seq<Step>, now: int, d: Option<DeployRecord>)
    requires Paced(h) && (Clock(h).Some? ==> Clock(h).value < now)
    requires |obs| <= 1 && (obs != [] ==> obs[0].Obs? && obs[0].now == now)
    ensures Paced(h + (obs + [EndOfSnapshot(now, d)]))
  {
    var end := EndOfSnapshot(now, d);
    Joined(h, obs, [end]);
    if obs == [] {
      assert h + obs == h;
      PacedMore(None, h, end);
    } else {
      assert obs == [obs[0]];
      PacedMore(None, h, obs[0]);
      PacedMore(None, h + obs, end);
    }
  }
}
