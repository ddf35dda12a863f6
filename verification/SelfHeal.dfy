/** The self-heal engine over all stacks (internal/selfheal/selfheal.go). Its lock is held for each
    method below but not between StartEvaluate and FinishHeal: while the healer runs, Reset may come
    from the deploy goroutine at any time, polls may not, as one goroutine polls and heals. */
module SelfHeal {
  import opened Options
  import opened SelfHealPolicy
  import H = HealthPolicy

  lemma ReturnHolds(cfg: Config, r: Record, drift: seq<Drift>, ran: bool, declines: bool, first: int, last: int)
    requires Sound(cfg, r) && Counted(r) && Open(r) && r.heals[|r.heals| - 1].drift == drift
    requires r.heals[|r.heals| - 1].startedAt <= first <= last
    ensures var n := AfterReturn(r, ran, declines, first, last);
      Sound(cfg, n) && Counted(n) && !Open(n) && n.state == Returned(r.state, drift, ran, declines, first, last)
  {
    ReturnIsSound(cfg, r, ran, declines, first, last);
    ReturnIsCounted(cfg, r, ran, declines, first, last);
  }

  class Engine {
    const cfg: Config
    var states: map<string, StackState>
    ghost var healing: Option<string>
    ghost var records: string -> Record

    function StateOf(stack: string): Option<StackState>
      reads this
    {
      if stack in states then Some(states[stack]) else None
    }

    /** Every stack's state is where its record puts it, and its record is sound; a redeploy is open
        exactly for the stack being healed. */
    ghost predicate Valid()
      reads this
    {
      Tracked() && forall s :: Open(records(s)) <==> healing == Some(s)
    }

    ghost predicate Tracked()
      reads this
    {
      forall s :: records(s).state == StateOf(s) && Sound(cfg, records(s)) && Counted(records(s))
    }

    constructor (c: Config)
      ensures Valid() && cfg == c && healing.None? && forall s :: records(s) == UNTOUCHED
    {
      cfg, states, healing := c, map[], None;
      records := _ => UNTOUCHED;
      new;
      assert forall e: nat :: Spent(UNTOUCHED.heals, e) == 0;
    }

    method Install(stack: string, s: Option<StackState>, ghost r: Record)
      requires Tracked() && r.state == s && Sound(cfg, r) && Counted(r)
      modifies this`states, this`records
      ensures Tracked() && forall o :: records(o) == if o == stack then r else old(records(o))
    {
      states := if s.Some? then states[stack := s.value] else states - {stack};
      ghost var before := records;
      records := o => if o == stack then r else before(o);
    }

    /** Forgets what the snapshot does not name and what is not opted in. */
    method Prune(probed: set<string>, enabled: set<string>)
      requires Valid() && healing.None?
      modifies this`states, this`records
      ensures Valid()
      ensures forall s :: records(s) == if old(StateOf(s)).Some? && (s !in probed || s !in enabled)
                                        then AfterReset(old(records(s))) else old(records(s))
    {
      var dropped := set s | s in states && (s !in probed || s !in enabled);
      ghost var before := records;
      forall s
        ensures s in dropped ==> Sound(cfg, AfterReset(before(s))) && Counted(AfterReset(before(s)))
      {
        ResetIsSound(cfg, before(s));
      }
      states := states - dropped;
      records := s => if s in dropped then AfterReset(before(s)) else before(s);
    }

    /** A deploy of the stack begins: a fresh budget, also while a heal of it is running. */
    method Reset(stack: string)
      requires Valid()
      modifies this`states, this`records
      ensures Valid()
      ensures forall s :: records(s) == if s == stack then AfterReset(old(records(s))) else old(records(s))
    {
      ResetIsSound(cfg, records(stack));
      Install(stack, None, AfterReset(records(stack)));
    }

    /** The locked part of evaluate. */
    method StartEvaluate(stack: string, rolledUp: Status, services: seq<ServiceHealth>, now: int)
      returns (verdict: Verdict, drift: seq<Drift>, ghost status: Status, ghost at: seq<nat>)
      requires Valid() && healing.None?
      modifies this`states, this`records, this`healing
      ensures Valid()
      ensures services == [] ==> status == rolledUp
      ensures !(Relevant(services) <= {H.Unknown}) ==> status == RollUp(Relevant(services))
      ensures services != [] && Relevant(services) <= {H.Unknown} ==> status == H.Healthy
      ensures Names(drift, services, at)
      ensures verdict.StartHeal? || verdict.GiveUp? ==> status in {H.Unhealthy, H.Stopped}
      ensures verdict.OutageEnds? ==> status == H.Healthy
      ensures status in {H.Starting, H.Unknown} ==> verdict.Wait? && StateOf(stack) == old(StateOf(stack))
      ensures verdict == Evaluate(cfg, old(StateOf(stack)), Classify(status), now).verdict
      ensures healing == if verdict.StartHeal? then Some(stack) else None
      ensures forall s :: records(s) == if s == stack then AfterPoll(cfg, old(records(s)), status, drift, now)
              else old(records(s))
    {
      var st := SelfHealStatus(rolledUp, services);
      status := st;
      drift, at := DriftedServices(services);
      PollActsIff(cfg, records(stack), st, now);
      verdict := Decide(stack, st, drift, now);
    }

    method Decide(stack: string, status: Status, ghost drift: seq<Drift>, now: int) returns (verdict: Verdict)
      requires Valid() && healing.None?
      modifies this`states, this`records, this`healing
      ensures Valid() && verdict == Evaluate(cfg, old(StateOf(stack)), Classify(status), now).verdict
      ensures healing == if verdict.StartHeal? then Some(stack) else None
      ensures forall s :: records(s) == if s == stack then AfterPoll(cfg, old(records(s)), status, drift, now)
              else old(records(s))
    {
      var poll := Evaluate(cfg, StateOf(stack), Classify(status), now);
      verdict := poll.verdict;
      PollIsSound(cfg, records(stack), status, drift, now);
      PollOpens(cfg, records(stack), status, drift, now);
      PollIsCounted(cfg, records(stack), status, drift, now);
      Adopt(stack, poll.state, verdict.StartHeal?, AfterPoll(cfg, records(stack), status, drift, now));
    }

    method Adopt(stack: string, s: Option<StackState>, starts: bool, ghost r: Record)
      requires Valid() && healing.None? && r.state == s && Sound(cfg, r) && Counted(r) && (Open(r) <==> starts)
      modifies this`states, this`records, this`healing
      ensures Valid() && healing == if starts then Some(stack) else None
      ensures forall o :: records(o) == if o == stack then r else old(records(o))
    {
      Install(stack, s, r);
      if starts {
        healing := Some(stack);
      }
    }

    /** The healer returned. */
    method FinishHeal(stack: string, drift: seq<Drift>, ran: bool, declines: bool, first: int, last: int)
      requires Valid() && healing == Some(stack)
      requires var heals := records(stack).heals;
        heals[|heals| - 1].drift == drift && heals[|heals| - 1].startedAt <= first <= last
      modifies this`states, this`records, this`healing
      ensures Valid() && healing.None?
      ensures forall s :: records(s) == if s == stack then AfterReturn(old(records(s)), ran, declines, first, last)
              else old(records(s))
    {
      ghost var r := records(stack);
      ghost var after := AfterReturn(r, ran, declines, first, last);
      ReturnHolds(cfg, r, drift, ran, declines, first, last);
      Install(stack, Returned(StateOf(stack), drift, ran, declines, first, last), after);
      healing := None;
    }
  }

  /** Whatever interleaved: within an epoch at most maxAttempts redeploys ran, each the cooldown after the
      one before; the stack was announced healed or given up at most once, and not both. */
  lemma BudgetHolds(e: Engine, stack: string, epoch: nat)
    requires e.Valid()
    ensures Spent(e.records(stack).heals, epoch) <= e.cfg.maxAttempts
    ensures var heals := e.records(stack).heals;
      forall i, j :: 0 <= i < j < |heals| && RanIn(heals[i], epoch) && heals[j].epoch == epoch ==>
        heals[j].startedAt - heals[i].end.value.last >= e.cfg.cooldown
    ensures var notices := e.records(stack).notices;
      forall i, j :: 0 <= i < |notices| && 0 <= j < |notices| && notices[i].epoch == notices[j].epoch ==> i == j
    ensures var r := e.records(stack);
      && (Exhausted(epoch) in r.notices ==> Spent(r.heals, epoch) == e.cfg.maxAttempts)
      && (forall i :: 0 <= i < |r.notices| && r.notices[i].Healed? && r.notices[i].epoch == epoch ==>
           Spent(r.heals, epoch) >= 1)
  {
    var r := e.records(stack);
    assert Sound(e.cfg, r);
    forall i | 0 <= i < |r.notices| && r.notices[i].Healed? && r.notices[i].epoch == epoch
      ensures Spent(r.heals, epoch) >= 1
    {
      assert NoticeTells(e.cfg, r.heals, r.notices[i]);
      var k: nat :| FirstRun(r.heals, epoch, k);
      RanIsSpent(r.heals, epoch, k);
    }
  }

  lemma {:induction false} RanIsSpent(heals: seq<Redeploy>, epoch: nat, i: nat)
    requires i < |heals| && RanIn(heals[i], epoch)
    ensures Spent(heals, epoch) >= 1
  {
    if i < |heals| - 1 {
      RanIsSpent(heals[..|heals| - 1], epoch, i);
    }
  }
}
