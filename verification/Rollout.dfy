/** The zero-downtime cutover (internal/deploy/rollout.go), stated about the commands it issues. */
module Rollout {
  import opened Options
  import opened Host

  /** How often the canary is looked at before its deadline: once at least. */
  type Polls = n: nat | n >= 1 witness 1

  // ---------- what a listing says ----------

  predicate Of(c: Container, service: string) {
    c.service == "" || c.service == service
  }

  function Ids(lines: seq<Container>, service: string): set<string> {
    set c | c in lines && Of(c, service) && c.id != "" :: c.id
  }

  /** A healthy container of the service that is not one of the old ones. */
  predicate ShowsHealthyCanary(s: Step, service: string, old_: set<string>) {
    s.cmd == Read(service) && s.ok && exists c :: c in s.lines && Of(c, service) && c.healthy && c.id !in old_
  }

  // ---------- safety of a trace ----------

  predicate Touches(s: Step, ids: set<string>) {
    (s.cmd.Stop? || s.cmd.Rm?) && s.cmd.id in ids
  }

  ghost predicate NoneTouched(steps: seq<Step>, ids: set<string>) {
    forall i :: 0 <= i < |steps| ==> !Touches(steps[i], ids)
  }

  ghost predicate CanarySeen(steps: seq<Step>, service: string, old_: set<string>) {
    exists i :: 0 <= i < |steps| && ShowsHealthyCanary(steps[i], service, old_)
  }

  /** Every stop or removal of an old container comes after a read that showed a healthy new one. */
  ghost predicate DrainsOnlyBehindCanary(steps: seq<Step>, service: string, old_: set<string>) {
    forall i {:trigger Touches(steps[i], old_)} :: 0 <= i < |steps| && Touches(steps[i], old_) ==>
      CanarySeen(steps[..i], service, old_)
  }

  /** The containers were stopped and removed. */
  ghost predicate Drained(steps: seq<Step>, ids: set<string>) {
    forall id :: id in ids ==>
      (exists i :: 0 <= i < |steps| && steps[i].cmd == Stop(id))
          && (exists i :: 0 <= i < |steps| && steps[i].cmd == Rm(id))
  }

  /** Only these containers were stopped or removed. */
  ghost predicate TouchesOnly(steps: seq<Step>, ids: set<string>) {
    forall i :: 0 <= i < |steps| && (steps[i].cmd.Stop? || steps[i].cmd.Rm?) ==> steps[i].cmd.id in ids
  }

  predicate Removes(s: Step) {
    s.cmd.Stop? || s.cmd.Rm?
  }

  ghost predicate Listing(s: Step, service: string) {
    s.cmd == Read(service) && s.ok
  }

  /** Some successful listing of the service shows the container. */
  ghost predicate ListedIn(steps: seq<Step>, service: string, id: string) {
    exists j :: 0 <= j < |steps| && Listing(steps[j], service) && id in Ids(steps[j].lines, service)
  }

  /** Every container that is stopped or removed was known before, or listed for the service earlier in
      the trace. */
  ghost predicate TouchesListed(steps: seq<Step>, service: string, known: set<string>) {
    forall i {:trigger Removes(steps[i])} :: 0 <= i < |steps| && Removes(steps[i]) ==>
      steps[i].cmd.id in known || ListedIn(steps[..i], service, steps[i].cmd.id)
  }

  predicate Targets(t: Target, service: string) {
    t == Only([service]) || (t.Canary? && t.service == service)
  }

  /** Every read or up of the trace is about the service. */
  ghost predicate AboutOnly(steps: seq<Step>, service: string) {
    forall i :: 0 <= i < |steps| ==>
      && (steps[i].cmd.Read? ==> steps[i].cmd.service == service)
      && (steps[i].cmd.Up? ==> steps[i].cmd.version == Clone && Targets(steps[i].cmd.target, service))
      && (steps[i].cmd.Read? || steps[i].cmd.Up? || steps[i].cmd.Stop? || steps[i].cmd.Rm?)
  }

  /** An up starts one container more than the old ones, or the service when nothing runs of it. */
  ghost predicate StartsCanary(steps: seq<Step>, service: string, old_: set<string>) {
    forall i :: 0 <= i < |steps| && steps[i].cmd.Up? ==>
      steps[i].cmd == Up(Clone, false, if old_ == {} then Only([service]) else Canary(service, |old_| + 1))
  }

  /** Draining after the canary was seen keeps the trace safe. */
  lemma DrainAfterCanary(before: seq<Step>, drain: seq<Step>, service: string, old_: set<string>)
    requires NoneTouched(before, old_) && CanarySeen(before, service, old_)
    ensures DrainsOnlyBehindCanary(before + drain, service, old_)
  {
    var steps := before + drain;
    var j :| 0 <= j < |before| && ShowsHealthyCanary(before[j], service, old_);
    forall i | 0 <= i < |steps| && Touches(steps[i], old_)
      ensures CanarySeen(steps[..i], service, old_)
    {
      assert forall m :: 0 <= m < |before| ==> steps[m] == before[m];
      assert steps[..i][j] == before[j];
    }
  }

  /** So does putting harmless steps in front. */
  lemma SafeAfter(before: seq<Step>, steps: seq<Step>, service: string, old_: set<string>)
    requires NoneTouched(before, old_) && DrainsOnlyBehindCanary(steps, service, old_)
    ensures DrainsOnlyBehindCanary(before + steps, service, old_)
  {
    var all := before + steps;
    forall i | 0 <= i < |all| && Touches(all[i], old_)
      ensures CanarySeen(all[..i], service, old_)
    {
      assert i >= |before| && all[i] == steps[i - |before|];
      var j :| 0 <= j < i - |before| && ShowsHealthyCanary(steps[..i - |before|][j], service, old_);
      assert all[..i][|before| + j] == steps[j];
    }
  }

  lemma ListedLater(before: seq<Step>, steps: seq<Step>, service: string, id: string)
    requires ListedIn(steps, service, id)
    ensures ListedIn(before + steps, service, id)
  {
    var j :| 0 <= j < |steps| && Listing(steps[j], service) && id in Ids(steps[j].lines, service);
    assert (before + steps)[|before| + j] == steps[j];
  }

  /** Steps in front that remove nothing keep the removals listed. */
  lemma TouchesListedLater(before: seq<Step>, steps: seq<Step>, service: string, known: set<string>)
    requires TouchesListed(steps, service, known) && forall i :: 0 <= i < |before| ==> !Removes(before[i])
    ensures TouchesListed(before + steps, service, known)
  {
    var all := before + steps;
    forall i | 0 <= i < |all| && Removes(all[i])
      ensures all[i].cmd.id in known || ListedIn(all[..i], service, all[i].cmd.id)
    {
      var k := i - |before|;
      assert all[i] == steps[k] && all[..i] == before + steps[..k];
      if all[i].cmd.id !in known {
        ListedLater(before, steps[..k], service, all[i].cmd.id);
      }
    }
  }

  /** Removals of containers that the steps before them list. */
  lemma ListedThenRemoved(before: seq<Step>, removal: seq<Step>, service: string, ids: seq<string>)
    requires forall i :: 0 <= i < |before| ==> !Removes(before[i])
    requires forall i :: 0 <= i < |removal| ==> Removes(removal[i]) && removal[i].cmd.id in ids
    requires forall id :: id in ids ==> ListedIn(before, service, id)
    ensures TouchesListed(before + removal, service, {})
  {
    var all := before + removal;
    forall i | 0 <= i < |all| && Removes(all[i])
      ensures ListedIn(all[..i], service, all[i].cmd.id)
    {
      var id := all[i].cmd.id;
      assert all[i] == removal[i - |before|] && ListedIn(before, service, id);
      var j :| 0 <= j < |before| && Listing(before[j], service) && id in Ids(before[j].lines, service);
      assert all[..i][j] == before[j];
    }
  }

  lemma {:induction false} NewestWasListed(steps: seq<Step>, service: string, old_: set<string>, ids: seq<string>,
                                           id: string)
    requires LastListed(steps, service, old_, ids) && id in ids
    ensures ListedIn(steps, service, id)
    decreases |steps|
  {
    var last, front := steps[|steps| - 1], steps[..|steps| - 1];
    if Listing(last, service) {
      assert Listing(steps[|steps| - 1], service) && id in Ids(steps[|steps| - 1].lines, service);
    } else {
      NewestWasListed(front, service, old_, ids, id);
      var j :| 0 <= j < |front| && Listing(front[j], service) && id in Ids(front[j].lines, service);
      assert steps[j] == front[j];
    }
  }

  // ---------- the methods ----------

  function NonEmpty(ids: seq<string>): set<string> {
    set id | id in ids && id != ""
  }

  /** Stops and removes the containers, best effort: a failure is not fatal, an empty ID is skipped. */
  method RemoveContainers(host: Runner, ids: seq<string>) returns (ghost steps: seq<Step>)
    modifies host
    ensures host.clock >= old(host.clock)
    ensures host.trace == old(host.trace) + steps
    ensures forall i :: 0 <= i < |steps| ==> (steps[i].cmd.Stop? || steps[i].cmd.Rm?) && steps[i].cmd.id in ids
    ensures Drained(steps, NonEmpty(ids))
  {
    steps := [];
    for k := 0 to |ids|
      invariant host.trace == old(host.trace) + steps && host.clock >= old(host.clock)
      invariant forall i :: 0 <= i < |steps| ==> (steps[i].cmd.Stop? || steps[i].cmd.Rm?) && steps[i].cmd.id in ids
      invariant Drained(steps, NonEmpty(ids[..k]))
    {
      assert ids[..k + 1] == ids[..k] + [ids[k]];
      assert NonEmpty(ids[..k + 1]) == NonEmpty(ids[..k]) + (if ids[k] == "" then {} else {ids[k]});
      if ids[k] == "" {
        continue;
      }
      var stopped := host.Run(Stop(ids[k]));
      var removed := host.Run(Rm(ids[k]));
      ghost var pair := [Step(Stop(ids[k]), stopped, []), Step(Rm(ids[k]), removed, [])];
      DrainOne(steps, pair, NonEmpty(ids[..k]), ids[k]);
      steps := steps + pair;
    }
    assert ids[..|ids|] == ids;
  }

  lemma DrainOne(before: seq<Step>, pair: seq<Step>, ids: set<string>, id: string)
    requires Drained(before, ids) && |pair| == 2 && pair[0].cmd == Stop(id) && pair[1].cmd == Rm(id)
    ensures Drained(before + pair, ids + {id})
  {
    var steps := before + pair;
    forall x | x in ids + {id}
      ensures (exists i :: 0 <= i < |steps| && steps[i].cmd == Stop(x))
              && (exists i :: 0 <= i < |steps| && steps[i].cmd == Rm(x))
    {
      if x == id {
        assert steps[|before|].cmd == Stop(x) && steps[|before| + 1].cmd == Rm(x);
      } else {
        var i :| 0 <= i < |before| && before[i].cmd == Stop(x);
        var j :| 0 <= j < |before| && before[j].cmd == Rm(x);
        assert steps[i].cmd == Stop(x) && steps[j].cmd == Rm(x);
      }
    }
  }

  ghost predicate Lists(cs: seq<Container>, step: Step, service: string) {
    forall c :: c in cs <==> c in step.lines && (c.service == "" || c.service == service)
  }

  method ServiceContainers(host: Runner, service: string) returns (found: Option<seq<Container>>, ghost step: Step)
    modifies host
    ensures host.clock == old(host.clock) + 1 && (found.Some? <==> host.answers(old(host.clock)))
    ensures host.trace == old(host.trace) + [step] && step.cmd == Read(service)
    ensures found.Some? <==> step.ok
    ensures found.Some? ==> Lists(found.value, step, service)
  {
    var lines := host.List(service);
    step := host.trace[|host.trace| - 1];
    if lines.None? {
      return None, step;
    }
    var kept: seq<Container> := [];
    for i := 0 to |lines.value|
      invariant forall c :: c in kept <==> c in lines.value[..i] && Of(c, service)
    {
      if Of(lines.value[i], service) {
        kept := kept + [lines.value[i]];
      }
    }
    assert lines.value[..|lines.value|] == lines.value;
    return Some(kept), step;
  }

  method ContainerIdSet(cs: seq<Container>) returns (ids: set<string>)
    ensures ids == set c | c in cs && c.id != "" :: c.id
  {
    ids := {};
    for i := 0 to |cs|
      invariant forall id :: id in ids <==> exists c :: c in cs[..i] && c.id != "" && c.id == id
    {
      if cs[i].id != "" {
        ids := ids + {cs[i].id};
      }
    }
    assert cs[..|cs|] == cs;
  }

  method NewContainerIds(cs: seq<Container>, oldIds: set<string>) returns (ids: seq<string>)
    ensures forall id :: id in ids <==> id != "" && id !in oldIds && exists c :: c in cs && c.id == id
  {
    ids := [];
    for i := 0 to |cs|
      invariant forall id :: id in ids <==> id != "" && id !in oldIds && exists c :: c in cs[..i] && c.id == id
    {
      if cs[i].id != "" && cs[i].id !in oldIds {
        ids := ids + [cs[i].id];
      }
    }
    assert cs[..|cs|] == cs;
  }

  method AnyHealthy(cs: seq<Container>, oldIds: set<string>) returns (any: bool)
    ensures any <==> exists c :: c in cs && c.healthy && c.id !in oldIds
  {
    for i := 0 to |cs|
      invariant forall j :: 0 <= j < i ==> !(cs[j].healthy && cs[j].id !in oldIds)
    {
      if cs[i].id !in oldIds && cs[i].healthy {
        assert cs[i] in cs;
        return true;
      }
    }
    return false;
  }

  method KeysOf(ids: set<string>) returns (keys: seq<string>)
    ensures forall id :: id in keys <==> id in ids
  {
    keys := [];
    var todo := ids;
    while todo != {}
      invariant todo <= ids
      invariant forall id :: id in keys <==> id in ids - todo
      decreases todo
    {
      var id :| id in todo;
      todo := todo - {id};
      keys := keys + [id];
    }
  }

  /** What the two helpers find in a listing of the service. */
  lemma NewInListing(cs: seq<Container>, step: Step, service: string, oldIds: set<string>, ids: seq<string>)
    requires Lists(cs, step, service)
    requires forall id :: id in ids <==> id != "" && id !in oldIds && exists c :: c in cs && c.id == id
    ensures forall id :: id in ids <==> id in Ids(step.lines, service) - oldIds
  {
    forall id
      ensures id in ids <==> id in Ids(step.lines, service) - oldIds
    {
      if id in Ids(step.lines, service) - oldIds {
        var c :| c in step.lines && Of(c, service) && c.id != "" && c.id == id;
        assert c in cs;
      }
    }
  }

  lemma HealthyInListing(cs: seq<Container>, step: Step, service: string, oldIds: set<string>)
    requires Lists(cs, step, service) && Listing(step, service)
    ensures (exists c :: c in cs && c.healthy && c.id !in oldIds) <==> ShowsHealthyCanary(step, service, oldIds)
  {
    if c :| c in cs && c.healthy && c.id !in oldIds {
      assert c in step.lines && Of(c, service);
    }
    if ShowsHealthyCanary(step, service, oldIds) {
      var c :| c in step.lines && Of(c, service) && c.healthy && c.id !in oldIds;
      assert c in cs;
    }
  }

  /** The newest successful listing of the service, if there was one, names exactly these new containers. */
  ghost predicate LastListed(steps: seq<Step>, service: string, old_: set<string>, ids: seq<string>)
    decreases |steps|
  {
    if steps == [] then ids == []
    else
      var last := steps[|steps| - 1];
      if Listing(last, service) then forall id :: id in ids <==> id in Ids(last.lines, service) - old_
      else LastListed(steps[..|steps| - 1], service, old_, ids)
  }

  lemma {:induction false} ListedAfter(a: seq<Step>, b: seq<Step>, service: string, old_: set<string>, ids: seq<string>)
    requires LastListed(b, service, old_, ids) && LastListed(a, service, old_, [])
    ensures LastListed(a + b, service, old_, ids)
    decreases |b|
  {
    if b == [] {
      assert a + b == a;
    } else {
      assert (a + b)[..|a + b| - 1] == a + b[..|b| - 1];
      if !Listing(b[|b| - 1], service) {
        ListedAfter(a, b[..|b| - 1], service, old_, ids);
      }
    }
  }

  lemma {:induction false} ListedBefore(a: seq<Step>, b: seq<Step>, service: string, old_: set<string>,
                                        ids: seq<string>)
    requires LastListed(a, service, old_, ids) && forall i :: 0 <= i < |b| ==> !b[i].cmd.Read?
    ensures LastListed(a + b, service, old_, ids)
    decreases |b|
  {
    if b == [] {
      assert a + b == a;
    } else {
      assert (a + b)[..|a + b| - 1] == a + b[..|b| - 1];
      ListedBefore(a, b[..|b| - 1], service, old_, ids);
    }
  }

  ghost predicate OnlyReads(steps: seq<Step>, service: string) {
    forall i :: 0 <= i < |steps| ==> steps[i].cmd == Read(service)
  }

  /** One more listing decides alone what the newest one names. */
  lemma LookedAgain(steps: seq<Step>, step: Step, service: string, oldIds: set<string>, ids: seq<string>)
    requires LastListed(steps, service, oldIds, ids)
    ensures CanarySeen(steps + [step], service, oldIds) <==>
              CanarySeen(steps, service, oldIds) || ShowsHealthyCanary(step, service, oldIds)
    ensures !Listing(step, service) ==> LastListed(steps + [step], service, oldIds, ids)
    ensures forall now: seq<string> ::
              Listing(step, service) && (forall id :: id in now <==> id in Ids(step.lines, service) - oldIds) ==>
                LastListed(steps + [step], service, oldIds, now)
  {
    var all := steps + [step];
    assert all[..|steps|] == steps && all[|all| - 1] == step;
    if CanarySeen(steps, service, oldIds) {
      var i :| 0 <= i < |steps| && ShowsHealthyCanary(steps[i], service, oldIds);
      assert all[i] == steps[i];
    }
  }

  /** From the position on, the service is listed that many times in a row. */
  ghost predicate PolledFrom(steps: seq<Step>, service: string, at: nat, polls: Polls) {
    |steps| >= at + polls && forall i :: at <= i < at + polls ==> steps[i].cmd == Read(service)
  }

  /** Polls until a container that is not an old one is healthy, or the deadline passes. */
  method WaitCanaryHealthy(host: Runner, service: string, oldIds: set<string>, polls: Polls)
    returns (healthy: bool, newIds: seq<string>, ghost steps: seq<Step>)
    modifies host
    ensures host.clock >= old(host.clock)
    ensures host.trace == old(host.trace) + steps && OnlyReads(steps, service)
    ensures healthy <==> CanarySeen(steps, service, oldIds)
    ensures |steps| <= polls && (!healthy ==> |steps| == polls)
    ensures LastListed(steps, service, oldIds, newIds)
    ensures forall id :: id in newIds ==> id != "" && id !in oldIds
  {
    newIds, steps, healthy := [], [], false;
    for k := 0 to polls
      invariant |steps| == k
      invariant host.trace == old(host.trace) + steps && OnlyReads(steps, service) && host.clock >= old(host.clock)
      invariant !CanarySeen(steps, service, oldIds)
      invariant LastListed(steps, service, oldIds, newIds)
      invariant forall id :: id in newIds ==> id != "" && id !in oldIds
    {
      var current, step := ServiceContainers(host, service);
      LookedAgain(steps, step, service, oldIds, newIds);
      steps := steps + [step];
      if current.Some? {
        newIds := NewContainerIds(current.value, oldIds);
        NewInListing(current.value, step, service, oldIds, newIds);
        var any := AnyHealthy(current.value, oldIds);
        HealthyInListing(current.value, step, service, oldIds);
        if any {
          return true, newIds, steps;
        }
      }
    }
  }

  /** At the position the service is listed afresh, and every new container that this shows is removed. */
  ghost predicate CleansUp(steps: seq<Step>, service: string, oldIds: set<string>, at: nat) {
    && at < |steps| && steps[at].cmd == Read(service)
    && (steps[at].ok ==> Drained(steps, Ids(steps[at].lines, service) - oldIds))
  }

  lemma CleansUpLater(before: seq<Step>, steps: seq<Step>, service: string, oldIds: set<string>, at: nat)
    requires CleansUp(steps, service, oldIds, at)
    ensures CleansUp(before + steps, service, oldIds, |before| + at)
  {
    assert (before + steps)[|before| + at] == steps[at];
    if steps[at].ok {
      DrainedLater(before, steps, Ids(steps[at].lines, service) - oldIds);
    }
  }

  method RemoveNew(host: Runner, service: string, oldIds: set<string>, ids: seq<string>, ghost step: Step)
    returns (ghost steps: seq<Step>)
    requires Listing(step, service) && forall id :: id in ids <==> id in Ids(step.lines, service) - oldIds
    modifies host
    ensures host.clock >= old(host.clock)
    ensures host.trace == old(host.trace) + steps
    ensures CleanedSafely([step] + steps, service, oldIds)
  {
    steps := RemoveContainers(host, ids);
    CleanedUp(step, steps, service, oldIds, ids);
  }

  /** A clean-up touches no old container, and no container but the new ones that it lists first. */
  ghost predicate CleanedSafely(steps: seq<Step>, service: string, oldIds: set<string>) {
    && NoneTouched(steps, oldIds) && AboutOnly(steps, service) && TouchesListed(steps, service, {})
    && NoUp(steps) && CleansUp(steps, service, oldIds, 0)
  }

  /** Removes whatever new containers a fresh listing shows, when starting the canary failed. */
  method CleanupCanary(host: Runner, service: string, oldIds: set<string>) returns (ghost steps: seq<Step>)
    modifies host
    ensures host.clock >= old(host.clock)
    ensures host.trace == old(host.trace) + steps
    ensures CleanedSafely(steps, service, oldIds)
    ensures steps[0].ok <==> host.answers(old(host.clock))
  {
    var current, step := ServiceContainers(host, service);
    steps := [step];
    if current.None? {
      return;
    }
    var ids := NewContainerIds(current.value, oldIds);
    NewInListing(current.value, step, service, oldIds, ids);
    ghost var more := RemoveNew(host, service, oldIds, ids, step);
    steps := steps + more;
  }

  /** A listing, then the removal of new containers that it shows. */
  lemma CleanedUp(step: Step, removal: seq<Step>, service: string, oldIds: set<string>, ids: seq<string>)
    requires Listing(step, service)
    requires forall i :: 0 <= i < |removal| ==> Removes(removal[i]) && removal[i].cmd.id in ids
    requires forall id :: id in ids <==> id in Ids(step.lines, service) - oldIds
    requires Drained(removal, NonEmpty(ids))
    ensures CleanedSafely([step] + removal, service, oldIds)
  {
    assert NonEmpty(ids) == Ids(step.lines, service) - oldIds;
    DrainedLater([step], removal, NonEmpty(ids));
    forall id | id in ids
      ensures ListedIn([step], service, id)
    {
      assert Listing([step][0], service);
    }
    ListedThenRemoved([step], removal, service, ids);
  }

  datatype Cutover = Done | CanaryUnhealthy | Unknown

  /** What one cutover guarantees, by how it ended. */
  ghost predicate CutoverKeeps(steps: seq<Step>, service: string, result: Cutover, old_: set<string>,
                               canaries: seq<string>)
  {
    && AboutOnly(steps, service) && StartsCanary(steps, service, old_)
    && DrainsOnlyBehindCanary(steps, service, old_)
    && TouchesListed(steps, service, old_)
    && (result.CanaryUnhealthy? ==>
          NoneTouched(steps, old_) && Drained(steps, NonEmpty(canaries)) && TouchesOnly(steps, NonEmpty(canaries)))
    && (result.Done? ==> Drained(steps, old_) && TouchesOnly(steps, old_))
    && (result.Unknown? ==> NoneTouched(steps, old_))
  }

  /** No read showed a healthy canary, and the canaries are the new containers of the newest listing. */
  ghost predicate NeverHealthy(steps: seq<Step>, service: string, old_: set<string>, canaries: seq<string>) {
    !CanarySeen(steps, service, old_) && LastListed(steps, service, old_, canaries)
  }

  /** A cutover's promise, and what it knew of the canaries when it gave up on them. */
  ghost predicate CutSafely(steps: seq<Step>, service: string, result: Cutover, old_: set<string>,
                            canaries: seq<string>)
  {
    && CutoverKeeps(steps, service, result, old_, canaries)
    && (result.CanaryUnhealthy? ==> NeverHealthy(steps, service, old_, canaries))
  }

  lemma NeverHealthyAfter(before: seq<Step>, rest: seq<Step>, service: string, old_: set<string>, canaries: seq<string>)
    requires NeverHealthy(before, service, old_, []) && NeverHealthy(rest, service, old_, canaries)
    ensures NeverHealthy(before + rest, service, old_, canaries)
  {
    ListedAfter(before, rest, service, old_, canaries);
    forall i | 0 <= i < |before + rest|
      ensures !ShowsHealthyCanary((before + rest)[i], service, old_)
    {
      if i < |before| {
        assert !ShowsHealthyCanary(before[i], service, old_);
      } else {
        assert !ShowsHealthyCanary(rest[i - |before|], service, old_);
      }
    }
  }

  lemma NeverHealthyBefore(wait: seq<Step>, rest: seq<Step>, service: string, old_: set<string>, canaries: seq<string>)
    requires NeverHealthy(wait, service, old_, canaries) && forall i :: 0 <= i < |rest| ==> !rest[i].cmd.Read?
    ensures NeverHealthy(wait + rest, service, old_, canaries)
  {
    ListedBefore(wait, rest, service, old_, canaries);
    forall i | 0 <= i < |wait + rest|
      ensures !ShowsHealthyCanary((wait + rest)[i], service, old_)
    {
      if i < |wait| {
        assert !ShowsHealthyCanary(wait[i], service, old_);
      }
    }
  }

  lemma UnhealthyKeeps(wait: seq<Step>, removal: seq<Step>, service: string, old_: set<string>, ids: seq<string>)
    requires OnlyReads(wait, service) && LastListed(wait, service, old_, ids) && Drained(removal, NonEmpty(ids))
    requires forall i :: 0 <= i < |removal| ==> (removal[i].cmd.Stop? || removal[i].cmd.Rm?) && removal[i].cmd.id in ids
    requires forall id :: id in ids ==> id != "" && id !in old_
    ensures CutoverKeeps(wait + removal, service, CanaryUnhealthy, old_, ids)
  {
    DrainedLater(wait, removal, NonEmpty(ids));
    forall id | id in ids
      ensures ListedIn(wait, service, id)
    {
      NewestWasListed(wait, service, old_, ids, id);
    }
    ListedThenRemoved(wait, removal, service, ids);
  }

  lemma DoneKeeps(wait: seq<Step>, drain: seq<Step>, service: string, old_: set<string>, keys: seq<string>,
                  canaries: seq<string>)
    requires OnlyReads(wait, service) && CanarySeen(wait, service, old_) && Drained(drain, old_)
    requires forall i :: 0 <= i < |drain| ==> (drain[i].cmd.Stop? || drain[i].cmd.Rm?) && drain[i].cmd.id in keys
    requires forall id :: id in keys ==> id in old_
    ensures CutoverKeeps(wait + drain, service, Done, old_, canaries)
  {
    DrainAfterCanary(wait, drain, service, old_);
    DrainedLater(wait, drain, old_);
  }

  /** The canary never turned healthy: it is removed, the old containers stay. */
  method RemoveCanaries(host: Runner, service: string, oldIds: set<string>, newIds: seq<string>, ghost wait: seq<Step>)
    returns (ghost steps: seq<Step>)
    requires OnlyReads(wait, service) && NeverHealthy(wait, service, oldIds, newIds)
    requires forall id :: id in newIds ==> id != "" && id !in oldIds
    modifies host
    ensures host.clock >= old(host.clock)
    ensures host.trace == old(host.trace) + steps
    ensures CutoverKeeps(wait + steps, service, CanaryUnhealthy, oldIds, newIds)
    ensures NeverHealthy(wait + steps, service, oldIds, newIds)
  {
    steps := RemoveContainers(host, newIds);
    UnhealthyKeeps(wait, steps, service, oldIds, newIds);
    NeverHealthyBefore(wait, steps, service, oldIds, newIds);
  }

  /** The canary is healthy: the old containers go. */
  method DrainOld(host: Runner, service: string, oldIds: set<string>, ghost wait: seq<Step>,
                  ghost canaries: seq<string>)
    returns (ghost steps: seq<Step>)
    requires OnlyReads(wait, service) && CanarySeen(wait, service, oldIds) && "" !in oldIds
    modifies host
    ensures host.clock >= old(host.clock)
    ensures host.trace == old(host.trace) + steps
    ensures CutoverKeeps(wait + steps, service, Done, oldIds, canaries)
  {
    var keys := KeysOf(oldIds);
    steps := RemoveContainers(host, keys);
    assert NonEmpty(keys) == oldIds;
    DoneKeeps(wait, steps, service, oldIds, keys, canaries);
  }

  /** The cutover once the canary is starting: wait for it, then drain the old containers, or remove it. */
  method WaitAndDrain(host: Runner, service: string, oldIds: set<string>, polls: Polls)
    returns (result: Cutover, ghost steps: seq<Step>, ghost canaries: seq<string>)
    requires "" !in oldIds
    modifies host
    ensures host.clock >= old(host.clock)
    ensures host.trace == old(host.trace) + steps && !result.Unknown?
    ensures CutSafely(steps, service, result, oldIds, canaries)
    ensures result.CanaryUnhealthy? ==> PolledFrom(steps, service, 0, polls)
  {
    var healthy, newIds;
    ghost var wait, rest;
    healthy, newIds, wait := WaitCanaryHealthy(host, service, oldIds, polls);
    if !healthy {
      rest := RemoveCanaries(host, service, oldIds, newIds, wait);
      return CanaryUnhealthy, wait + rest, newIds;
    }
    rest := DrainOld(host, service, oldIds, wait, newIds);
    return Done, wait + rest, newIds;
  }

  /** Starts the canary beside the old containers; when that fails, whatever it left is removed. */
  method StartCanary(host: Runner, service: string, oldIds: set<string>) returns (up: bool, ghost steps: seq<Step>)
    modifies host
    ensures host.clock >= old(host.clock)
    ensures host.trace == old(host.trace) + steps
    requires oldIds != {}
    ensures if up then Started(steps, service, oldIds) else CutSafely(steps, service, Unknown, oldIds, [])
    ensures NoUp(steps) <==> !host.envReadable(old(host.clock) + 1)
    ensures up <==> host.Composes(old(host.clock))
    ensures !up ==> CleansUp(steps, service, oldIds, if NoUp(steps) then 0 else 1)
  {
    up, steps := host.Compose(Up(Clone, false, Canary(service, |oldIds| + 1)));
    if !up {
      ghost var more := CleanupCanary(host, service, oldIds);
      NoUpBoth(steps, more);
      CleansUpLater(steps, more, service, oldIds, 0);
      UntouchedKeeps(steps, more, service, Unknown, oldIds, []);
      steps := steps + more;
    }
  }

  /** A service nothing runs of yet: a plain up has no gap to avoid. */
  method FirstDeploy(host: Runner, service: string) returns (result: Cutover, ghost steps: seq<Step>)
    modifies host
    ensures host.clock >= old(host.clock)
    ensures host.trace == old(host.trace) + steps && AboutOnly(steps, service)
    ensures (forall i :: 0 <= i < |steps| ==> steps[i].cmd.Up?) && StartsCanary(steps, service, {})
    ensures NoUp(steps) <==> !host.envReadable(old(host.clock) + 1)
    ensures result == if host.Composes(old(host.clock)) then Done else Unknown
  {
    var up;
    up, steps := host.Compose(Up(Clone, false, Only([service])));
    return if up then Done else Unknown, steps;
  }

  /** The up that started a canary. */
  ghost predicate Started(start: seq<Step>, service: string, oldIds: set<string>) {
    && AboutOnly(start, service) && StartsCanary(start, service, oldIds) && NeverHealthy(start, service, oldIds, [])
    && |start| == 1 && start[0].cmd.Up?
  }

  lemma StartThenCut(start: seq<Step>, rest: seq<Step>, service: string, result: Cutover,
                     oldIds: set<string>, canaries: seq<string>)
    requires Started(start, service, oldIds)
    requires CutSafely(rest, service, result, oldIds, canaries)
    ensures CutSafely(start + rest, service, result, oldIds, canaries) && !NoUp(start + rest)
  {
    CutoverAfter(start, rest, service, result, oldIds, canaries);
    if result.CanaryUnhealthy? {
      NeverHealthyAfter(start, rest, service, oldIds, canaries);
    }
    assert (start + rest)[0] == start[0];
  }

  /** The cutover beside running containers: start the canary, wait, drain. */
  method CutOver(host: Runner, service: string, oldIds: set<string>, polls: Polls)
    returns (result: Cutover, ghost steps: seq<Step>, ghost canaries: seq<string>)
    requires "" !in oldIds && oldIds != {}
    modifies host
    ensures host.clock >= old(host.clock)
    ensures host.trace == old(host.trace) + steps
    ensures CutSafely(steps, service, result, oldIds, canaries)
    ensures NoUp(steps) <==> !host.envReadable(old(host.clock) + 1)
    ensures result.Unknown? <==> !host.Composes(old(host.clock))
    ensures result.Unknown? ==> CleansUp(steps, service, oldIds, if NoUp(steps) then 0 else 1)
    ensures result.CanaryUnhealthy? ==> PolledFrom(steps, service, 1, polls)
  {
    var up;
    up, steps := StartCanary(host, service, oldIds);
    if !up {
      return Unknown, steps, [];
    }
    ghost var rest;
    result, rest, canaries := WaitAndDrain(host, service, oldIds, polls);
    StartThenCut(steps, rest, service, result, oldIds, canaries);
    steps := steps + rest;
  }

  /** The ids of the containers that run before the cutover. */
  method OldContainers(host: Runner, service: string) returns (ids: Option<set<string>>, ghost step: Step)
    modifies host
    ensures host.clock == old(host.clock) + 1 && (ids.Some? <==> host.answers(old(host.clock)))
    ensures host.trace == old(host.trace) + [step] && step.cmd == Read(service)
    ensures ids == if step.ok then Some(Ids(step.lines, service)) else None
    ensures ids.Some? ==> "" !in ids.value
  {
    var found;
    found, step := ServiceContainers(host, service);
    if found.None? {
      return None, step;
    }
    var set_ := ContainerIdSet(found.value);
    assert set_ == Ids(step.lines, service);
    ids := Some(set_);
  }

  /** What a cutover promises. The old containers are the ones the first read lists; the canaries that an
      unhealthy cutover removes are the new ones of the newest listing. */
  ghost predicate Rolled(steps: seq<Step>, service: string, result: Cutover, oldIds: set<string>,
                         canaries: seq<string>)
  {
    && |steps| > 0 && steps[0].cmd == Read(service)
    && oldIds == (if steps[0].ok then Ids(steps[0].lines, service) else {})
    && CutoverKeeps(steps, service, result, oldIds, canaries)
    && TouchesListed(steps, service, {})
    && (result.CanaryUnhealthy? ==> oldIds != {} && LastListed(steps, service, oldIds, canaries))
    && (result.CanaryUnhealthy? ==> forall i :: 1 <= i < |steps| ==> !ShowsHealthyCanary(steps[i], service, oldIds))
  }

  /** The cutover once the running containers are listed: a first deploy when there are none. */
  method RollListed(host: Runner, service: string, polls: Polls, oldIds: set<string>, ghost step: Step)
    returns (result: Cutover, ghost rest: seq<Step>, ghost canaries: seq<string>)
    requires Listing(step, service) && oldIds == Ids(step.lines, service)
    modifies host
    ensures host.clock >= old(host.clock)
    ensures host.trace == old(host.trace) + rest
    ensures Rolled([step] + rest, service, result, oldIds, canaries)
    ensures NoUp(rest) <==> !host.envReadable(old(host.clock) + 1)
    ensures result.Unknown? <==> !host.Composes(old(host.clock))
    ensures result.Unknown? && oldIds != {} ==> CleansUp([step] + rest, service, oldIds, if NoUp(rest) then 1 else 2)
    ensures result.CanaryUnhealthy? ==> PolledFrom([step] + rest, service, 2, polls)
  {
    canaries := [];
    if oldIds == {} {
      result, rest := FirstDeploy(host, service);
    } else {
      result, rest, canaries := CutOver(host, service, oldIds, polls);
      ReadThenCut(step, rest, service, result, oldIds, canaries);
      if result.Unknown? {
        CleansUpLater([step], rest, service, oldIds, if NoUp(rest) then 0 else 1);
      }
    }
  }

  /** Cuts one service over: a canary beside the old containers, wait until it is healthy, drain the old
      ones. An up is issued exactly when the first listing succeeds and the env files are readable at the
      up's moment. */
  method RollService(host: Runner, service: string, polls: Polls)
    returns (result: Cutover, ghost steps: seq<Step>, ghost oldIds: set<string>, ghost canaries: seq<string>)
    modifies host
    ensures host.clock >= old(host.clock)
    ensures host.trace == old(host.trace) + steps
    ensures Rolled(steps, service, result, oldIds, canaries)
    ensures NoUp(steps) <==> !(host.answers(old(host.clock)) && host.envReadable(old(host.clock) + 2))
    ensures result.Unknown? <==> !(host.answers(old(host.clock)) && host.Composes(old(host.clock) + 1))
    ensures result.Unknown? && oldIds != {} ==> CleansUp(steps, service, oldIds, if NoUp(steps) then 1 else 2)
    ensures result.CanaryUnhealthy? ==> PolledFrom(steps, service, 2, polls)
  {
    var ids, step := OldContainers(host, service);
    if ids.None? {
      assert [step] + [] == [step];
      return Unknown, [step], {}, [];
    }
    ghost var rest;
    oldIds := ids.value;
    result, rest, canaries := RollListed(host, service, polls, ids.value, step);
    steps := [step] + rest;
    NoUpBoth([step], rest);
  }

  /** What the first read lists is listed. */
  lemma FirstReadLists(step: Step, rest: seq<Step>, service: string, oldIds: set<string>)
    requires Listing(step, service) && oldIds == Ids(step.lines, service) && TouchesListed(rest, service, oldIds)
    ensures TouchesListed([step] + rest, service, {})
  {
    var all := [step] + rest;
    forall i | 0 <= i < |all| && Removes(all[i])
      ensures ListedIn(all[..i], service, all[i].cmd.id)
    {
      var id := all[i].cmd.id;
      assert all[i] == rest[i - 1] && all[..i] == [step] + rest[..i - 1];
      if id in oldIds {
        assert Listing(all[..i][0], service) && id in Ids(all[..i][0].lines, service);
      } else {
        ListedLater([step], rest[..i - 1], service, id);
      }
    }
  }

  /** The read of the old containers before a cutover changes nothing that the cutover promises. */
  lemma ReadThenCut(step: Step, rest: seq<Step>, service: string, result: Cutover, oldIds: set<string>,
                    canaries: seq<string>)
    requires step.cmd == Read(service) && step.ok && oldIds == Ids(step.lines, service) != {}
    requires CutSafely(rest, service, result, oldIds, canaries)
    ensures Rolled([step] + rest, service, result, oldIds, canaries)
  {
    CutoverAfter([step], rest, service, result, oldIds, canaries);
    FirstReadLists(step, rest, service, oldIds);
    if result.CanaryUnhealthy? {
      ListedAfter([step], rest, service, oldIds, canaries);
    }
  }

  /** A cutover that drained nothing: nothing ran yet, or the canary did not start. */
  lemma UntouchedKeeps(head: seq<Step>, rest: seq<Step>, service: string, result: Cutover, old_: set<string>,
                       canaries: seq<string>)
    requires AboutOnly(head, service) && AboutOnly(rest, service) && NoneTouched(head, old_) && NoneTouched(rest, old_)
    requires StartsCanary(head, service, old_) && StartsCanary(rest, service, old_)
    requires result.Unknown? || (result.Done? && old_ == {} && TouchesOnly(head, {}) && TouchesOnly(rest, {}))
    requires TouchesListed(rest, service, {}) && forall i :: 0 <= i < |head| ==> !Removes(head[i])
    ensures CutoverKeeps(head + rest, service, result, old_, canaries)
    ensures TouchesListed(head + rest, service, {})
  {
    TouchesListedLater(head, rest, service, {});
  }

  lemma DrainedLater(before: seq<Step>, steps: seq<Step>, ids: set<string>)
    requires Drained(steps, ids)
    ensures Drained(before + steps, ids)
  {
    forall id | id in ids
      ensures (exists i :: 0 <= i < |before + steps| && (before + steps)[i].cmd == Stop(id))
           && (exists i :: 0 <= i < |before + steps| && (before + steps)[i].cmd == Rm(id))
    {
      var i :| 0 <= i < |steps| && steps[i].cmd == Stop(id);
      var j :| 0 <= j < |steps| && steps[j].cmd == Rm(id);
      assert (before + steps)[|before| + i].cmd == Stop(id) && (before + steps)[|before| + j].cmd == Rm(id);
    }
  }

  lemma CutoverAfter(before: seq<Step>, rest: seq<Step>, service: string, result: Cutover, old_: set<string>,
                     canaries: seq<string>)
    requires CutoverKeeps(rest, service, result, old_, canaries)
    requires AboutOnly(before, service) && StartsCanary(before, service, old_)
    requires forall i :: 0 <= i < |before| ==> !before[i].cmd.Stop? && !before[i].cmd.Rm?
    ensures CutoverKeeps(before + rest, service, result, old_, canaries)
  {
    SafeAfter(before, rest, service, old_);
    TouchesListedLater(before, rest, service, old_);
    if result.CanaryUnhealthy? {
      DrainedLater(before, rest, NonEmpty(canaries));
    }
    if result.Done? {
      DrainedLater(before, rest, old_);
    }
  }

  // ---------- canaries that are left behind ----------

  /** What the newest successful listing of the service shows. */
  ghost function NewestIds(steps: seq<Step>, service: string): (ids: set<string>)
    ensures "" !in ids
    decreases |steps|
  {
    if steps == [] then {}
    else
      var last := steps[|steps| - 1];
      if Listing(last, service) then Ids(last.lines, service) else NewestIds(steps[..|steps| - 1], service)
  }

  lemma {:induction false} LastListedIsNewest(steps: seq<Step>, service: string, old_: set<string>, ids: seq<string>)
    requires LastListed(steps, service, old_, ids)
    ensures forall id :: id in ids <==> id in NewestIds(steps, service) - old_
    decreases |steps|
  {
    if steps != [] && !Listing(steps[|steps| - 1], service) {
      LastListedIsNewest(steps[..|steps| - 1], service, old_, ids);
    }
  }

  /** A successful listing showed the container, and it is not one of the old ones. */
  ghost predicate NewSeen(steps: seq<Step>, service: string, oldIds: set<string>, id: string) {
    id !in oldIds && ListedIn(steps, service, id)
  }

  ghost predicate Removed(steps: seq<Step>, id: string) {
    exists i :: 0 <= i < |steps| && steps[i].cmd == Rm(id)
  }

  /** An unhealthy cutover removes the new containers of its newest listing, no more and no less. */
  lemma UnhealthyRemovesIff(steps: seq<Step>, service: string, oldIds: set<string>, canaries: seq<string>, id: string)
    requires Rolled(steps, service, CanaryUnhealthy, oldIds, canaries)
    ensures Removed(steps, id) <==> id in NewestIds(steps, service) - oldIds
  {
    LastListedIsNewest(steps, service, oldIds, canaries);
    if i :| 0 <= i < |steps| && steps[i].cmd == Rm(id) {
      assert steps[i].cmd.id in NonEmpty(canaries);
    }
    if id in NewestIds(steps, service) - oldIds {
      assert id in NonEmpty(canaries);
    }
  }

  /** So no canary is left behind exactly when the newest listing still shows every one that an earlier poll
      saw: a canary that exits before the last poll is not listed any more, and stays. */
  lemma NoCanaryIsLeftIff(steps: seq<Step>, service: string, oldIds: set<string>, canaries: seq<string>)
    requires Rolled(steps, service, CanaryUnhealthy, oldIds, canaries)
    ensures (forall id :: NewSeen(steps, service, oldIds, id) ==> Removed(steps, id))
       <==> (forall id :: NewSeen(steps, service, oldIds, id) ==> id in NewestIds(steps, service))
  {
    forall id | NewSeen(steps, service, oldIds, id)
      ensures Removed(steps, id) <==> id in NewestIds(steps, service)
    {
      UnhealthyRemovesIff(steps, service, oldIds, canaries, id);
    }
  }

  /** One poll lists the canary, the next does not. */
  function LeftBehind(): seq<Step> {
    [Step(Read("web"), true, [Container("old", "web", true)]),
     Step(Up(Clone, false, Canary("web", 2)), true, []),
     Step(Read("web"), true, [Container("old", "web", true), Container("new", "web", false)]),
     Step(Read("web"), true, [Container("old", "web", true)])]
  }

  lemma NothingRemoved(steps: seq<Step>, service: string, oldIds: set<string>)
    requires AboutOnly(steps, service) && StartsCanary(steps, service, oldIds)
    requires forall i :: 0 <= i < |steps| ==> !Removes(steps[i])
    ensures CutoverKeeps(steps, service, CanaryUnhealthy, oldIds, []) && TouchesListed(steps, service, {})
    ensures forall id :: !Removed(steps, id)
  {
  }

  lemma LeftBehindLists()
    ensures var steps := LeftBehind();
      && Ids(steps[0].lines, "web") == Ids(steps[3].lines, "web") == {"old"} && "new" in Ids(steps[2].lines, "web")
      && forall i :: 1 <= i < |steps| ==> !ShowsHealthyCanary(steps[i], "web", {"old"})
  {
    var steps := LeftBehind();
    assert Container("old", "web", true) in steps[0].lines && Container("new", "web", false) in steps[2].lines;
    assert forall c :: c in steps[2].lines || c in steps[3].lines ==> c.id == "old" || !c.healthy;
  }

  /** Such a cutover keeps every promise and ends without a removal. */
  lemma CanaryIsLeftBehind()
    ensures Rolled(LeftBehind(), "web", CanaryUnhealthy, {"old"}, [])
    ensures NewSeen(LeftBehind(), "web", {"old"}, "new") && !Removed(LeftBehind(), "new")
  {
    var steps := LeftBehind();
    LeftBehindLists();
    assert ListedIn(steps, "web", "new") by {
      assert Listing(steps[2], "web");
    }
    NothingRemoved(steps, "web", {"old"});
    assert LastListed(steps, "web", {"old"}, []) by {
      assert Listing(steps[3], "web");
    }
  }
}
