/** The host as the deploy pipeline sees it: every command it issues is a step of a trace, and
    whether it succeeds is up to the environment. */
module Host {
  import opened Options

  /** One line of `docker compose ps`. */
  datatype Container = Container(id: string, service: string, healthy: bool)

  /** The compose file an up applies: the clone's, or the stack's as of a commit. */
  datatype Version = Clone | AtCommit(commit: string)

  datatype Target = Everything | Only(services: seq<string>) | Canary(service: string, replicas: nat)

  datatype Command =
    | PreHook
    | PostHook
    | Pull
    | Build
    | Up(version: Version, gated: bool, target: Target)
    | Probe
    | StopOnDemand
    | Read(service: string)
    | Stop(id: string)
    | Rm(id: string)

  /** A command that was issued, whether it succeeded, and what a read listed. */
  datatype Step = Step(cmd: Command, ok: bool, lines: seq<Container>)

  ghost predicate NoUp(steps: seq<Step>) {
    forall i :: 0 <= i < |steps| ==> !steps[i].cmd.Up?
  }

  lemma NoUpBoth(a: seq<Step>, b: seq<Step>)
    ensures NoUp(a + b) <==> NoUp(a) && NoUp(b)
  {
    assert forall i :: 0 <= i < |a| ==> (a + b)[i] == a[i];
    assert forall i :: 0 <= i < |b| ==> (a + b)[|a| + i] == b[i];
  }

  class Runner {
    const answers: nat -> bool
    const listings: nat -> seq<Container>
    const envReadable: nat -> bool
    var clock: nat
    var trace: seq<Step>

    constructor (answers: nat -> bool, listings: nat -> seq<Container>, envReadable: nat -> bool)
      ensures trace == [] && clock == 0
      ensures this.answers == answers && this.listings == listings && this.envReadable == envReadable
    {
      this.answers, this.listings, this.envReadable := answers, listings, envReadable;
      clock, trace := 0, [];
    }

    /** Between the two moments every read of the env files failed. */
    ghost predicate EnvUnreadable(from: nat, to: nat) {
      forall t :: from < t <= to ==> !envReadable(t)
    }

    /** A docker compose command at the moment is issued, and succeeds. */
    ghost predicate Composes(at: nat) {
      envReadable(at + 1) && answers(at + 1)
    }

    method Run(cmd: Command) returns (ok: bool)
      modifies this
      ensures trace == old(trace) + [Step(cmd, ok, [])]
      ensures ok == answers(old(clock)) && clock == old(clock) + 1
    {
      ok := answers(clock);
      clock := clock + 1;
      trace := trace + [Step(cmd, ok, [])];
    }

    /** A docker compose command: it is not even issued when the env files cannot be read. */
    method Compose(cmd: Command) returns (ok: bool, ghost steps: seq<Step>)
      modifies this
      ensures trace == old(trace) + steps && ok == Composes(old(clock))
      ensures if envReadable(old(clock) + 1) then steps == [Step(cmd, ok, [])] && clock == old(clock) + 2
              else steps == [] && clock == old(clock) + 1
      ensures cmd.Up? ==> (NoUp(steps) <==> steps == [])
      ensures EnvUnreadable(old(clock), clock) ==> steps == [] && !ok
    {
      clock := clock + 1;
      if !envReadable(clock) {
        return false, [];
      }
      ok := Run(cmd);
      steps := [Step(cmd, ok, [])];
      assert steps[0].cmd == cmd;
    }

    /** Lists a service's containers; compose already filters, the caller filters again. */
    method List(service: string) returns (lines: Option<seq<Container>>)
      modifies this
      ensures clock == old(clock) + 1 && (lines.Some? <==> answers(old(clock)))
      ensures lines.Some? ==> trace == old(trace) + [Step(Read(service), true, lines.value)]
      ensures lines.None? ==> trace == old(trace) + [Step(Read(service), false, [])]
    {
      var ok := answers(clock);
      var seen := listings(clock);
      clock := clock + 1;
      trace := trace + [Step(Read(service), ok, if ok then seen else [])];
      return if ok then Some(seen) else None;
    }
  }
}
