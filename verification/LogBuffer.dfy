/** The in-memory log with live subscribers (internal/logbuf/log.go). */
module LogBuffer {
  import opened Sequences

  /** A line's message: the seven that say how a deploy or a run ended, and all others. */
  datatype Msg = DeployComplete | DeployFailed | RolledBack | RolledBackUnhealthy | StackRestored | HealExhausted
               | RunComplete | Other(text: string)

  /** An attribute key: the run summary's four outcome counters, and all others. */
  datatype Attr = Deployed | Failed | RolledBackCount | UnhealthyCount | OtherAttr(name: string)

  datatype Entry = Entry(id: int, time: int, level: string, msg: Msg, attrs: map<Attr, string>)

  const SUBSCRIBER_BUFFER := 256
  const PINNED_CAP := 50
  const RUN_OUTCOME_COUNTERS := [Deployed, Failed, RolledBackCount, UnhealthyCount]

  predicate Counts(attrs: map<Attr, string>, counter: Attr) {
    counter in attrs && attrs[counter] != "" && attrs[counter] != "0"
  }

  /** A terminal outcome line, unless it is a run summary that counts nothing. */
  predicate Pinned(msg: Msg, attrs: map<Attr, string>) {
    !msg.Other? && (msg.RunComplete? ==> exists k :: k in RUN_OUTCOME_COUNTERS && Counts(attrs, k))
  }

  lemma PinnedIsRaw(msg: Msg, attrs: map<Attr, string>)
    ensures Pinned(msg, attrs) <==>
              if msg == RunComplete then
                exists k :: k in {Deployed, Failed, RolledBackCount, UnhealthyCount}
                              && k in attrs && attrs[k] !in {"", "0"}
              else msg in {DeployComplete, DeployFailed, RolledBack, RolledBackUnhealthy, StackRestored, HealExhausted}
  {
    assert forall k :: k in RUN_OUTCOME_COUNTERS <==> k in {Deployed, Failed, RolledBackCount, UnhealthyCount};
    if k :| k in {Deployed, Failed, RolledBackCount, UnhealthyCount} && k in attrs && attrs[k] !in {"", "0"} {
      assert Counts(attrs, k);
    }
  }

  method IsPinnedOutcome(msg: Msg, attrs: map<Attr, string>) returns (pinned: bool)
    ensures pinned == Pinned(msg, attrs)
    ensures pinned <==>
              if msg == RunComplete then
                exists k :: k in {Deployed, Failed, RolledBackCount, UnhealthyCount}
                              && k in attrs && attrs[k] !in {"", "0"}
              else msg in {DeployComplete, DeployFailed, RolledBack, RolledBackUnhealthy, StackRestored, HealExhausted}
  {
    PinnedIsRaw(msg, attrs);
    if msg.Other? {
      return false;
    }
    if !msg.RunComplete? {
      return true;
    }
    for i := 0 to |RUN_OUTCOME_COUNTERS|
      invariant forall j :: 0 <= j < i ==> !Counts(attrs, RUN_OUTCOME_COUNTERS[j])
    {
      if Counts(attrs, RUN_OUTCOME_COUNTERS[i]) {
        return true;
      }
    }
    return false;
  }

  /** The outcome lines of a log, in order. */
  function Pins(all: seq<Entry>): seq<Entry> {
    if all == [] then []
    else
      var before, last := Pins(all[..|all| - 1]), all[|all| - 1];
      if Pinned(last.msg, last.attrs) then before + [last] else before
  }

  /** The entries with an id above one bound and below another. */
  function Between(entries: seq<Entry>, above: int, below: int): seq<Entry> {
    if entries == [] then []
    else
      var before, last := Between(entries[..|entries| - 1], above, below), entries[|entries| - 1];
      if above < last.id < below then before + [last] else before
  }

  /** What is kept of a log whose first entry has the id start: the ring and the pinned set. */
  function Ring(all: seq<Entry>, capacity: nat): seq<Entry> {
    LastN(all, capacity)
  }

  function PinnedSet(all: seq<Entry>): seq<Entry> {
    LastN(Pins(all), PINNED_CAP)
  }

  /** The replay after an id: the pinned lines older than the ring, then the ring. */
  function Replay(all: seq<Entry>, start: int, capacity: nat, after: int): seq<Entry> {
    var ring := Ring(all, capacity);
    var ringStart := if ring == [] then start + |all| else ring[0].id;
    Between(PinnedSet(all), after, ringStart) + Between(ring, after, start + |all|)
  }

  /** Ids count up from the start. */
  ghost predicate Numbered(all: seq<Entry>, start: int) {
    forall i :: 0 <= i < |all| ==> all[i].id == start + i
  }

  ghost predicate Increasing(entries: seq<Entry>) {
    forall i, j :: 0 <= i < j < |entries| ==> entries[i].id < entries[j].id
  }

  // ---------- what a replay holds ----------

  lemma {:induction false} PinsArePinned(all: seq<Entry>, start: int)
    requires Numbered(all, start)
    ensures Increasing(Pins(all))
    ensures forall e :: e in Pins(all) <==> e in all && Pinned(e.msg, e.attrs)
  {
    if all != [] {
      var front, last := all[..|all| - 1], all[|all| - 1];
      PinsArePinned(front, start);
      assert all == front + [last];
      assert forall e :: e in front ==> e.id < last.id;
    }
  }

  lemma {:induction false} BetweenSelects(entries: seq<Entry>, above: int, below: int)
    requires Increasing(entries)
    ensures Increasing(Between(entries, above, below))
    ensures forall e :: e in Between(entries, above, below) <==> e in entries && above < e.id < below
  {
    if entries != [] {
      var front, last := entries[..|entries| - 1], entries[|entries| - 1];
      BetweenSelects(front, above, below);
      assert entries == front + [last];
      assert forall e :: e in front ==> e.id < last.id;
    }
  }

  lemma NumberedIncreases(all: seq<Entry>, start: int, n: nat)
    requires Numbered(all, start)
    ensures Increasing(LastN(all, n)) && Numbered(LastN(all, n), start + |all| - |LastN(all, n)|)
    ensures forall e :: e in all ==> start <= e.id < start + |all|
    ensures forall e :: e in LastN(all, n) <==> e in all && e.id >= start + |all| - |LastN(all, n)|
  {
    var kept := LastN(all, n);
    var from := |all| - |kept|;
    assert forall i :: 0 <= i < |kept| ==> kept[i] == all[from + i];
    forall e | e in all && e.id >= start + from
      ensures e in kept
    {
      var i :| 0 <= i < |all| && all[i] == e;
      assert kept[i - from] == e;
    }
  }

  lemma ConcatIncreases(a: seq<Entry>, b: seq<Entry>, bound: int)
    requires Increasing(a) && Increasing(b)
    requires (forall e :: e in a ==> e.id < bound) && (forall e :: e in b ==> e.id >= bound)
    ensures Increasing(a + b)
  {
    forall i, j | 0 <= i < j < |a + b|
      ensures (a + b)[i].id < (a + b)[j].id
    {
      if i < |a| && j >= |a| {
        assert a[i] in a && b[j - |a|] in b;
      }
    }
  }

  lemma PinnedSetHolds(all: seq<Entry>, start: int, after: int, below: int)
    requires Numbered(all, start)
    ensures var older := Between(PinnedSet(all), after, below);
      Increasing(older) && forall e :: e in older <==> e in PinnedSet(all) && after < e.id < below
    ensures forall e :: e in PinnedSet(all) ==> e in all
  {
    PinsArePinned(all, start);
    BetweenSelects(PinnedSet(all), after, below);
    forall e | e in PinnedSet(all)
      ensures e in all
    {
      assert e in Pins(all);
    }
  }

  /** A replay is exactly the entries above the id that are among the newest capacity entries or among
      the newest 50 outcome lines, in id order and without repetition. */
  lemma ReplayHolds(all: seq<Entry>, start: int, capacity: nat, after: int)
    requires Numbered(all, start)
    ensures Increasing(Replay(all, start, capacity, after))
    ensures forall e :: e in Replay(all, start, capacity, after) <==>
            e.id > after && (e in LastN(all, capacity) || e in LastN(Pins(all), 50))
  {
    var ring, end := Ring(all, capacity), start + |all|;
    var ringStart := end - |ring|;
    NumberedIncreases(all, start, capacity);
    assert ringStart == if ring == [] then end else ring[0].id;
    var older, newer := Between(PinnedSet(all), after, ringStart), Between(ring, after, end);
    PinnedSetHolds(all, start, after, ringStart);
    BetweenSelects(ring, after, end);
    ConcatIncreases(older, newer, ringStart);
    assert Replay(all, start, capacity, after) == older + newer;
    forall e: Entry
      ensures e in older + newer <==> e.id > after && (e in ring || e in PinnedSet(all))
    {
      assert e in older + newer <==> e in older || e in newer;
    }
  }

  lemma SameLast(a: seq<Entry>, b: seq<Entry>)
    requires Increasing(a) && Increasing(b) && a != [] && b != [] && forall e :: e in a <==> e in b
    ensures Last(a) == Last(b)
  {
    assert Last(a) in a && Last(b) in b;
    var i :| 0 <= i < |a| && a[i] == Last(b);
    var j :| 0 <= j < |b| && b[j] == Last(a);
    assert Last(b).id <= Last(a).id <= Last(b).id;
  }

  lemma ButLast(a: seq<Entry>, e: Entry)
    requires Increasing(a) && a != []
    ensures e in a[..|a| - 1] <==> e in a && e != Last(a)
  {
    assert a == a[..|a| - 1] + [Last(a)];
    assert forall i :: 0 <= i < |a| - 1 ==> a[i].id < Last(a).id;
  }

  /** Increasing lists with the same entries are the same list. */
  lemma {:induction false} IncreasingIsUnique(a: seq<Entry>, b: seq<Entry>)
    requires Increasing(a) && Increasing(b) && forall e :: e in a <==> e in b
    ensures a == b
  {
    if a != [] && b != [] {
      SameLast(a, b);
      var x, y := a[..|a| - 1], b[..|b| - 1];
      forall e: Entry
        ensures e in x <==> e in y
      {
        ButLast(a, e);
        ButLast(b, e);
      }
      IncreasingIsUnique(x, y);
      assert a == x + [Last(a)] && b == y + [Last(b)];
    } else {
      HasMember(a);
      HasMember(b);
    }
  }

  lemma HasMember(entries: seq<Entry>)
    ensures entries == [] || exists e :: e in entries
  {
    if entries != [] {
      assert entries[0] in entries;
    }
  }

  // ---------- the log ----------

  lemma PinsMore(all: seq<Entry>, e: Entry)
    ensures Pins(all + [e]) == if Pinned(e.msg, e.attrs) then Pins(all) + [e] else Pins(all)
  {
    assert (all + [e])[..|all|] == all;
  }

  lemma BetweenMore(entries: seq<Entry>, i: nat, above: int, below: int)
    requires i < |entries|
    ensures Between(entries[..i + 1], above, below) ==
      if above < entries[i].id < below then Between(entries[..i], above, below) + [entries[i]]
          else Between(entries[..i], above, below)
  {
    assert entries[..i + 1][..i] == entries[..i];
  }

  /** A subscriber's channel after an entry was offered: a full channel drops it. */
  function Offered(queue: seq<Entry>, e: Entry): seq<Entry> {
    if |queue| < SUBSCRIBER_BUFFER then queue + [e] else queue
  }

  class Log {
    const capacity: nat
    var entries: seq<Entry>
    var pinned: seq<Entry>
    var subs: map<nat, seq<Entry>>
    var nextSub: nat
    var nextID: int
    /** Everything appended, the id it started from, and the subscribers that lost an entry. */
    ghost var all: seq<Entry>
    ghost const start: int
    ghost var lossy: set<nat>

    ghost predicate Valid()
      reads this
    {
      && Numbered(all, start) && nextID == start + |all| && start > 0
      && entries == Ring(all, capacity) && pinned == PinnedSet(all)
      && (forall k :: k in subs || k in lossy ==> k < nextSub)
    }

    /** The clock seeds the ids, so that they exceed those of an earlier process. */
    constructor (cap: nat, nowMillis: int)
      requires nowMillis > 0
      ensures Valid() && capacity == cap && all == [] && start == nowMillis && subs == map[] && lossy == {}
    {
      capacity, entries, pinned, subs, nextSub, nextID := cap, [], [], map[], 0, nowMillis;
      all, start, lossy := [], nowMillis, {};
    }

    method StoreInRing(e: Entry)
      requires entries == Ring(all, capacity)
      modifies this`entries
      ensures entries == Ring(all + [e], capacity)
    {
      LastNAppended(all, e, capacity);
      entries := entries + [e];
      if |entries| > capacity {
        entries := entries[|entries| - capacity..];
      }
    }

    method StorePinned(e: Entry)
      requires pinned == PinnedSet(all)
      modifies this`pinned
      ensures pinned == PinnedSet(all + [e])
    {
      PinsMore(all, e);
      LastNAppended(Pins(all), e, PINNED_CAP);
      var pin := IsPinnedOutcome(e.msg, e.attrs);
      if pin {
        pinned := pinned + [e];
        if |pinned| > PINNED_CAP {
          pinned := pinned[|pinned| - PINNED_CAP..];
        }
      }
    }

    method Store(e: Entry)
      requires Valid() && e.id == nextID
      modifies this`entries, this`pinned, this`nextID, this`all
      ensures Valid() && all == old(all) + [e]
    {
      nextID := nextID + 1;
      StoreInRing(e);
      StorePinned(e);
      all := all + [e];
    }

    /** Stores an entry with the next id and offers it to every subscriber. */
    method Append(time: int, level: string, msg: Msg, attrs: map<Attr, string>)
      requires Valid()
      modifies this
      ensures Valid() && all == old(all) + [Entry(old(nextID), time, level, msg, attrs)]
      ensures subs.Keys == old(subs.Keys) && forall k :: k in subs ==> subs[k] == Offered(old(subs)[k], all[|all| - 1])
      ensures lossy == old(lossy) + set k | k in old(subs) && |old(subs)[k]| >= 256
    {
      var e := Entry(nextID, time, level, msg, attrs);
      Store(e);
      lossy := lossy + set k | k in subs && |subs[k]| >= SUBSCRIBER_BUFFER;
      Publish(e);
    }

    method Publish(e: Entry)
      modifies this`subs
      ensures subs.Keys == old(subs.Keys) && forall k :: k in subs ==> subs[k] == Offered(old(subs)[k], e)
    {
      var todo := subs.Keys;
      while todo != {}
        invariant todo <= subs.Keys == old(subs).Keys
        invariant forall k :: k in subs ==> subs[k] == if k in todo then old(subs)[k] else Offered(old(subs)[k], e)
        decreases |todo|
      {
        var k :| k in todo;
        if |subs[k]| < SUBSCRIBER_BUFFER {
          subs := subs[k := subs[k] + [e]];
        }
        todo := todo - {k};
      }
    }

    /** The buffered entries above an id, evicted outcome lines included. */
    method EntriesAfter(after: int) returns (out: seq<Entry>)
      requires Valid()
      ensures out == Replay(all, start, capacity, after)
      ensures Increasing(out)
      ensures forall e :: e in out <==> e.id > after && (e in LastN(all, capacity) || e in LastN(Pins(all), 50))
    {
      var ringStart := nextID;
      if |entries| > 0 {
        ringStart := entries[0].id;
      }
      var older := EvictedPins(after, ringStart);
      var ring := RingAfter(after, start + |all|);
      out := older + ring;
      ReplayHolds(all, start, capacity, after);
    }

    method EvictedPins(after: int, ringStart: int) returns (out: seq<Entry>)
      ensures out == Between(pinned, after, ringStart)
    {
      out := [];
      for i := 0 to |pinned|
        invariant out == Between(pinned[..i], after, ringStart)
      {
        BetweenMore(pinned, i, after, ringStart);
        if pinned[i].id < ringStart && pinned[i].id > after {
          out := out + [pinned[i]];
        }
      }
      TakeAll(pinned);
    }

    method RingAfter(after: int, ghost below: int) returns (out: seq<Entry>)
      requires forall i :: 0 <= i < |entries| ==> entries[i].id < below
      ensures out == Between(entries, after, below)
    {
      out := [];
      for i := 0 to |entries|
        invariant out == Between(entries[..i], after, below)
      {
        BetweenMore(entries, i, after, below);
        if entries[i].id > after {
          out := out + [entries[i]];
        }
      }
      TakeAll(entries);
    }

    method Subscribe() returns (id: nat)
      requires Valid()
      modifies this`subs, this`nextSub
      ensures Valid() && id !in old(subs) && id !in lossy && subs == old(subs)[id := []]
    {
      id := nextSub;
      nextSub := nextSub + 1;
      subs := subs[id := []];
    }

    method Unsubscribe(id: nat)
      requires Valid()
      modifies this`subs
      ensures Valid() && subs == old(subs) - {id}
    {
      subs := subs - {id};
    }

    /** The subscriber takes the oldest entry of its channel. */
    method Receive(id: nat) returns (e: Entry)
      requires Valid() && id in subs && subs[id] != []
      modifies this`subs
      ensures Valid() && e == old(subs)[id][0] && subs == old(subs)[id := old(subs)[id][1..]]
    {
      e := subs[id][0];
      subs := subs[id := subs[id][1..]];
    }
  }
}
