/** A client's log stream (internal/ui/logs.go): subscribe, then replay, then drain the channel, with
    appends by others at any point in between. */
module LogStream {
  import opened Sequences
  import opened LogBuffer

  /** The Last-Event-ID header of the request. */
  datatype LastEventID = Absent | Unreadable | Known(id: int)

  lemma ReplayIsFromLog(all: seq<Entry>, start: int, capacity: nat, after: int)
    requires Numbered(all, start)
    ensures var out := Replay(all, start, capacity, after); forall i :: 0 <= i < |out| ==> out[i] in all
  {
    var out := Replay(all, start, capacity, after);
    ReplayHolds(all, start, capacity, after);
    PinnedSetHolds(all, start, after, 0);
    forall i | 0 <= i < |out|
      ensures out[i] in all
    {
      assert out[i] in out;
    }
  }

  lemma RecentIsReplayed(all: seq<Entry>, start: int, capacity: nat, after: int, i: nat)
    requires Numbered(all, start) && i < |all| && i >= |all| - capacity
    ensures all[i] in Replay(all, start, capacity, after) || all[i].id <= after
  {
    ReplayHolds(all, start, capacity, after);
    NumberedIncreases(all, start, capacity);
  }

  function NewestId(sent: seq<Entry>): int {
    if sent == [] then 0 else Last(sent).id
  }

  /** The entry was sent, or not asked for. */
  predicate Settled(all: seq<Entry>, sent: seq<Entry>, after: int, i: nat)
    requires i < |all|
  {
    all[i] in sent || all[i].id <= after
  }

  /** Of the entries since the subscription, those taken from the channel are settled, and so are those
      still in it that the stream will skip. */
  ghost predicate NothingMissed(all: seq<Entry>, from: nat, upTo: nat, sent: seq<Entry>, lastSent: int, after: int) {
    forall i :: from <= i < |all| && (i < upTo || all[i].id <= lastSent) ==> Settled(all, sent, after, i)
  }

  lemma LastSentIsOld(all: seq<Entry>, start: int, sent: seq<Entry>, lastSent: int)
    requires Numbered(all, start) && start > 0 && forall e :: e in sent ==> e in all
    requires lastSent == NewestId(sent)
    ensures lastSent < start + |all|
  {
    if sent != [] {
      assert Last(sent) in sent;
    }
  }

  lemma BacklogMissesNothing(all: seq<Entry>, start: int, capacity: nat, from: nat, lastSent: int, after: int)
    requires Numbered(all, start) && from <= |all| && |all| - from <= capacity
    ensures NothingMissed(all, from, from, Replay(all, start, capacity, after), lastSent, after)
  {
    forall i | from <= i < |all|
      ensures Settled(all, Replay(all, start, capacity, after), after, i)
    {
      RecentIsReplayed(all, start, capacity, after, i);
    }
  }

  /** A client without a header wants everything, one with a readable header what is newer. */
  predicate AsksFor(header: LastEventID, e: Entry) {
    match header
    case Absent => true
    case Unreadable => false
    case Known(id) => e.id > id
  }

  /** The entry is among the newest that fit the ring, or among the newest fifty outcome lines. */
  ghost predicate KeptIn(all: seq<Entry>, capacity: nat, e: Entry) {
    e in LastN(all, capacity) || e in LastN(Pins(all), 50)
  }

  lemma ReplayAnswers(all: seq<Entry>, start: int, capacity: nat, header: LastEventID)
    requires Numbered(all, start) && start > 0
    ensures !header.Unreadable? ==>
              forall e :: e in Replay(all, start, capacity, Stream.AskedFrom(header)) <==>
                          AsksFor(header, e) && KeptIn(all, capacity, e)
  {
    ReplayHolds(all, start, capacity, Stream.AskedFrom(header));
    PinsArePinned(all, start);
    NumberedIncreases(all, start, capacity);
    assert forall e :: KeptIn(all, capacity, e) ==> e in all && e.id > 0;
  }

  class Stream {
    const log: Log
    var sub: nat
    var sent: seq<Entry>
    var lastSent: int
    /** Whether the backlog was replayed; the id it was asked from; where in the log the subscription
        began and how many entries were taken from the channel since. */
    ghost var streaming: bool
    ghost var after: int
    ghost var from: nat
    ghost var taken: nat

    ghost predicate Lossless()
      reads this, log
    {
      sub !in log.lossy
    }

    /** The channel holds what was appended since the subscription and not taken yet, unless it overflowed. */
    ghost predicate Subscribed()
      reads this, log
    {
      && log.Valid() && sub in log.subs && |log.subs[sub]| <= SUBSCRIBER_BUFFER && from + taken <= |log.all|
      && (Lossless() ==> log.subs[sub] == log.all[from + taken..])
      && (forall e :: e in log.subs[sub] ==> e in log.all)
    }

    /** Sent ids increase, and lastSent is the newest. */
    ghost predicate SentInOrder()
      reads this, log
    {
      && Increasing(sent) && (forall e :: e in sent ==> e in log.all)
      && lastSent == NewestId(sent)
    }

    ghost predicate Live()
      reads this, log
    {
      && Subscribed() && SentInOrder()
      && (!streaming ==> sent == [] && taken == 0)
      && (streaming && Lossless() && log.capacity >= SUBSCRIBER_BUFFER ==>
            NothingMissed(log.all, from, from + taken, sent, lastSent, after))
    }

    constructor (l: Log)
      requires l.Valid()
      modifies l
      ensures Live() && log == l && !streaming && Lossless() && from == |l.all| && l.all == old(l.all)
    {
      log := l;
      sent, lastSent, streaming, after, taken := [], 0, false, 0, 0;
      from := |l.all|;
      new;
      sub := log.Subscribe();
    }

    /** Any other goroutine logs a line. */
    method OthersAppend(time: int, level: string, msg: Msg, attrs: map<Attr, string>)
      requires Live()
      modifies log
      ensures Live() && log.all == old(log.all) + [Entry(old(log.nextID), time, level, msg, attrs)]
      ensures Lossless() <==> old(Lossless()) && |old(log.subs[sub])| < SUBSCRIBER_BUFFER
    {
      ghost var before := log.all;
      LastSentIsOld(log.all, log.start, sent, lastSent);
      Offer(time, level, msg, attrs);
    }

    /** Another client opens its own stream, takes from its own channel, or goes away. */
    method OthersSubscribe() returns (id: nat)
      requires Live()
      modifies log`subs, log`nextSub
      ensures Live() && id != sub && log.subs == old(log.subs)[id := []] && (Lossless() <==> old(Lossless()))
    {
      id := log.Subscribe();
    }

    method OthersReceive(id: nat) returns (e: Entry)
      requires Live() && id != sub && id in log.subs && log.subs[id] != []
      modifies log`subs
      ensures Live() && log.subs == old(log.subs)[id := old(log.subs)[id][1..]] && (Lossless() <==> old(Lossless()))
    {
      e := log.Receive(id);
    }

    method OthersUnsubscribe(id: nat)
      requires Live() && id != sub
      modifies log`subs
      ensures Live() && log.subs == old(log.subs) - {id} && (Lossless() <==> old(Lossless()))
    {
      log.Unsubscribe(id);
    }

    method Offer(time: int, level: string, msg: Msg, attrs: map<Attr, string>)
      requires Subscribed()
      modifies log
      ensures Subscribed() && log.all == old(log.all) + [Entry(old(log.nextID), time, level, msg, attrs)]
      ensures Lossless() <==> old(Lossless()) && |old(log.subs[sub])| < SUBSCRIBER_BUFFER
    {
      log.Append(time, level, msg, attrs);
    }

    method Send(e: Entry)
      requires log.Valid() && SentInOrder() && e in log.all && e.id > lastSent
      modifies this`sent, this`lastSent
      ensures SentInOrder() && sent == old(sent) + [e] && lastSent == e.id
    {
      sent := sent + [e];
      lastSent := e.id;
    }

    /** The id a header asks from. */
    static function AskedFrom(header: LastEventID): int {
      if header.Known? then header.id else 0
    }

    method Backlog(header: LastEventID) returns (backlog: seq<Entry>)
      requires log.Valid()
      ensures backlog == if header.Unreadable? then [] else Replay(log.all, log.start, log.capacity, AskedFrom(header))
      ensures Increasing(backlog) && forall i :: 0 <= i < |backlog| ==> backlog[i] in log.all
    {
      backlog := [];
      if !header.Unreadable? {
        backlog := log.EntriesAfter(AskedFrom(header));
        ReplayIsFromLog(log.all, log.start, log.capacity, AskedFrom(header));
      }
    }

    /** The backlog above the client's last event, or all of it; none when the header is unreadable. */
    method SendBacklog(header: LastEventID)
      requires Live() && !streaming
      modifies this`sent, this`lastSent, this`streaming, this`after
      ensures Live() && streaming && after == AskedFrom(header)
      ensures sent == if header.Unreadable? then [] else Replay(log.all, log.start, log.capacity, after)
      ensures forall e :: e in sent <==> AsksFor(header, e) && KeptIn(log.all, log.capacity, e)
    {
      ReplayAnswers(log.all, log.start, log.capacity, header);
      var backlog := Ask(header);
      SendAll(backlog);
      streaming := true;
    }

    method Ask(header: LastEventID) returns (backlog: seq<Entry>)
      requires Subscribed() && taken == 0
      modifies this`after
      ensures Subscribed() && after == AskedFrom(header)
      ensures backlog == if header.Unreadable? then [] else Replay(log.all, log.start, log.capacity, after)
      ensures Increasing(backlog) && forall i :: 0 <= i < |backlog| ==> backlog[i] in log.all
      ensures Lossless() && log.capacity >= SUBSCRIBER_BUFFER ==>
              NothingMissed(log.all, from, from, backlog, NewestId(backlog), after)
    {
      after := AskedFrom(header);
      backlog := Backlog(header);
      if Lossless() && log.capacity >= SUBSCRIBER_BUFFER {
        if !header.Unreadable? {
          BacklogMissesNothing(log.all, log.start, log.capacity, from, NewestId(backlog), after);
        }
      }
    }

    method SendAll(backlog: seq<Entry>)
      requires log.Valid() && sent == [] && lastSent == 0 && Increasing(backlog)
      requires forall i :: 0 <= i < |backlog| ==> backlog[i] in log.all
      modifies this`sent, this`lastSent
      ensures SentInOrder() && sent == backlog
    {
      for i := 0 to |backlog|
        invariant SentInOrder() && sent == backlog[..i]
      {
        TakeMore(backlog, i);
        Send(backlog[i]);
      }
      TakeAll(backlog);
    }

    method Take() returns (e: Entry)
      requires Subscribed() && log.subs[sub] != []
      modifies this`taken, log`subs
      ensures Subscribed() && e == old(log.subs[sub])[0] && e in log.all
      ensures Lossless() ==> taken == old(taken) + 1 && e == log.all[from + old(taken)]
    {
      e := log.Receive(sub);
      if Lossless() {
        taken := taken + 1;
      }
    }

    /** Takes one entry from the channel and sends it unless the replay covered it. */
    method Drain()
      requires Live() && streaming && log.subs[sub] != []
      modifies this, log`subs
      ensures Live() && streaming && after == old(after) && from == old(from) && sub == old(sub)
      ensures var e := old(log.subs[sub])[0];
        sent == if e.id <= old(lastSent) then old(sent) else old(sent) + [e]
    {
      ghost var i := from + taken;
      if Lossless() && log.capacity >= SUBSCRIBER_BUFFER {
        assert i < |log.all|;
      }
      var e := Take();
      if e.id > lastSent {
        Send(e);
      }
    }

    /** A drained stream whose channel never overflowed has sent everything logged since it subscribed,
        above the id it asked from, each once and in order. */
    lemma DrainedStreamMissesNothing(i: nat)
      requires Live() && streaming && Lossless() && log.capacity >= SUBSCRIBER_BUFFER && log.subs[sub] == []
      requires from <= i < |log.all| && log.all[i].id > after
      ensures Increasing(sent) && log.all[i] in sent
    {
      assert from + taken == |log.all|;
      assert Settled(log.all, sent, after, i);
    }
  }

  // ---------- why the ring must be as large as the channel ----------

  /** An entry logged after the subscription that the replay does not hold and the stream then skips. */
  ghost predicate Gap(all: seq<Entry>, start: int, capacity: nat, i: nat) {
    var backlog := Replay(all, start, capacity, 0);
    i < |all| && all[i] !in backlog && backlog != [] && all[i].id <= Last(backlog).id
  }

  /** No replay opens a gap among the entries that a channel can hold. */
  ghost predicate NeverGaps(capacity: nat) {
    forall all: seq<Entry>, start: int, i: nat ::
      Numbered(all, start) && start > 0 && |all| - i <= SUBSCRIBER_BUFFER ==> !Gap(all, start, capacity, i)
  }

  function PlainEntry(id: int): Entry {
    Entry(id, 0, "INFO", Other("line"), map[])
  }

  /** One plain line, then n outcome lines. */
  function Burst(n: nat): (all: seq<Entry>)
    ensures Numbered(all, 1) && |all| == n + 1
    ensures all[0] == PlainEntry(1) && forall i :: 1 <= i < |all| ==> all[i].msg.DeployComplete?
  {
    if n == 0 then [PlainEntry(1)] else Burst(n - 1) + [Entry(n + 1, 0, "INFO", DeployComplete, map[])]
  }

  lemma BurstGaps(capacity: nat)
    requires capacity < SUBSCRIBER_BUFFER
    ensures var n := if capacity == 0 then 1 else capacity;
      |Burst(n)| <= SUBSCRIBER_BUFFER && Gap(Burst(n), 1, capacity, 0)
  {
    var n: nat := if capacity == 0 then 1 else capacity;
    var all := Burst(n);
    var backlog := Replay(all, 1, capacity, 0);
    ReplayHolds(all, 1, capacity, 0);
    NumberedIncreases(all, 1, capacity);
    PinsArePinned(all, 1);
    PinnedSetHolds(all, 1, 0, n + 2);
    assert all[0] !in LastN(Pins(all), PINNED_CAP) by {
      assert !Pinned(all[0].msg, all[0].attrs);
      assert forall e :: e in LastN(Pins(all), PINNED_CAP) ==> e in Pins(all);
    }
    NewestPinIsKept(all, 1);
    assert all[n] in backlog;
    assert Last(backlog).id >= all[n].id by {
      var k :| 0 <= k < |backlog| && backlog[k] == all[n];
    }
  }

  lemma NewestPinIsKept(all: seq<Entry>, start: int)
    requires Numbered(all, start) && all != [] && Pinned(Last(all).msg, Last(all).attrs)
    ensures Last(all) in LastN(Pins(all), PINNED_CAP)
  {
    var pins := LastN(Pins(all), PINNED_CAP);
    assert Last(Pins(all)) == Last(all);
    assert Last(pins) == Last(all) && Last(pins) in pins;
  }

  /** Streams lose nothing between replay and channel exactly when the ring holds a full channel. */
  lemma NeverGapsIff(capacity: nat)
    ensures NeverGaps(capacity) <==> capacity >= 256
  {
    if capacity >= SUBSCRIBER_BUFFER {
      forall all: seq<Entry>, start: int, i: nat
        | Numbered(all, start) && start > 0 && |all| - i <= SUBSCRIBER_BUFFER
        ensures !Gap(all, start, capacity, i)
      {
        if i < |all| {
          RecentIsReplayed(all, start, capacity, 0, i);
        }
      }
    } else {
      var n: nat := if capacity == 0 then 1 else capacity;
      BurstGaps(capacity);
      assert |Burst(n)| - 0 <= SUBSCRIBER_BUFFER && Numbered(Burst(n), 1);
    }
  }
}
