/** The bounded event channel of internal/ledger/ledger.go, shared by every Watch call. */
module Channels {
  import opened Model

  const CAPACITY: nat := 256

  /** The non-blocking send: `select { case ch <- e: default: }`. */
  function TrySend(buffer: seq<Event>, e: Event): seq<Event> {
    if |buffer| < CAPACITY then buffer + [e] else buffer
  }

  datatype ChannelOp = Send(e: Event) | Receive(watcher: nat)

  type Streams = map<nat, seq<Event>>

  /** The buffer, what has become of every event offered so far, and what each watcher was handed. */
  datatype History = History(
    buffer: seq<Event>,
    accepted: seq<Event>,
    dropped: seq<Event>,
    received: seq<Event>,
    streams: Streams)

  const START := History([], [], [], [], map[])

  function StreamOf(streams: Streams, watcher: nat): seq<Event> {
    if watcher in streams then streams[watcher] else []
  }

  function Handed(streams: Streams, watcher: nat, e: Event): Streams {
    streams[watcher := StreamOf(streams, watcher) + [e]]
  }

  function After(h: History, op: ChannelOp): History {
    match op
    case Send(e) =>
      if |h.buffer| < CAPACITY
      then h.(buffer := TrySend(h.buffer, e), accepted := h.accepted + [e])
      else h.(dropped := h.dropped + [e])
    case Receive(w) =>
      // an empty channel blocks the watcher: nothing happens
      if h.buffer == [] then h
      else h.(buffer := h.buffer[1..],
              received := h.received + [h.buffer[0]],
              streams := Handed(h.streams, w, h.buffer[0]))
  }

  function From(h: History, ops: seq<ChannelOp>): History {
    if ops == [] then h else After(From(h, ops[..|ops| - 1]), ops[|ops| - 1])
  }

  function Play(ops: seq<ChannelOp>): History {
    From(START, ops)
  }

  lemma OneMoreOp(h: History, ops: seq<ChannelOp>, op: ChannelOp)
    ensures From(h, ops + [op]) == After(From(h, ops), op)
  {
    assert (ops + [op])[..|ops|] == ops;
  }

  // ---------- independent readings of a run ----------

  function Offered(ops: seq<ChannelOp>): seq<Event> {
    if ops == [] then []
    else Offered(ops[..|ops| - 1]) + (match ops[|ops| - 1] case Send(e) => [e] case Receive(_) => [])
  }

  /** All that a group of watchers was handed. */
  ghost function Together(streams: Streams, watchers: set<nat>): multiset<Event> {
    if watchers == {} then multiset{}
    else var w :| w in watchers; multiset(StreamOf(streams, w)) + Together(streams, watchers - {w})
  }

  ghost predicate Subsequence(a: seq<Event>, b: seq<Event>) {
    if a == [] then true
    else if b == [] then false
    else
      var b' := b[..|b| - 1];
      || (a[|a| - 1] == b[|b| - 1] && Subsequence(a[..|a| - 1], b'))
      || Subsequence(a, b')
  }

  lemma {:induction false} TakeOut(streams: Streams, watchers: set<nat>, w: nat)
    requires w in watchers
    ensures Together(streams, watchers) == multiset(StreamOf(streams, w)) + Together(streams, watchers - {w})
  {
    var v :| v in watchers &&
      Together(streams, watchers) == multiset(StreamOf(streams, v)) + Together(streams, watchers - {v});
    if v != w {
      TakeOut(streams, watchers - {v}, w);
      TakeOut(streams, watchers - {w}, v);
      assert watchers - {v} - {w} == watchers - {w} - {v};
    }
  }

  lemma {:induction false} OthersKeepTheirs(streams: Streams, watchers: set<nat>, w: nat, e: Event)
    requires w !in watchers
    ensures Together(Handed(streams, w, e), watchers) == Together(streams, watchers)
  {
    if watchers != {} {
      var v :| v in watchers;
      TakeOut(streams, watchers, v);
      TakeOut(Handed(streams, w, e), watchers, v);
      OthersKeepTheirs(streams, watchers - {v}, w, e);
    }
  }

  lemma OneMoreHanded(streams: Streams, w: nat, e: Event)
    ensures
      var streams' := Handed(streams, w, e);
      Together(streams', streams'.Keys) == Together(streams, streams.Keys) + multiset{e}
  {
    var streams' := Handed(streams, w, e);
    var others := streams.Keys - {w};
    assert streams'.Keys - {w} == others && StreamOf(streams', w) == StreamOf(streams, w) + [e];
    NothingHandedYet(streams, w);
    hide Together, Handed, StreamOf;
    TakeOut(streams', streams'.Keys, w);
    OthersKeepTheirs(streams, others, w, e);
  }

  lemma NothingHandedYet(streams: Streams, w: nat)
    ensures
      Together(streams, streams.Keys) == multiset(StreamOf(streams, w)) + Together(streams, streams.Keys - {w})
  {
    if w in streams {
      TakeOut(streams, streams.Keys, w);
    } else {
      assert streams.Keys - {w} == streams.Keys && StreamOf(streams, w) == [];
    }
  }

  lemma SubsequenceGrows(a: seq<Event>, b: seq<Event>, e: Event)
    requires Subsequence(a, b)
    ensures Subsequence(a, b + [e]) && Subsequence(a + [e], b + [e])
  {
    assert (b + [e])[..|b|] == b && (a + [e])[..|a|] == a;
  }

  lemma {:induction false} SubsequenceOfMore(a: seq<Event>, b: seq<Event>, more: seq<Event>)
    requires Subsequence(a, b)
    ensures Subsequence(a, b + more)
    decreases |more|
  {
    hide Subsequence;
    if more == [] {
      assert b + more == b;
    } else {
      SubsequenceGrows(a, b, more[0]);
      SubsequenceOfMore(a, b + [more[0]], more[1..]);
      assert b + more == (b + [more[0]]) + more[1..];
    }
  }

  // ---------- what every operation keeps ----------

  /** The watchers' streams and the buffer share out the accepted events, in their order. */
  ghost predicate Shared(h: History) {
    && h.received + h.buffer == h.accepted
    && |h.buffer| <= CAPACITY
    && Together(h.streams, h.streams.Keys) == multiset(h.received)
    && forall w :: Subsequence(StreamOf(h.streams, w), h.received)
  }

  lemma SendShares(h: History, e: Event)
    requires Shared(h)
    ensures Shared(After(h, Send(e)))
  {
    if |h.buffer| < CAPACITY {
      assert h.received + (h.buffer + [e]) == h.accepted + [e];
    }
  }

  lemma HandedInOrder(streams: Streams, received: seq<Event>, w: nat, e: Event, v: nat)
    requires Subsequence(StreamOf(streams, v), received)
    ensures Subsequence(StreamOf(Handed(streams, w, e), v), received + [e])
  {
    hide Subsequence;
    SubsequenceGrows(StreamOf(streams, v), received, e);
  }

  lemma TakenFromTheFront(received: seq<Event>, buffer: seq<Event>)
    requires buffer != []
    ensures (received + [buffer[0]]) + buffer[1..] == received + buffer
    ensures multiset(received + [buffer[0]]) == multiset(received) + multiset{buffer[0]}
  {
  }

  lemma ReceiveShares(h: History, w: nat)
    requires Shared(h)
    ensures Shared(After(h, Receive(w)))
  {
    hide Together, Subsequence, Handed, StreamOf;
    if h.buffer != [] {
      TakenFromTheFront(h.received, h.buffer);
      OneMoreHanded(h.streams, w, h.buffer[0]);
      forall v ensures Subsequence(StreamOf(Handed(h.streams, w, h.buffer[0]), v), h.received + [h.buffer[0]]) {
        HandedInOrder(h.streams, h.received, w, h.buffer[0], v);
      }
    }
  }

  lemma OpShares(h: History, op: ChannelOp)
    requires Shared(h)
    ensures Shared(After(h, op))
  {
    hide Shared;
    match op
    case Send(e) => SendShares(h, e);
    case Receive(w) => ReceiveShares(h, w);
  }

  lemma {:induction false} PlayShares(ops: seq<ChannelOp>)
    ensures Shared(Play(ops))
  {
    hide After;
    if ops != [] {
      PlayShares(ops[..|ops| - 1]);
      hide Shared;
      OpShares(Play(ops[..|ops| - 1]), ops[|ops| - 1]);
    }
  }

  lemma {:induction false} EveryOfferIsKept(ops: seq<ChannelOp>)
    ensures
      var h := Play(ops);
      && |h.accepted| + |h.dropped| == |Offered(ops)|
      && multiset(h.accepted) + multiset(h.dropped) == multiset(Offered(ops))
  {
    if ops != [] {
      EveryOfferIsKept(ops[..|ops| - 1]);
      hide TrySend, Handed;
    }
  }

  /** Over any run of sends and receives by any number of watchers: nothing is
      reordered, duplicated or invented, and the buffer never exceeds its capacity. */
  lemma ChannelRuns(ops: seq<ChannelOp>)
    ensures
      var h := Play(ops);
      && h.received + h.buffer == h.accepted
      && |h.accepted| + |h.dropped| == |Offered(ops)|
      && multiset(h.accepted) + multiset(h.dropped) == multiset(Offered(ops))
      && |h.buffer| <= 256
  {
    PlayShares(ops);
    EveryOfferIsKept(ops);
    hide Play;
  }

  /** A send is dropped exactly when 256 accepted events are still unreceived. */
  lemma DropsExactlyWhenFull(ops: seq<ChannelOp>, e: Event)
    ensures
      var before, after := Play(ops), Play(ops + [Send(e)]);
      && (after.dropped == before.dropped + [e] <==> |before.accepted| - |before.received| == 256)
      && (after.accepted == before.accepted + [e] <==> |before.accepted| - |before.received| < 256)
  {
    ChannelRuns(ops);
    OneMoreOp(START, ops, Send(e));
    var before := Play(ops);
    assert |before.dropped| != |before.dropped + [e]| && |before.accepted| != |before.accepted + [e]|;
  }

  /** In any run every accepted event is still buffered or was handed to exactly one watcher. */
  lemma EachToOneWatcher(ops: seq<ChannelOp>)
    ensures
      var h := Play(ops);
      Together(h.streams, h.streams.Keys) + multiset(h.buffer) == multiset(h.accepted)
  {
    PlayShares(ops);
    hide Play, Together;
  }

  /** In any run every watcher sees the order of acceptance. */
  lemma StreamsKeepOrder(ops: seq<ChannelOp>, watcher: nat)
    ensures var h := Play(ops); Subsequence(StreamOf(h.streams, watcher), h.accepted)
  {
    PlayShares(ops);
    var h := Play(ops);
    hide Play, Subsequence;
    SubsequenceOfMore(StreamOf(h.streams, watcher), h.received, h.buffer);
  }
}
