/** The channel in the runs of any number of calls: what is broadcast, and what each watcher gets. */
module Broadcasts {
  import opened Model
  import opened Tables
  import opened Protocol
  import opened Interleavings
  import Channels

  // ---------- read off a run ----------

  /** The event an action puts on the channel. */
  function Accepted(s: System, a: Action): seq<Event> {
    if a.Advance? && a.tid in s.threads && s.threads[a.tid].SubCast? && |s.w.channel| < 256
    then [BroadcastEntry(s.threads[a.tid].row, a.c.now)] else []
  }

  /** The event an action hands to a watcher. */
  function Delivered(s: System, a: Action, watcher: nat): seq<Event> {
    if a == Deliver(watcher) && s.w.channel != [] then [s.w.channel[0]] else []
  }

  function AcceptedIn(tr: seq<System>, acts: seq<Action>): seq<Event>
    requires |tr| == |acts| + 1
  {
    if acts == [] then []
    else var n := |acts| - 1; AcceptedIn(tr[..n + 1], acts[..n]) + Accepted(tr[n], acts[n])
  }

  function DeliveredTo(tr: seq<System>, acts: seq<Action>, watcher: nat): seq<Event>
    requires |tr| == |acts| + 1
  {
    if acts == [] then []
    else var n := |acts| - 1; DeliveredTo(tr[..n + 1], acts[..n], watcher) + Delivered(tr[n], acts[n], watcher)
  }

  // ---------- the same run, as sends and receives ----------

  function Traffic(tr: seq<System>, acts: seq<Action>): seq<Channels.ChannelOp>
    requires |tr| == |acts| + 1
  {
    if acts == [] then []
    else var n := |acts| - 1; Traffic(tr[..n + 1], acts[..n]) + TrafficOf(tr[n], acts[n])
  }

  function TrafficOf(s: System, a: Action): seq<Channels.ChannelOp> {
    match a
    case Deliver(watcher) => [Channels.Receive(watcher)]
    case Advance(tid, c, _) =>
      if tid in s.threads && s.threads[tid].SubCast?
      then [Channels.ChannelOp.Send(BroadcastEntry(s.threads[tid].row, c.now))] else []
    case _ => []
  }

  lemma StepSends(ps: Parsers, w: World, t: Thread, c: Call, newId: string)
    requires !Finished(t)
    ensures
      Step(ps, w, t, c, newId).0.channel ==
      if t.SubCast? then Channels.TrySend(w.channel, BroadcastEntry(t.row, c.now)) else w.channel
  {
    hide Next, Insert, Update, Append, CacheSet, CacheDelete, Channels.TrySend, BroadcastEntry;
  }

  /** What one action does to the channel and to the streams. */
  lemma OneAction(ps: Parsers, s: System, a: Action, ops: seq<Channels.ChannelOp>)
    requires Possible(s, a) && Channels.Play(ops).buffer == s.w.channel
    ensures
      var h, h' := Channels.Play(ops), Channels.Play(ops + TrafficOf(s, a));
      && h'.buffer == Apply(ps, s, a).w.channel
      && h'.accepted == h.accepted + Accepted(s, a)
      && forall v :: Channels.StreamOf(h'.streams, v) == Channels.StreamOf(h.streams, v) + Delivered(s, a, v)
  {
    hide Channels.From, Step, BroadcastEntry;
    if TrafficOf(s, a) == [] {
      assert ops + TrafficOf(s, a) == ops;
    } else {
      Channels.OneMoreOp(Channels.START, ops, TrafficOf(s, a)[0]);
    }
    if a.Advance? {
      StepSends(ps, s.w, s.threads[a.tid], a.c, a.newId);
    }
  }

  /** The channel of a run is the bounded channel, fed by its broadcasts and drained by its deliveries. */
  lemma {:induction false} RunsUseTheChannel(ps: Parsers, tr: seq<System>, acts: seq<Action>)
    requires Run(ps, tr, acts)
    ensures
      var h := Channels.Play(Traffic(tr, acts));
      && h.buffer == tr[|acts|].w.channel && |tr[|acts|].w.channel| <= 256
      && h.accepted == AcceptedIn(tr, acts)
      && forall v :: Channels.StreamOf(h.streams, v) == DeliveredTo(tr, acts, v)
    decreases |acts|
  {
    hide Apply, Possible, TrafficOf, Accepted, Delivered, Channels.StreamOf;
    if acts != [] {
      var n := |acts| - 1;
      var before, init := tr[..n + 1], acts[..n];
      assert Run(ps, before, init) by {
        assert forall i | 0 <= i < n :: init[i] == acts[i] && before[i + 1] == tr[i + 1];
      }
      RunsUseTheChannel(ps, before, init);
      OneAction(ps, tr[n], acts[n], Traffic(before, init));
    } else {
      NothingYet();
    }
    Channels.ChannelRuns(Traffic(tr, acts));
  }

  lemma NothingYet()
    ensures forall v :: Channels.StreamOf(Channels.START.streams, v) == []
  {
  }

  /** In every run, what watchers were delivered and what is still on the channel are the accepted
      broadcasts, each once, and every watcher sees them in order. */
  lemma WatchersShareTheBroadcasts(ps: Parsers, tr: seq<System>, acts: seq<Action>, watcher: nat)
    requires Run(ps, tr, acts)
    ensures
      var streams := Channels.Play(Traffic(tr, acts)).streams;
      && Channels.Together(streams, streams.Keys) + multiset(tr[|acts|].w.channel) == multiset(AcceptedIn(tr, acts))
      && (forall v :: Channels.StreamOf(streams, v) == DeliveredTo(tr, acts, v))
      && Channels.Subsequence(DeliveredTo(tr, acts, watcher), AcceptedIn(tr, acts))
  {
    assert |tr| == |acts| + 1;
    hide Run, Traffic, AcceptedIn, DeliveredTo, Channels.StreamOf, Channels.Play, Channels.Together, Channels.Subsequence;
    RunsUseTheChannel(ps, tr, acts);
    Channels.EachToOneWatcher(Traffic(tr, acts));
    Channels.StreamsKeepOrder(Traffic(tr, acts), watcher);
  }
}
