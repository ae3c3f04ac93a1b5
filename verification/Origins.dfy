/** Where rows, answers, entries and broadcasts come from in the runs of any number of calls, field by field. */
module Origins {
  import opened Model
  import opened Tables
  import opened Protocol
  import opened Invariants
  import opened Interleavings
  import opened Reads
  import opened Particulars
  import opened Broadcasts
  import Channels

  /** How a thread started, as far as it still knows. */
  function Start(t: Thread): Option<Thread> {
    match t
    case SubLookup(req) => Some(SubLookup(req))
    case SubCreate(req, _, _) => Some(SubLookup(req))
    case SubAnnounce(_, req, _) => Some(SubLookup(req))
    case RevLookup(ns, key, actor, reason) => Some(RevLookup(ns, key, actor, reason))
    case RevAct(_, ns, key, actor, reason, _) => Some(RevLookup(ns, key, actor, reason))
    case _ => None
  }

  lemma StepKeepsStart(ps: Parsers, w: World, t: Thread, c: Call, newId: string)
    requires !Finished(t)
    ensures
      var t' := Step(ps, w, t, c, newId).1;
      Start(t').Some? ==> Start(t') == Start(t)
  {
    hide Perform, Lookup, CacheGet, ValidParameter, NewParameter;
  }

  lemma SpawnIsStart(t: Thread)
    requires Initial(t)
    ensures Start(t).Some? ==> Start(t) == Some(t)
  {
  }

  lemma {:induction false} ThreadsWereSpawned(ps: Parsers, tr: seq<System>, acts: seq<Action>, n: nat, tid: nat)
    returns (i: nat)
    requires Run(ps, tr, acts) && n < |tr| && tid in tr[n].threads && Start(tr[n].threads[tid]).Some?
    ensures i < n && acts[i] == Spawn(tid, Start(tr[n].threads[tid]).value)
    decreases n
  {
    hide Start;
    assert n > 0;
    var s, a := tr[n - 1], acts[n - 1];
    assert Possible(s, a) && tr[n] == Apply(ps, s, a);
    hide Run, Step, Initial;
    if a.Advance? && a.tid == tid {
      StepKeepsStart(ps, s.w, s.threads[tid], a.c, a.newId);
      i := ThreadsWereSpawned(ps, tr, acts, n - 1, tid);
    } else if tid in s.threads {
      i := ThreadsWereSpawned(ps, tr, acts, n - 1, tid);
    } else {
      SpawnIsStart(a.t);
      i := n - 1;
    }
  }

  // ---------- rows and answers ----------

  /** The thread of action j was spawned with the request by action i, and inserted the row at the clock of action j. */
  ghost predicate Inserted(tr: seq<System>, acts: seq<Action>, i: nat, j: nat, row: Parameter)
    requires i < j < |acts|
  {
    && acts[i].Spawn? && acts[i].t.SubLookup?
    && acts[j].Advance? && acts[j].tid == acts[i].tid && acts[j].newId == row.id
    && Says(row, acts[i].t.req) && row.createdAt == acts[j].c.now
  }

  lemma StepInserts(ps: Parsers, w: World, t: Thread, c: Call, newId: string, id: string)
    requires !Finished(t) && id !in w.rows && id in Step(ps, w, t, c, newId).0.rows
    ensures t.SubCreate? && id == newId
    ensures
      var row := Step(ps, w, t, c, newId).0.rows[id];
      row.id == id && Says(row, t.req) && row.createdAt == c.now
  {
    hide Next, Append, CacheSet, CacheDelete, IndexAdmits;
  }

  /** In every run: the row a thread inserted says, field by field, what the request it was spawned with said, and was
      created at the clock reading of the insert. */
  lemma {:induction false} RowsSayTheirRequest(ps: Parsers, tr: seq<System>, acts: seq<Action>, n: nat, id: string)
    returns (i: nat, j: nat)
    requires Run(ps, tr, acts) && n < |tr| && id in tr[n].w.rows
    ensures i < j < n && tr[n].w.rows[id].id == id && Inserted(tr, acts, i, j, tr[n].w.rows[id])
    decreases n
  {
    assert n > 0;
    var s, a := tr[n - 1], acts[n - 1];
    assert Possible(s, a) && tr[n] == Apply(ps, s, a);
    if id in s.w.rows {
      hide Step, Possible, Apply;
      i, j := RowsSayTheirRequest(ps, tr, acts, n - 1, id);
      LifecycleOnlyAdvances(ps, tr, acts, n - 1, n, id);
      hide Run;
    } else {
      hide Run, Step;
      StepInserts(ps, s.w, s.threads[a.tid], a.c, a.newId, id);
      i := ThreadsWereSpawned(ps, tr, acts, n - 1, a.tid);
      j := n - 1;
    }
  }

  /** In every run: what `Get` returns says, field by field, what the request of some Submit said. */
  lemma AnswersSayTheirRequest(ps: Parsers, tr: seq<System>, acts: seq<Action>, n: nat, tid: nat)
    returns (i: nat, j: nat)
    requires Run(ps, tr, acts) && n < |tr| && tid in tr[n].threads && tr[n].threads[tid].GetOk?
    ensures i < j < n && Inserted(tr, acts, i, j, tr[n].threads[tid].rec)
  {
    GetReturnsGenuine(ps, tr, acts, n, tid);
    var rec := tr[n].threads[tid].rec;
    var m :| 0 <= m <= n && IsCanonicalRow(tr[m].w.rows, rec);
    hide Run;
    i, j := RowsSayTheirRequest(ps, tr, acts, m, rec.id);
  }

  // ---------- entries ----------

  /** What a new entry of these two kinds says. */
  lemma StepEnters(ps: Parsers, w: World, t: Thread, c: Call, newId: string, e: Event)
    requires !Finished(t) && e in Step(ps, w, t, c, newId).0.log && e !in w.log
    ensures e.kind == SubmittedEvent ==>
      && t.SubAnnounce? && t.at == LogSubmitted
      && e == Event(t.p.id, SubmittedEvent, Unset, Submitted, t.req.actor, "new submission",
                    map["source" := t.req.source, "source_ref" := t.req.sourceRef], t.p.createdAt)
    ensures e.kind == RevokedEvent ==>
      && t.RevAct? && t.step == LogRevoked
      && e == Event(t.rec.id, RevokedEvent, Canonical, Revoked, t.actor, t.reason, map[], c.now)
  {
    if t.SubAnnounce? {
      SubmittedEntryIs(t.req, t.p);
    }
    if t.RevAct? {
      RevokedEntryIs(t.rec, t.actor, t.reason, c.now);
    }
    hide Next, Insert, Update, CacheSet, CacheDelete, SubmittedEntry, SupersededEntry, QuorumEntry, RevokedEntry;
  }

  /** In every run: a SUBMITTED entry names the actor and the source of the request of a Submit, a REVOKED entry the actor and
      the reason of a Revoke. */
  lemma {:induction false} EntriesSayWho(ps: Parsers, tr: seq<System>, acts: seq<Action>, n: nat, e: Event) returns (i: nat)
    requires Run(ps, tr, acts) && n < |tr| && e in tr[n].w.log && (e.kind == SubmittedEvent || e.kind == RevokedEvent)
    ensures i < n && acts[i].Spawn?
    ensures e.kind == SubmittedEvent ==>
      && acts[i].t.SubLookup? && e.actor == acts[i].t.req.actor && e.reason == "new submission"
      && e.context == map["source" := acts[i].t.req.source, "source_ref" := acts[i].t.req.sourceRef]
    ensures e.kind == RevokedEvent ==>
      acts[i].t.RevLookup? && e.actor == acts[i].t.actor && e.reason == acts[i].t.reason && e.context == map[]
    decreases n
  {
    hide Step;
    assert n > 0;
    var s, a := tr[n - 1], acts[n - 1];
    assert Possible(s, a) && tr[n] == Apply(ps, s, a);
    hide Run;
    if e in s.w.log {
      hide Possible, Apply;
      i := EntriesSayWho(ps, tr, acts, n - 1, e);
    } else {
      StepEnters(ps, s.w, s.threads[a.tid], a.c, a.newId, e);
      i := ThreadsWereSpawned(ps, tr, acts, n - 1, a.tid);
    }
  }

  // ---------- broadcasts ----------

  /** Action i sent this event: its Submit had read its own row, past CANONICAL, by action k, with its PROMOTED entry in. */
  ghost predicate Sent(tr: seq<System>, acts: seq<Action>, k: nat, i: nat, e: Event)
    requires k < i < |acts| < |tr|
  {
    && acts[i].Advance? && acts[k].Advance? && acts[k].tid == acts[i].tid
    && acts[k].tid in tr[k].threads && tr[k].threads[acts[k].tid].SubRefresh?
    && var id := tr[k].threads[acts[k].tid].p.id;
    && id in tr[k].w.rows && OnceCanonical(tr[k].w.rows[id].state)
    && OwnKinds(tr[k].w.log, id) == [SubmittedEvent, ValidatedEvent, ConsensusReachedEvent, PromotedEvent]
    && e == Event(id, PromotedEvent, Unset, tr[k].w.rows[id].state, "", "", map[], acts[i].c.now)
  }

  lemma StepReads(ps: Parsers, w: World, t: Thread, c: Call, newId: string)
    requires !Finished(t)
    ensures
      var t' := Step(ps, w, t, c, newId).1;
      t'.SubFill? || t'.SubCast? ==>
        || (t.SubRefresh? && t'.p == t.p && t.p.id in w.rows && t'.row == w.rows[t.p.id])
        || (t.SubFill? && t'.p == t.p && t'.row == t.row)
  {
    hide Perform, Lookup, CacheGet, ValidParameter, NewParameter;
  }

  /** The thread read the row it carries by action k. */
  lemma {:induction false} CarriedRowsWereRead(ps: Parsers, tr: seq<System>, acts: seq<Action>, n: nat, tid: nat)
    returns (k: nat)
    requires Run(ps, tr, acts) && n < |tr| && tid in tr[n].threads
    requires tr[n].threads[tid].SubFill? || tr[n].threads[tid].SubCast?
    ensures k < n && acts[k].Advance? && acts[k].tid == tid
    ensures tid in tr[k].threads && tr[k].threads[tid] == SubRefresh(tr[n].threads[tid].p)
    ensures
      var t := tr[n].threads[tid];
      t.p.id in tr[k].w.rows && t.row == tr[k].w.rows[t.p.id]
    decreases n
  {
    assert n > 0;
    var s, a := tr[n - 1], acts[n - 1];
    assert Possible(s, a) && tr[n] == Apply(ps, s, a);
    hide Run, Step;
    if a.Advance? && a.tid == tid {
      StepReads(ps, s.w, s.threads[tid], a.c, a.newId);
      if s.threads[tid].SubRefresh? {
        k := n - 1;
      } else {
        k := CarriedRowsWereRead(ps, tr, acts, n - 1, tid);
      }
    } else {
      k := CarriedRowsWereRead(ps, tr, acts, n - 1, tid);
    }
  }

  lemma RefreshedIsPromoted(ps: Parsers, s: System, tid: nat)
    requires SystemInv(ps, s) && tid in s.threads && s.threads[tid].SubRefresh?
    ensures
      var id := s.threads[tid].p.id;
      && id in s.w.rows && s.w.rows[id].id == id && OnceCanonical(s.w.rows[id].state)
      && OwnKinds(s.w.log, id) == [SubmittedEvent, ValidatedEvent, ConsensusReachedEvent, PromotedEvent]
  {
    var p := s.threads[tid].p;
    assert ThreadInv(ps, s.w, s.threads[tid]);
    assert RowSound(ps, s.w.rows, p.id);
    ProgressTellsAll(s.w.log, p.id);
    hide Progress, OwnKinds;
  }

  /** An event that an action puts on the channel. */
  lemma AcceptedIsAnnounced(ps: Parsers, tr: seq<System>, acts: seq<Action>, i: nat) returns (k: nat)
    requires Run(ps, tr, acts) && i < |acts| && Accepted(tr[i], acts[i]) != []
    ensures k < i && Sent(tr, acts, k, i, Accepted(tr[i], acts[i])[0])
  {
    var tid := acts[i].tid;
    k := CarriedRowsWereRead(ps, tr, acts, i, tid);
    InvariantHolds(ps, tr, acts, k);
    hide Run, SystemInv;
    RefreshedIsPromoted(ps, tr[k], tid);
    BroadcastEntryIs(tr[i].threads[tid].row, acts[i].c.now);
  }

  /** In every run: an accepted broadcast is a PROMOTED event that names the row of the Submit that sent it, in the state which
      that Submit has read; the row has been CANONICAL, and its PROMOTED entry is in the ledger. */
  lemma {:induction false} BroadcastsArePromotions(ps: Parsers, tr: seq<System>, acts: seq<Action>, n: nat, e: Event)
    returns (k: nat, i: nat)
    requires Run(ps, tr, acts) && n <= |acts| && e in AcceptedIn(tr[..n + 1], acts[..n])
    ensures k < i < n && Sent(tr, acts, k, i, e)
    decreases n
  {
    assert n > 0;
    assert tr[..n + 1][..n] == tr[..n] && acts[..n][..n - 1] == acts[..n - 1];
    hide Run;
    if e in AcceptedIn(tr[..n], acts[..n - 1]) {
      k, i := BroadcastsArePromotions(ps, tr, acts, n - 1, e);
    } else {
      assert e in Accepted(tr[n - 1], acts[n - 1]);
      k := AcceptedIsAnnounced(ps, tr, acts, n - 1);
      i := n - 1;
    }
  }

  lemma {:induction false} InSubsequence(a: seq<Event>, b: seq<Event>, e: Event)
    requires Channels.Subsequence(a, b) && e in a
    ensures e in b
    decreases |b|
  {
    if b != [] {
      var b' := b[..|b| - 1];
      if a[|a| - 1] == b[|b| - 1] && Channels.Subsequence(a[..|a| - 1], b') {
        if e != a[|a| - 1] {
          InSubsequence(a[..|a| - 1], b', e);
        }
      } else {
        InSubsequence(a, b', e);
      }
    }
  }

  /** In every run: every event a watcher is handed is one of these. */
  lemma WatchersHearOfPromotions(ps: Parsers, tr: seq<System>, acts: seq<Action>, watcher: nat, e: Event)
    returns (k: nat, i: nat)
    requires Run(ps, tr, acts) && |tr| == |acts| + 1 && e in DeliveredTo(tr, acts, watcher)
    ensures k < i < |acts| && Sent(tr, acts, k, i, e)
  {
    hide Run, AcceptedIn, DeliveredTo, Channels.Subsequence, Channels.Together, Channels.Play, Channels.StreamOf;
    WatchersShareTheBroadcasts(ps, tr, acts, watcher);
    InSubsequence(DeliveredTo(tr, acts, watcher), AcceptedIn(tr, acts), e);
    assert tr[..|acts| + 1] == tr && acts[..|acts|] == acts;
    k, i := BroadcastsArePromotions(ps, tr, acts, |acts|, e);
  }
}
