/** Any number of Submit, Get and Revoke calls, interleaved call by call, with
    lost calls, lost acknowledgements and cache entries that vanish at any time. */
module Interleavings {
  import opened Model
  import opened Tables
  import opened Protocol
  import opened Invariants

  datatype System = System(w: World, threads: map<nat, Thread>)

  const BOOT := System(EMPTY, map[])

  datatype Action =
    | Spawn(tid: nat, t: Thread)
    | Advance(tid: nat, c: Call, newId: string)
    | Evict(entry: string)
    | Deliver(watcher: nat)

  predicate Possible(s: System, a: Action) {
    match a
    case Spawn(tid, t) => tid !in s.threads && Initial(t)
    case Advance(tid, _, _) => tid in s.threads && !Finished(s.threads[tid])
    case Evict(_) => true
    case Deliver(_) => s.w.channel != []
  }

  ghost function Apply(ps: Parsers, s: System, a: Action): System
    requires Possible(s, a)
  {
    match a
    case Spawn(tid, t) => s.(threads := s.threads[tid := t])
    case Advance(tid, c, newId) =>
      var (w, t) := Step(ps, s.w, s.threads[tid], c, newId);
      System(w, s.threads[tid := t])
    case Evict(k) => s.(w := s.w.(cache := s.w.cache - {k}))
    case Deliver(_) => s.(w := s.w.(channel := s.w.channel[1..]))
  }

  /** The states of a run, first to last. */
  ghost predicate Run(ps: Parsers, tr: seq<System>, acts: seq<Action>) {
    && |tr| == |acts| + 1
    && tr[0] == BOOT
    && forall i | 0 <= i < |acts| :: Possible(tr[i], acts[i]) && tr[i + 1] == Apply(ps, tr[i], acts[i])
  }

  // ---------- the invariant ----------

  /** No two threads write the same row. */
  ghost predicate Apart(threads: map<nat, Thread>) {
    forall a, b | a in threads && b in threads && a != b :: Owns(threads[a]) !! Owns(threads[b])
  }

  ghost predicate SystemInv(ps: Parsers, s: System) {
    && WorldInv(ps, s.w)
    && (forall tid | tid in s.threads :: ThreadInv(ps, s.w, s.threads[tid]))
    && Apart(s.threads)
  }

  lemma SoundWorld(ps: Parsers, s: System)
    requires SystemInv(ps, s)
    ensures WorldInv(ps, s.w)
  {
  }

  lemma OwnedExists(ps: Parsers, w: World, t: Thread)
    requires ThreadInv(ps, w, t)
    ensures Owns(t) <= w.rows.Keys
  {
  }

  lemma AdvanceKeeps(ps: Parsers, s: System, tid: nat, c: Call, newId: string)
    requires SystemInv(ps, s) && Possible(s, Advance(tid, c, newId))
    ensures
      var s' := Apply(ps, s, Advance(tid, c, newId));
      && SystemInv(ps, s')
      && Guarantee(s.w, s'.w, Touches(s.w, CallOf(s.threads[tid], c.now, newId)))
  {
    var t := s.threads[tid];
    var s' := Apply(ps, s, Advance(tid, c, newId));
    var own := Touches(s.w, CallOf(t, c.now, newId));
    EveryStepKeeps(ps, s.w, t, c, newId);
    hide WorldInv, ThreadInv, Guarantee, Step, Touches, CallOf;
    forall other | other in s.threads && other != tid
      ensures ThreadInv(ps, s'.w, s.threads[other])
      ensures Owns(s'.threads[tid]) !! Owns(s.threads[other])
    {
      OwnedExists(ps, s.w, s.threads[other]);
      Undisturbed(ps, s.w, s'.w, own, s.threads[other]);
    }
  }

  /** Every action keeps the invariant, and does to the tables only what it may. */
  lemma EveryActionKeeps(ps: Parsers, s: System, a: Action)
    requires SystemInv(ps, s) && Possible(s, a)
    ensures SystemInv(ps, Apply(ps, s, a))
    ensures exists own :: Guarantee(s.w, Apply(ps, s, a).w, own)
  {
    var s' := Apply(ps, s, a);
    match a
    case Spawn(tid, t) => Reflexive(s.w, s'.w);
    case Advance(tid, c, newId) => AdvanceKeeps(ps, s, tid, c, newId);
    case Evict(k) =>
      ForgetKeeps(ps, s.w, {k});
      Others(ps, s, s'.w);
    case Deliver(_) =>
      Reflexive(s.w, s'.w);
      Others(ps, s, s'.w);
  }

  /** A change that leaves both tables alone disturbs no thread. */
  lemma Others(ps: Parsers, s: System, w': World)
    requires SystemInv(ps, s) && w'.rows == s.w.rows && w'.log == s.w.log
    ensures forall tid | tid in s.threads :: ThreadInv(ps, w', s.threads[tid])
  {
    Reflexive(s.w, w');
    hide Guarantee, ThreadInv, WorldInv;
    forall tid | tid in s.threads ensures ThreadInv(ps, w', s.threads[tid]) {
      Undisturbed(ps, s.w, w', {}, s.threads[tid]);
    }
  }

  lemma {:induction false} InvariantHolds(ps: Parsers, tr: seq<System>, acts: seq<Action>, n: nat)
    requires Run(ps, tr, acts) && n < |tr|
    ensures SystemInv(ps, tr[n])
    decreases n
  {
    if n > 0 {
      InvariantHolds(ps, tr, acts, n - 1);
      EveryActionKeeps(ps, tr[n - 1], acts[n - 1]);
    }
  }

  // ---------- the lifecycle ----------

  /** Between any two moments a row keeps its facts and its ledger prefix, and its
      state only goes forward; one action moves it along one edge at most. */
  lemma {:induction false} LifecycleOnlyAdvances(ps: Parsers, tr: seq<System>, acts: seq<Action>, i: nat, j: nat, id: string)
    requires Run(ps, tr, acts) && i <= j < |tr| && id in tr[i].w.rows
    ensures id in tr[j].w.rows
    ensures
      var before, after := tr[i].w.rows[id], tr[j].w.rows[id];
      && SameFacts(before, after)
      && Later(before.state, after.state)
      && (j == i + 1 ==> before.state == after.state || Edge(before.state, after.state))
    ensures tr[i].w.log <= tr[j].w.log
    decreases j
  {
    hide Guarantee, SystemInv;
    if i == j {
      InvariantHolds(ps, tr, acts, i);
      StateIsSet(ps, tr[i], id);
    } else {
      LifecycleOnlyAdvances(ps, tr, acts, i, j - 1, id);
      InvariantHolds(ps, tr, acts, j - 1);
      EveryActionKeeps(ps, tr[j - 1], acts[j - 1]);
      var own :| Guarantee(tr[j - 1].w, tr[j].w, own);
      RowMoves(tr[j - 1].w, tr[j].w, own, id);
      hide Run;
    }
  }

  lemma StateIsSet(ps: Parsers, s: System, id: string)
    requires SystemInv(ps, s) && id in s.w.rows
    ensures s.w.rows[id].state != Unset
  {
    assert RowSound(ps, s.w.rows, id);
  }

  lemma RowMoves(w: World, w': World, own: set<string>, id: string)
    requires Guarantee(w, w', own) && id in w.rows
    ensures w.log <= w'.log && id in w'.rows && SameFacts(w.rows[id], w'.rows[id])
    ensures w.rows[id].state == w'.rows[id].state || Edge(w.rows[id].state, w'.rows[id].state)
    ensures w.rows[id].state != Unset ==> Later(w.rows[id].state, w'.rows[id].state)
  {
    assert Moves(w.rows[id], w'.rows[id], id in own);
  }

  /** A row that appears is SUBMITTED. */
  lemma RowsStartSubmitted(ps: Parsers, tr: seq<System>, acts: seq<Action>, i: nat, id: string)
    requires Run(ps, tr, acts) && i < |acts|
    requires id !in tr[i].w.rows && id in tr[i + 1].w.rows
    ensures tr[i + 1].w.rows[id].state == Submitted
  {
    InvariantHolds(ps, tr, acts, i);
    hide SystemInv;
    EveryActionKeeps(ps, tr[i], acts[i]);
  }

  // ---------- the ledger ----------

  /** The store leads the ledger: an event says truly where its kind goes from and to, and if its state
      write was checked the row has reached `to`. Otherwise it is certain only that the row has reached `from`. */
  lemma StoreLeadsLedger(ps: Parsers, tr: seq<System>, acts: seq<Action>, n: nat, e: Event)
    requires Run(ps, tr, acts) && n < |tr| && e in tr[n].w.log
    ensures
      && e.parameterId in tr[n].w.rows
      && e.from == Leaves(e.kind) && e.to == Enters(e.kind)
      && var s := tr[n].w.rows[e.parameterId].state;
      && Later(if Unchecked(e.kind) then e.from else e.to, s)
      && (e.kind == RejectedEvent ==> s == Validating || s == Rejected)
  {
    InvariantHolds(ps, tr, acts, n);
    hide Run;
    assert EventSound(ps, tr[n].w.rows, e) && RowSound(ps, tr[n].w.rows, e.parameterId);
    hide WorldInv, Linked;
  }

  /** A row's own events come in one of the two legal orders, none of them twice,
      whatever else fails or is appended in between. */
  lemma OwnEventsInOrder(ps: Parsers, tr: seq<System>, acts: seq<Action>, n: nat, id: string)
    requires Run(ps, tr, acts) && n < |tr|
    ensures
      || OwnKinds(tr[n].w.log, id) <= Script(Complete)
      || OwnKinds(tr[n].w.log, id) <= Script(EndedRejected)
  {
    InvariantHolds(ps, tr, acts, n);
    assert Progress(tr[n].w.log, id) != Broken;
    ProgressTellsAll(tr[n].w.log, id);
    hide SystemInv, Run;
  }

  /** A row's own events are a path of legal moves from "": each starts where the one before ended,
      whatever is appended in between, and the row has reached the end of the path, or, if that is a
      rejection, at least its last start. */
  lemma OwnEventsConnect(ps: Parsers, tr: seq<System>, acts: seq<Action>, n: nat, id: string)
    requires Run(ps, tr, acts) && n < |tr|
    ensures
      var own := OwnEvents(tr[n].w.log, id);
      && (own != [] ==> own[0].from == Unset)
      && (forall i | 0 < i < |own| :: own[i].from == own[i - 1].to && Edge(own[i].from, own[i].to))
      && (own != [] ==>
            var last := own[|own| - 1];
            && id in tr[n].w.rows
            && Later(if last.kind == RejectedEvent then last.from else last.to, tr[n].w.rows[id].state))
  {
    OwnEventsInOrder(ps, tr, acts, n, id);
    OwnEventsAre(tr[n].w.log, id);
    ScriptsConnect(OwnKinds(tr[n].w.log, id));
    var own := OwnEvents(tr[n].w.log, id);
    hide Run, OwnKinds, OwnEvents, Edge, Leaves, Enters, Script, Unchecked, Later;
    forall e | e in own
      ensures Labelled(e) && id in tr[n].w.rows
      ensures e.kind != SupersededEvent && Later(if Unchecked(e.kind) then e.from else e.to, tr[n].w.rows[id].state)
    {
      StoreLeadsLedger(ps, tr, acts, n, e);
    }
    forall i | 0 < i < |own| ensures own[i].from == own[i - 1].to && Edge(own[i].from, own[i].to) {
      assert own[i] in own && own[i - 1] in own;
    }
  }

  /** A Submit that returned without error has left its four events, each once and in order. */
  lemma SubmitLeavesItsTrail(ps: Parsers, tr: seq<System>, acts: seq<Action>, n: nat, tid: nat)
    requires Run(ps, tr, acts) && n < |tr|
    requires tid in tr[n].threads && tr[n].threads[tid].SubmitOk?
    ensures
      var id := tr[n].threads[tid].p.id;
      && id in tr[n].w.rows && OnceCanonical(tr[n].w.rows[id].state)
      && OwnKinds(tr[n].w.log, id) == [SubmittedEvent, ValidatedEvent, ConsensusReachedEvent, PromotedEvent]
      && SameFacts(tr[n].threads[tid].result, tr[n].w.rows[id])
  {
    InvariantHolds(ps, tr, acts, n);
    hide Run;
    var t := tr[n].threads[tid];
    assert Published(tr[n].w, t.p, t.result);
    ProgressTellsAll(tr[n].w.log, t.p.id);
    hide SystemInv;
  }

  // ---------- the version chain ----------

  predicate LinkedAt(rows: Rows, id: string)
    requires id in rows
  {
    var p := rows[id];
    p.version >= 1 && Linked(rows, p.namespace, p.key, p.version, p.prev)
  }

  ghost predicate AllLinked(rows: Rows) {
    forall id {:trigger LinkedAt(rows, id)} | id in rows :: LinkedAt(rows, id)
  }

  /** The row and everything `PreviousVersionID` leads to. */
  ghost function Chain(rows: Rows, id: string): (chain: seq<string>)
    requires AllLinked(rows) && id in rows
    ensures |chain| > 0 && forall k | k in chain :: k in rows
    decreases rows[id].version
  {
    assert LinkedAt(rows, id);
    if rows[id].prev == "" then [id]
    else
      assert LinkedAt(rows, rows[id].prev);
      [id] + Chain(rows, rows[id].prev)
  }

  /** `next` is the row that `p` replaced. */
  predicate Hop(p: Parameter, next: Parameter) {
    && p.prev == next.id
    && next.namespace == p.namespace && next.key == p.key
    && next.version == p.version - 1
    && OnceCanonical(next.state)
  }

  ghost predicate IsHistory(rows: Rows, id: string, chain: seq<string>)
    requires id in rows && forall k | k in chain :: k in rows
  {
    && |chain| == rows[id].version > 0
    && chain[0] == id
    && (forall k {:trigger chain[k]} | 0 < k < |chain| :: Hop(rows[chain[k - 1]], rows[chain[k]]))
    && rows[chain[|chain| - 1]].version == 1
    && rows[chain[|chain| - 1]].prev == ""
  }

  lemma {:induction false} ChainIsHistory(rows: Rows, id: string)
    requires AllLinked(rows) && id in rows && forall i | i in rows :: rows[i].id == i
    ensures IsHistory(rows, id, Chain(rows, id))
    decreases rows[id].version
  {
    assert LinkedAt(rows, id);
    var prev := rows[id].prev;
    if prev != "" {
      assert LinkedAt(rows, prev);
      ChainIsHistory(rows, prev);
      var chain, rest := Chain(rows, id), Chain(rows, prev);
      hide AllLinked, Chain;
      assert chain == [id] + rest;
      assert Hop(rows[id], rows[prev]);
      forall k {:trigger chain[k]} | 0 < k < |chain| ensures Hop(rows[chain[k - 1]], rows[chain[k]]) {
        if k > 1 {
          assert chain[k] == rest[k - 1] && chain[k - 1] == rest[k - 2];
        }
      }
    }
  }

  /** From any row of any run the predecessors end after exactly `version` rows, at version 1
      with no predecessor, through rows of the same namespace and key that were canonical
      once, one version lower per hop. */
  lemma ChainsEnd(ps: Parsers, tr: seq<System>, acts: seq<Action>, n: nat, id: string)
    requires Run(ps, tr, acts) && n < |tr| && id in tr[n].w.rows
    ensures AllLinked(tr[n].w.rows) && IsHistory(tr[n].w.rows, id, Chain(tr[n].w.rows, id))
  {
    InvariantHolds(ps, tr, acts, n);
    var rows := tr[n].w.rows;
    hide SystemInv, Run;
    RowsAreLinked(ps, rows);
    ChainIsHistory(rows, id);
  }

  lemma RowsAreLinked(ps: Parsers, rows: Rows)
    requires RowsSound(ps, rows)
    ensures AllLinked(rows) && forall i | i in rows :: rows[i].id == i
  {
    forall id | id in rows ensures LinkedAt(rows, id) && rows[id].id == id {
      assert RowSound(ps, rows, id);
    }
  }

  // ---------- one canonical row per key, and what promotion costs ----------

  lemma AtMostOneCanonical(ps: Parsers, tr: seq<System>, acts: seq<Action>, n: nat, a: string, b: string)
    requires Run(ps, tr, acts) && n < |tr| && a in tr[n].w.rows && b in tr[n].w.rows
    requires tr[n].w.rows[a].state == tr[n].w.rows[b].state == Canonical
    requires tr[n].w.rows[a].namespace == tr[n].w.rows[b].namespace && tr[n].w.rows[a].key == tr[n].w.rows[b].key
    ensures a == b
  {
    InvariantHolds(ps, tr, acts, n);
  }

  /** Nobody is left who would move the row. */
  ghost predicate Abandoned(s: System, id: string) {
    && id in s.w.rows && !OnceCanonical(s.w.rows[id].state)
    && forall tid | tid in s.threads :: id !in Owns(s.threads[tid])
  }

  lemma AbandonedStays(ps: Parsers, s: System, a: Action, id: string)
    requires SystemInv(ps, s) && Possible(s, a) && Abandoned(s, id)
    ensures var s' := Apply(ps, s, a); Abandoned(s', id) && s'.w.rows[id] == s.w.rows[id]
    ensures Progress(Apply(ps, s, a).w.log, id) == Progress(s.w.log, id)
  {
    match a
    case Advance(tid, c, newId) =>
      var t := s.threads[tid];
      var own := Touches(s.w, CallOf(t, c.now, newId));
      var s' := Apply(ps, s, a);
      hide WorldInv, ThreadInv, Step, Touches, CallOf, Owns, Guarantee;
      EveryStepKeeps(ps, s.w, t, c, newId);
      assert id !in own;
      Unmoved(s.w, s'.w, own, id);
    case Spawn(_, _) =>
    case Evict(_) =>
    case Deliver(_) =>
  }

  lemma Unmoved(w: World, w': World, own: set<string>, id: string)
    requires Guarantee(w, w', own) && id in w.rows && id !in own && !OnceCanonical(w.rows[id].state)
    ensures id in w'.rows && w'.rows[id] == w.rows[id] && Progress(w'.log, id) == Progress(w.log, id)
  {
    assert Moves(w.rows[id], w'.rows[id], id in own);
  }

  /** An abandoned row never changes again. */
  lemma {:induction false} AbandonedForever(ps: Parsers, tr: seq<System>, acts: seq<Action>, i: nat, j: nat, id: string)
    requires Run(ps, tr, acts) && i <= j < |tr| && Abandoned(tr[i], id)
    ensures Abandoned(tr[j], id) && tr[j].w.rows[id] == tr[i].w.rows[id]
    decreases j
  {
    hide SystemInv, Abandoned;
    if i < j {
      AbandonedForever(ps, tr, acts, i, j - 1, id);
      InvariantHolds(ps, tr, acts, j - 1);
      AbandonedStays(ps, tr[j - 1], acts[j - 1], id);
    }
  }

  lemma FailedOwnsNothing(t: Thread)
    ensures t.Failed? ==> Owns(t) == {}
  {
  }

  /** A Submit that fails before its row was canonical abandons the row. */
  lemma FailedSubmitAbandons(ps: Parsers, s: System, tid: nat, c: Call, newId: string, id: string)
    requires SystemInv(ps, s) && Possible(s, Advance(tid, c, newId))
    requires id in Owns(s.threads[tid])
    ensures
      var s' := Apply(ps, s, Advance(tid, c, newId));
      && id in s'.w.rows
      && (s'.threads[tid].Failed? && !OnceCanonical(s'.w.rows[id].state) ==> Abandoned(s', id))
  {
    hide WorldInv, ThreadInv, Step, CallOf, Touches, Owns;
    AdvanceKeeps(ps, s, tid, c, newId);
    OwnedExists(ps, s.w, s.threads[tid]);
    assert Apply(ps, s, Advance(tid, c, newId)).threads[tid].Failed? ==>
        Owns(Apply(ps, s, Advance(tid, c, newId)).threads[tid]) == {} by {
      FailedOwnsNothing(Apply(ps, s, Advance(tid, c, newId)).threads[tid]);
    }
    assert id in s.w.rows ==> id in Apply(ps, s, Advance(tid, c, newId)).w.rows;
    hide Guarantee;
    assert forall other | other in s.threads && other != tid :: Owns(s.threads[tid]) !! Owns(s.threads[other]);
  }

  /** No other row of the key is canonical. */
  ghost predicate KeyIsFree(rows: Rows, p: Parameter) {
    forall other | other in rows && other != p.id :: !IsCanonicalFor(rows[other], p.namespace, p.key)
  }

  lemma PromoteStep(ps: Parsers, w: World, p: Parameter, c: Call, newId: string)
    requires ThreadInv(ps, w, SubMark(Promote, p))
    ensures
      var (w', t') := Step(ps, w, SubMark(Promote, p), c, newId);
      && p.id in w.rows && p.id in w'.rows && w.rows[p.id].state == ConsensusPending
      && (w'.rows[p.id].state == Canonical <==> KeyIsFree(w.rows, p) && c.fate != Lost)
      && t' == (if KeyIsFree(w.rows, p) && c.fate == Acked then SubNote(Promote, p) else Failed(Io))
      && (!KeyIsFree(w.rows, p) ==> w' == w)
  {
    hide Progress;
    assert IndexAdmits(w.rows, p.id, Moved(w.rows[p.id], Canonical, c.now)) <==> KeyIsFree(w.rows, p);
    hide IndexAdmits, KeyIsFree;
  }

  /** Exactly when a promotion takes effect, exactly when the Submit goes on, and
      what becomes of a row the unique index keeps out. */
  lemma PromotionExactly(ps: Parsers, s: System, tid: nat, c: Call, newId: string)
    requires SystemInv(ps, s) && Possible(s, Advance(tid, c, newId))
    requires s.threads[tid].SubMark? && s.threads[tid].goal == Promote
    ensures
      var p := s.threads[tid].p;
      var s' := Apply(ps, s, Advance(tid, c, newId));
      && p.id in s'.w.rows
      && (s'.w.rows[p.id].state == Canonical <==> KeyIsFree(s.w.rows, p) && c.fate != Lost)
      && (s'.threads[tid] == SubNote(Promote, p) <==> KeyIsFree(s.w.rows, p) && c.fate == Acked)
      && (s'.threads[tid] == Failed(Io) <==> !(KeyIsFree(s.w.rows, p) && c.fate == Acked))
      && (!KeyIsFree(s.w.rows, p) ==> s'.w.rows[p.id].state == ConsensusPending && Abandoned(s', p.id))
  {
    var p := s.threads[tid].p;
    assert ThreadInv(ps, s.w, s.threads[tid]) && p.id in Owns(s.threads[tid]);
    hide SystemInv, Abandoned, KeyIsFree, Step, ThreadInv, Owns;
    PromoteStep(ps, s.w, p, c, newId);
    FailedSubmitAbandons(ps, s, tid, c, newId, p.id);
  }

  /** A Submit whose promotion the index refuses leaves its row CONSENSUS_PENDING for ever. */
  lemma RefusedStaysPending(ps: Parsers, tr: seq<System>, acts: seq<Action>, i: nat, j: nat, tid: nat)
    requires Run(ps, tr, acts) && i < |acts| && i + 1 <= j < |tr|
    requires acts[i].Advance? && acts[i].tid == tid
    requires tid in tr[i].threads && tr[i].threads[tid].SubMark? && tr[i].threads[tid].goal == Promote
    requires exists other | other in tr[i].w.rows ::
               && other != tr[i].threads[tid].p.id
               && IsCanonicalFor(tr[i].w.rows[other], tr[i].threads[tid].p.namespace, tr[i].threads[tid].p.key)
    ensures
      var id := tr[i].threads[tid].p.id;
      id in tr[j].w.rows && tr[j].w.rows[id].state == ConsensusPending
  {
    InvariantHolds(ps, tr, acts, i);
    var a := acts[i];
    PromotionExactly(ps, tr[i], tid, a.c, a.newId);
    hide SystemInv;
    AbandonedForever(ps, tr, acts, i + 1, j, tr[i].threads[tid].p.id);
  }
}
