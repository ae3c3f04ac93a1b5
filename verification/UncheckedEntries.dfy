/** The two ledger entries whose state write is unchecked, REJECTED and SUPERSEDED: exactly when they tell the
    truth. */
module UncheckedEntries {
  import opened Model
  import opened Tables
  import opened Protocol
  import opened Invariants
  import opened Interleavings
  import opened Revocations

  // ---------- REJECTED ----------

  /** The action makes the state write of a rejection. */
  predicate Rejects(s: System, a: Action, id: string) {
    && a.Advance? && a.tid in s.threads
    && s.threads[a.tid].SubMark? && s.threads[a.tid].goal == Reject && s.threads[a.tid].p.id == id
  }

  /** The rejection was lost, and its thread is about to append the entry, or has ended. */
  ghost predicate RejectionLost(s: System, tid: nat, id: string) {
    && id in s.w.rows && s.w.rows[id].state == Validating
    && ((tid in s.threads && s.threads[tid].SubNote? && s.threads[tid].goal == Reject && s.threads[tid].p.id == id)
        || Abandoned(s, id))
  }

  lemma RejectStep(ps: Parsers, s: System, a: Action, id: string)
    requires SystemInv(ps, s) && Possible(s, a) && Rejects(s, a, id)
    ensures
      var s' := Apply(ps, s, a);
      if a.c.fate == Lost then RejectionLost(s', a.tid, id) else id in s'.w.rows && s'.w.rows[id].state == Rejected
  {
    var t := s.threads[a.tid];
    assert ThreadInv(ps, s.w, t) && CallOf(t, a.c.now, a.newId) == SetState(id, Rejected);
    assert Next(ps, s.w, t, a.c, a.newId, false) == Next(ps, s.w, t, a.c, a.newId, true) == SubNote(Reject, t.p);
    RowAfter(s.w, CallOf(t, a.c.now, a.newId), a.c, id);
    hide SystemInv, Next, CallOf, Perform, Abandoned, Progress;
  }

  lemma NoteRejectStep(ps: Parsers, w: World, t: Thread, c: Call, newId: string)
    requires t.SubNote? && t.goal == Reject
    ensures var (w', t') := Step(ps, w, t, c, newId); w'.rows == w.rows && t' == Failed(Invalid)
  {
    hide QuorumEntry, Append;
  }

  /** Nobody else moves the row while the entry is being appended. */
  lemma OthersLeaveIt(ps: Parsers, s: System, a: Action, tid: nat, id: string)
    requires SystemInv(ps, s) && Possible(s, a) && !(a.Advance? && a.tid == tid)
    requires tid in s.threads && id in Owns(s.threads[tid])
    requires id in s.w.rows && !OnceCanonical(s.w.rows[id].state)
    ensures
      var s' := Apply(ps, s, a);
      tid in s'.threads && s'.threads[tid] == s.threads[tid] && id in s'.w.rows && s'.w.rows[id] == s.w.rows[id]
  {
    if a.Advance? {
      var t := s.threads[a.tid];
      var own := Touches(s.w, CallOf(t, a.c.now, a.newId));
      assert ThreadInv(ps, s.w, t) && Owns(t) !! Owns(s.threads[tid]);
      EveryStepKeeps(ps, s.w, t, a.c, a.newId);
      hide WorldInv, ThreadInv, Step, Touches, CallOf, Owns, Guarantee;
      assert id !in own;
      Unmoved(s.w, Apply(ps, s, a).w, own, id);
    }
  }

  lemma LostStaysLost(ps: Parsers, s: System, a: Action, tid: nat, id: string)
    requires SystemInv(ps, s) && Possible(s, a) && RejectionLost(s, tid, id)
    ensures RejectionLost(Apply(ps, s, a), tid, id)
  {
    hide SystemInv, Step, Owns;
    if Abandoned(s, id) {
      AbandonedStays(ps, s, a, id);
      hide Abandoned;
    } else {
      var t := s.threads[tid];
      NoteOwns(t);
      hide Abandoned;
      if a.Advance? && a.tid == tid {
        NoteRejectStep(ps, s.w, t, a.c, a.newId);
        FailedSubmitAbandons(ps, s, tid, a.c, a.newId, id);
      } else {
        OthersLeaveIt(ps, s, a, tid, id);
      }
    }
  }

  lemma NoteOwns(t: Thread)
    ensures t.SubNote? ==> Owns(t) == {t.p.id}
  {
  }

  lemma {:induction false} LostForever(ps: Parsers, tr: seq<System>, acts: seq<Action>, i: nat, j: nat, tid: nat, id: string)
    requires Run(ps, tr, acts) && i <= j < |tr| && RejectionLost(tr[i], tid, id)
    ensures RejectionLost(tr[j], tid, id)
    decreases j
  {
    hide RejectionLost, SystemInv, Apply, Possible;
    if i < j {
      LostForever(ps, tr, acts, i, j - 1, tid, id);
      InvariantHolds(ps, tr, acts, j - 1);
      LostStaysLost(ps, tr[j - 1], acts[j - 1], tid, id);
    }
  }

  /** Ever after a rejection's state write, the row is REJECTED if and only if that write was not lost. */
  lemma RejectedExactly(ps: Parsers, tr: seq<System>, acts: seq<Action>, i: nat, j: nat, id: string)
    requires Run(ps, tr, acts) && i < j < |tr| && Rejects(tr[i], acts[i], id)
    ensures id in tr[j].w.rows
    ensures tr[j].w.rows[id].state == Rejected <==> acts[i].c.fate != Lost
    ensures tr[j].w.rows[id].state == Validating <==> acts[i].c.fate == Lost
  {
    InvariantHolds(ps, tr, acts, i);
    hide SystemInv, Apply, Possible, Abandoned;
    RejectStep(ps, tr[i], acts[i], id);
    if acts[i].c.fate == Lost {
      LostForever(ps, tr, acts, i + 1, j, acts[i].tid, id);
    } else {
      LifecycleOnlyAdvances(ps, tr, acts, i + 1, j, id);
    }
  }

  // ---------- every REJECTED entry has its state write ----------

  lemma StepToNote(ps: Parsers, w: World, t: Thread, c: Call, newId: string)
    requires !Finished(t)
    ensures
      var t' := Step(ps, w, t, c, newId).1;
      t'.SubNote? && t'.goal == Reject ==> t == SubMark(Reject, t'.p)
  {
    hide Lookup, CacheGet, Perform, ValidParameter;
  }

  lemma {:induction false} NotesWereMarked(ps: Parsers, tr: seq<System>, acts: seq<Action>, n: nat, tid: nat)
    returns (i: nat)
    requires Run(ps, tr, acts) && n < |tr| && tid in tr[n].threads
    requires tr[n].threads[tid].SubNote? && tr[n].threads[tid].goal == Reject
    ensures i < n && Rejects(tr[i], acts[i], tr[n].threads[tid].p.id)
    decreases n
  {
    assert n > 0;
    var s, a := tr[n - 1], acts[n - 1];
    assert Possible(s, a) && tr[n] == Apply(ps, s, a);
    hide Run, Step;
    if a.Advance? && a.tid == tid {
      StepToNote(ps, s.w, s.threads[tid], a.c, a.newId);
      i := n - 1;
    } else {
      i := NotesWereMarked(ps, tr, acts, n - 1, tid);
    }
  }

  lemma StepLogs(ps: Parsers, w: World, t: Thread, c: Call, newId: string)
    requires !Finished(t)
    ensures
      var log := Step(ps, w, t, c, newId).0.log;
      forall e | e in log && e.kind == RejectedEvent ::
        e in w.log || (t.SubNote? && t.goal == Reject && e.parameterId == t.p.id)
  {
    hide Next, Insert, Update, CacheSet, CacheDelete;
  }

  lemma ActionLogs(ps: Parsers, s: System, a: Action, e: Event)
    requires Possible(s, a) && e in Apply(ps, s, a).w.log && e !in s.w.log && e.kind == RejectedEvent
    ensures a.Advance? && a.tid in s.threads
    ensures s.threads[a.tid].SubNote? && s.threads[a.tid].goal == Reject && s.threads[a.tid].p.id == e.parameterId
  {
    hide Step;
    if a.Advance? {
      StepLogs(ps, s.w, s.threads[a.tid], a.c, a.newId);
    }
  }

  lemma {:induction false} EntriesWereMarked(ps: Parsers, tr: seq<System>, acts: seq<Action>, n: nat, e: Event)
    returns (i: nat)
    requires Run(ps, tr, acts) && n < |tr| && e in tr[n].w.log && e.kind == RejectedEvent
    ensures i < n && Rejects(tr[i], acts[i], e.parameterId)
    decreases n
  {
    hide Possible, Apply, Rejects;
    assert n > 0;
    var s, a := tr[n - 1], acts[n - 1];
    assert Possible(s, a) && tr[n] == Apply(ps, s, a);
    hide Run;
    if e in s.w.log {
      i := EntriesWereMarked(ps, tr, acts, n - 1, e);
    } else {
      ActionLogs(ps, s, a, e);
      i := NotesWereMarked(ps, tr, acts, n - 1, a.tid);
    }
  }

  /** A REJECTED entry belongs to one state write, and is true, then and ever after, if and only if that write was
      not lost. */
  lemma RejectedEntryIsTrueExactly(ps: Parsers, tr: seq<System>, acts: seq<Action>, n: nat, e: Event) returns (i: nat)
    requires Run(ps, tr, acts) && n < |tr| && e in tr[n].w.log && e.kind == RejectedEvent
    ensures i < n && Rejects(tr[i], acts[i], e.parameterId) && e.parameterId in tr[n].w.rows
    ensures tr[n].w.rows[e.parameterId].state == e.to <==> acts[i].c.fate != Lost
  {
    hide Rejects;
    StoreLeadsLedger(ps, tr, acts, n, e);
    i := EntriesWereMarked(ps, tr, acts, n, e);
    RejectedExactly(ps, tr, acts, i, n, e.parameterId);
    hide Run;
  }

  // ---------- SUPERSEDED ----------

  /** A SUPERSEDED entry is true if and only if an effective state write, its own or another's, has met the row
      CANONICAL. */
  lemma SupersededEntryIsTrueExactly(ps: Parsers, tr: seq<System>, acts: seq<Action>, n: nat, e: Event)
    requires Run(ps, tr, acts) && n < |tr| && e in tr[n].w.log && e.kind == SupersededEvent
    ensures e.parameterId in tr[n].w.rows
    ensures tr[n].w.rows[e.parameterId].state == e.to <==> exists m | 0 <= m < n :: Retires(tr[m], acts[m], e.parameterId)
  {
    StoreLeadsLedger(ps, tr, acts, n, e);
    RevokedExactly(ps, tr, acts, n, e.parameterId);
    hide Run, Retires;
  }

  /** Ever after the state write of a superseding Submit, the old version is REVOKED if and only if it already was, or the
      write was not lost, or another one has revoked it since. */
  lemma SupersededExactly(ps: Parsers, tr: seq<System>, acts: seq<Action>, i: nat, j: nat)
    requires Run(ps, tr, acts) && i < j < |tr| && acts[i].Advance? && acts[i].tid in tr[i].threads
    requires tr[i].threads[acts[i].tid].SubAnnounce? && tr[i].threads[acts[i].tid].at == Supersede
    ensures
      var id := tr[i].threads[acts[i].tid].p.prev;
      && id in tr[i].w.rows && id in tr[j].w.rows
      && (tr[j].w.rows[id].state == Revoked <==>
            || tr[i].w.rows[id].state == Revoked
            || acts[i].c.fate != Lost
            || exists m | i < m < j :: Retires(tr[m], acts[m], id))
  {
    var t := tr[i].threads[acts[i].tid];
    InvariantHolds(ps, tr, acts, i);
    OldVersionWasCanonical(ps, tr[i], acts[i].tid);
    hide SystemInv, Apply, Possible, Run;
    RevokedSince(ps, tr, acts, i, j, t.p.prev);
    assert tr[i].w.rows[t.p.prev].state == Canonical ==> (Retires(tr[i], acts[i], t.p.prev) <==> acts[i].c.fate != Lost);
  }

  /** The action makes the state write of a superseding Submit. */
  predicate Supersedes(s: System, a: Action, id: string) {
    && a.Advance? && a.tid in s.threads
    && s.threads[a.tid].SubAnnounce? && s.threads[a.tid].at == Supersede && s.threads[a.tid].p.prev == id
  }

  predicate LogsSuperseded(t: Thread, id: string) {
    t.SubAnnounce? && t.at == LogSuperseded && t.p.prev == id
  }

  lemma StepToLog(ps: Parsers, w: World, t: Thread, c: Call, newId: string, id: string)
    requires !Finished(t) && LogsSuperseded(Step(ps, w, t, c, newId).1, id)
    ensures t.SubAnnounce? && t.at == Supersede && t.p.prev == id
  {
    hide Lookup, CacheGet, Perform, ValidParameter, NewParameter;
  }

  lemma {:induction false} LogsWereAnnounced(ps: Parsers, tr: seq<System>, acts: seq<Action>, n: nat, tid: nat, id: string)
    returns (i: nat)
    requires Run(ps, tr, acts) && n < |tr| && tid in tr[n].threads && LogsSuperseded(tr[n].threads[tid], id)
    ensures i < n && Supersedes(tr[i], acts[i], id)
    decreases n
  {
    assert n > 0;
    var s, a := tr[n - 1], acts[n - 1];
    assert Possible(s, a) && tr[n] == Apply(ps, s, a);
    hide Run, Step;
    if a.Advance? && a.tid == tid {
      StepToLog(ps, s.w, s.threads[tid], a.c, a.newId, id);
      i := n - 1;
    } else {
      i := LogsWereAnnounced(ps, tr, acts, n - 1, tid, id);
    }
  }

  lemma StepLogsSuperseded(ps: Parsers, w: World, t: Thread, c: Call, newId: string)
    requires !Finished(t)
    ensures
      var log := Step(ps, w, t, c, newId).0.log;
      forall e | e in log && e.kind == SupersededEvent :: e in w.log || LogsSuperseded(t, e.parameterId)
  {
    hide Next, Insert, Update, CacheSet, CacheDelete;
  }

  lemma ActionLogsSuperseded(ps: Parsers, s: System, a: Action, e: Event)
    requires Possible(s, a) && e in Apply(ps, s, a).w.log && e !in s.w.log && e.kind == SupersededEvent
    ensures a.Advance? && a.tid in s.threads && LogsSuperseded(s.threads[a.tid], e.parameterId)
  {
    hide Step, LogsSuperseded;
    if a.Advance? {
      StepLogsSuperseded(ps, s.w, s.threads[a.tid], a.c, a.newId);
    }
  }

  lemma {:induction false} EntriesWereAnnounced(ps: Parsers, tr: seq<System>, acts: seq<Action>, n: nat, e: Event)
    returns (i: nat)
    requires Run(ps, tr, acts) && n < |tr| && e in tr[n].w.log && e.kind == SupersededEvent
    ensures i < n && Supersedes(tr[i], acts[i], e.parameterId)
    decreases n
  {
    hide Possible, Apply, Supersedes;
    assert n > 0;
    var s, a := tr[n - 1], acts[n - 1];
    assert Possible(s, a) && tr[n] == Apply(ps, s, a);
    hide Run;
    if e in s.w.log {
      i := EntriesWereAnnounced(ps, tr, acts, n - 1, e);
    } else {
      ActionLogsSuperseded(ps, s, a, e);
      i := LogsWereAnnounced(ps, tr, acts, n - 1, a.tid, e.parameterId);
    }
  }

  /** A SUPERSEDED entry belongs to one state write, and is true if and only if that write found the row REVOKED
      already, or was not lost, or another one has revoked the row since. */
  lemma SupersededEntryHasItsWrite(ps: Parsers, tr: seq<System>, acts: seq<Action>, n: nat, e: Event) returns (i: nat)
    requires Run(ps, tr, acts) && n < |tr| && e in tr[n].w.log && e.kind == SupersededEvent
    ensures i < n && Supersedes(tr[i], acts[i], e.parameterId)
    ensures e.parameterId in tr[i].w.rows && e.parameterId in tr[n].w.rows
    ensures tr[n].w.rows[e.parameterId].state == e.to <==>
            || tr[i].w.rows[e.parameterId].state == Revoked
            || acts[i].c.fate != Lost
            || exists m | i < m < n :: Retires(tr[m], acts[m], e.parameterId)
  {
    StoreLeadsLedger(ps, tr, acts, n, e);
    i := EntriesWereAnnounced(ps, tr, acts, n, e);
    SupersededExactly(ps, tr, acts, i, n);
    hide Run, Retires;
  }

  lemma OldVersionWasCanonical(ps: Parsers, s: System, tid: nat)
    requires SystemInv(ps, s) && tid in s.threads && s.threads[tid].SubAnnounce? && s.threads[tid].at == Supersede
    ensures
      var id := s.threads[tid].p.prev;
      id in s.w.rows && OnceCanonical(s.w.rows[id].state)
  {
    var t := s.threads[tid];
    assert ThreadInv(ps, s.w, t);
    assert RowSound(ps, s.w.rows, t.p.id);
    hide Progress;
  }
}
