/** Exactly what moves a row to REVOKED in the runs of any number of calls. */
module Revocations {
  import opened Model
  import opened Tables
  import opened Protocol
  import opened Invariants
  import opened Interleavings

  // ---------- REVOKED ----------

  predicate WritesRevoked(t: Thread, id: string) {
    || (t.SubAnnounce? && t.at == Supersede && t.p.prev == id)
    || (t.RevAct? && t.step == MarkRevoked && t.rec.id == id)
  }

  /** The action revokes a canonical row: a Submit supersedes it or a Revoke finds it, and the call is not lost. */
  predicate Retires(s: System, a: Action, id: string) {
    && id in s.w.rows && s.w.rows[id].state == Canonical
    && a.Advance? && a.c.fate != Lost
    && a.tid in s.threads && WritesRevoked(s.threads[a.tid], id)
  }

  /** Only a state write of its id changes a row that exists. */
  lemma RowAfter(w: World, effect: Effect, c: Call, id: string)
    requires id in w.rows
    ensures
      var w' := Perform(w, effect, c).0;
      && id in w'.rows
      && w'.rows[id] ==
         if effect.SetState? && effect.id == id && c.fate != Lost && IndexAdmits(w.rows, id, Moved(w.rows[id], effect.s, c.now))
         then Moved(w.rows[id], effect.s, c.now) else w.rows[id]
  {
    hide Append, CacheSet, CacheDelete, IndexAdmits, Moved;
  }

  /** The only state write that can meet a canonical row revokes it. */
  lemma OnlyRevoked(ps: Parsers, w: World, t: Thread, now: int, newId: string, id: string)
    requires !Finished(t) && ThreadInv(ps, w, t) && id in w.rows && w.rows[id].state == Canonical
    ensures
      var effect := CallOf(t, now, newId);
      if WritesRevoked(t, id) then effect == SetState(id, Revoked) else !(effect.SetState? && effect.id == id)
  {
    hide Progress;
  }

  /** A canonical row is changed by nothing but its revocation. */
  lemma LeavesCanonicalExactly(ps: Parsers, s: System, a: Action, id: string)
    requires SystemInv(ps, s) && Possible(s, a) && id in s.w.rows && s.w.rows[id].state == Canonical
    ensures
      var s' := Apply(ps, s, a);
      && id in s'.w.rows
      && s'.w.rows[id] == if Retires(s, a, id) then Moved(s.w.rows[id], Revoked, a.c.now) else s.w.rows[id]
  {
    if a.Advance? {
      var t := s.threads[a.tid];
      assert ThreadInv(ps, s.w, t);
      hide SystemInv, ThreadInv, Next, Perform, CallOf;
      OnlyRevoked(ps, s.w, t, a.c.now, a.newId, id);
      RowAfter(s.w, CallOf(t, a.c.now, a.newId), a.c, id);
    }
    hide SystemInv, Step, WritesRevoked;
  }

  /** A row that has been canonical is revoked exactly when an action has revoked it. */
  lemma {:induction false} RevokedSince(ps: Parsers, tr: seq<System>, acts: seq<Action>, i: nat, j: nat, id: string)
    requires Run(ps, tr, acts) && i <= j < |tr| && id in tr[i].w.rows && OnceCanonical(tr[i].w.rows[id].state)
    ensures id in tr[j].w.rows
    ensures tr[j].w.rows[id].state == Revoked <==>
            tr[i].w.rows[id].state == Revoked || exists m | i <= m < j :: Retires(tr[m], acts[m], id)
    decreases j
  {
    hide SystemInv, Apply, Possible;
    LifecycleOnlyAdvances(ps, tr, acts, i, j, id);
    if i < j {
      RevokedSince(ps, tr, acts, i, j - 1, id);
      LifecycleOnlyAdvances(ps, tr, acts, i, j - 1, id);
      InvariantHolds(ps, tr, acts, j - 1);
      var before := tr[j - 1].w.rows[id].state;
      if before == Canonical {
        LeavesCanonicalExactly(ps, tr[j - 1], acts[j - 1], id);
      } else {
        LifecycleOnlyAdvances(ps, tr, acts, j - 1, j, id);
      }
    }
  }

  /** In every run: a row is REVOKED if and only if an effective state write of a Submit that superseded it or of a
      Revoke that found it met it CANONICAL. */
  lemma {:induction false} RevokedExactly(ps: Parsers, tr: seq<System>, acts: seq<Action>, n: nat, id: string)
    requires Run(ps, tr, acts) && n < |tr| && id in tr[n].w.rows
    ensures tr[n].w.rows[id].state == Revoked <==> exists m | 0 <= m < n :: Retires(tr[m], acts[m], id)
    decreases n
  {
    hide SystemInv, Apply, Possible;
    if n > 0 {
      InvariantHolds(ps, tr, acts, n - 1);
      if id in tr[n - 1].w.rows {
        RevokedExactly(ps, tr, acts, n - 1, id);
        LifecycleOnlyAdvances(ps, tr, acts, n - 1, n, id);
        if tr[n - 1].w.rows[id].state == Canonical {
          LeavesCanonicalExactly(ps, tr[n - 1], acts[n - 1], id);
        }
      } else {
        RowsStartSubmitted(ps, tr, acts, n - 1, id);
        NotRetiredYet(ps, tr, acts, n, id);
      }
    }
  }

  lemma NotRetiredYet(ps: Parsers, tr: seq<System>, acts: seq<Action>, n: nat, id: string)
    requires Run(ps, tr, acts) && 0 < n < |tr| && id !in tr[n - 1].w.rows
    ensures forall m | 0 <= m < n :: !Retires(tr[m], acts[m], id)
  {
    forall m | 0 <= m < n ensures !Retires(tr[m], acts[m], id) {
      if Retires(tr[m], acts[m], id) {
        LifecycleOnlyAdvances(ps, tr, acts, m, n - 1, id);
      }
    }
  }
}
