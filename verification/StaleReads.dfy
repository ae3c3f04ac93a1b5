/** How old an answer of `Get` can be when calls overlap: as old as five minutes and the time a reader
    took to fill the cache. */
module StaleReads {
  import opened Model
  import opened Tables
  import opened CacheKeys
  import opened Protocol
  import opened Invariants
  import opened Interleavings
  import opened Reads

  // ---------- where an answer comes from ----------

  /** The record a thread is about to put into the cache. */
  function ToFill(t: Thread): Option<Parameter> {
    match t
    case SubFill(_, row) => Some(row)
    case GetFill(_, _, rec) => Some(rec)
    case _ => None
  }

  /** At action i that thread read the record from the table, where it was the canonical row. */
  ghost predicate ReadAt(tr: seq<System>, acts: seq<Action>, i: nat, tid: nat, rec: Parameter)
    requires i < |acts| < |tr|
  {
    && acts[i].Advance? && acts[i].tid == tid && IsCanonicalRow(tr[i].w.rows, rec)
    && tid in tr[i + 1].threads && ToFill(tr[i + 1].threads[tid]) == Some(rec)
  }

  lemma StepFinds(ps: Parsers, w: World, t: Thread, c: Call, newId: string)
    requires !Finished(t) && WorldInv(ps, w)
    ensures
      var t' := Step(ps, w, t, c, newId).1;
      ToFill(t').Some? ==> IsCanonicalRow(w.rows, ToFill(t').value)
  {
    match t
    case GetStore(ns, key) =>
      LookupGenuine(ps, w, ns, key);
      hide WorldInv, Lookup;
    case SubRefresh(p) =>
      assert p.id in w.rows ==> RowSound(ps, w.rows, p.id);
      hide WorldInv, RowSound;
    case _ =>
      hide WorldInv;
  }

  lemma StepFills(ps: Parsers, w: World, t: Thread, c: Call, newId: string)
    requires !Finished(t)
    ensures
      var w' := Step(ps, w, t, c, newId).0;
      forall k | k in w'.cache ::
        || (k in w.cache && w'.cache[k] == w.cache[k])
        || (ToFill(t).Some? && w'.cache[k] == Entry(ToFill(t).value, c.now + TTL))
  {
    hide Next, CacheKey, Insert, Update, Append;
  }

  /** A record on its way into the cache was read from the table by the thread that carries it. */
  lemma {:induction false} CarriedWasRead(ps: Parsers, tr: seq<System>, acts: seq<Action>, n: nat, tid: nat)
    requires Run(ps, tr, acts) && n < |tr| && tid in tr[n].threads && ToFill(tr[n].threads[tid]).Some?
    ensures exists i :: 0 <= i < n && ReadAt(tr, acts, i, tid, ToFill(tr[n].threads[tid]).value)
    decreases n
  {
    hide SystemInv, ToFill, IsCanonicalRow;
    if n == 0 {
    } else {
      InvariantHolds(ps, tr, acts, n - 1);
      var s, a := tr[n - 1], acts[n - 1];
      var rec := ToFill(tr[n].threads[tid]).value;
      if a.Advance? && a.tid == tid {
        SoundWorld(ps, s);
        StepFinds(ps, s.w, s.threads[tid], a.c, a.newId);
        assert ReadAt(tr, acts, n - 1, tid, rec);
      } else if tid in s.threads {
        assert s.threads[tid] == tr[n].threads[tid] by { hide Step; }
        CarriedWasRead(ps, tr, acts, n - 1, tid);
      } else {
        StartsWithNothing(a);
      }
    }
  }

  lemma StartsWithNothing(a: Action)
    requires a.Spawn? && Initial(a.t)
    ensures ToFill(a.t).None?
  {
  }

  /** The entry was put by action j, from the canonical row its thread read at action i. */
  ghost predicate FilledBy(tr: seq<System>, acts: seq<Action>, i: nat, j: nat, entry: Entry)
    requires i < j < |acts| < |tr|
  {
    && acts[j].Advance? && entry.expires == acts[j].c.now + TTL
    && ReadAt(tr, acts, i, acts[j].tid, entry.record)
  }

  lemma {:induction false} EntriesWereFilled(ps: Parsers, tr: seq<System>, acts: seq<Action>, n: nat, k: string)
    requires Run(ps, tr, acts) && n < |tr| && k in tr[n].w.cache
    ensures exists i, j :: 0 <= i < j < n && FilledBy(tr, acts, i, j, tr[n].w.cache[k])
    decreases n
  {
    hide SystemInv, ToFill, ReadAt;
    if n > 0 {
      var s, a := tr[n - 1], acts[n - 1];
      var entry := tr[n].w.cache[k];
      if k in s.w.cache && s.w.cache[k] == entry {
        EntriesWereFilled(ps, tr, acts, n - 1, k);
      } else {
        hide Step;
        assert a.Advance?;
        StepFills(ps, s.w, s.threads[a.tid], a.c, a.newId);
        CarriedWasRead(ps, tr, acts, n - 1, a.tid);
        var i :| 0 <= i < n - 1 && ReadAt(tr, acts, i, a.tid, entry.record);
        assert FilledBy(tr, acts, i, n - 1, entry);
      }
    }
  }

  /** The clock readings of the run never go back. */
  ghost predicate ClocksInOrder(acts: seq<Action>) {
    forall i, j | 0 <= i <= j < |acts| && acts[i].Advance? && acts[j].Advance? :: acts[i].c.now <= acts[j].c.now
  }

  /** Over all interleavings and failures: an answer that `Get` finds at action n, clock reading t, was
      canonical when Get itself read it from the store; or it was canonical when some thread read it at
      action i, and that thread cached it at action j less than five minutes before t. */
  lemma AnswersAreThisOld(ps: Parsers, tr: seq<System>, acts: seq<Action>, n: nat, tid: nat)
    requires Run(ps, tr, acts) && n < |acts|
    requires acts[n].Advance? && acts[n].tid == tid && tr[n + 1].threads[tid].GetOk?
    ensures
      var rec := tr[n + 1].threads[tid].rec;
      || (exists i :: 0 <= i < n && ReadAt(tr, acts, i, tid, rec))
      || (exists i, j :: 0 <= i < j < n && FiveMinutes(tr, acts, i, j, n, rec))
  {
    var s, a := tr[n], acts[n];
    var t := s.threads[tid];
    var rec := tr[n + 1].threads[tid].rec;
    assert Possible(s, a) && tr[n + 1] == Apply(ps, s, a);
    AnswersComeFrom(ps, s.w, t, a.c, a.newId);
    hide Run, Step, ReadAt, CacheKey;
    if t.GetFill? {
      CarriedWasRead(ps, tr, acts, n, tid);
    } else {
      var k := CacheKey(t.ns, t.key);
      EntriesWereFilled(ps, tr, acts, n, k);
      var i, j :| 0 <= i < j < n && FilledBy(tr, acts, i, j, s.w.cache[k]);
      assert FiveMinutes(tr, acts, i, j, n, rec);
    }
  }

  ghost predicate FiveMinutes(tr: seq<System>, acts: seq<Action>, i: nat, j: nat, n: nat, rec: Parameter)
    requires i < j < n < |acts| < |tr|
  {
    && acts[j].Advance? && acts[n].Advance?
    && acts[n].c.now < acts[j].c.now + 5 * 60
    && ReadAt(tr, acts, i, acts[j].tid, rec)
    && (ClocksInOrder(acts) ==> acts[i].c.now <= acts[j].c.now <= acts[n].c.now)
  }

  lemma AnswersComeFrom(ps: Parsers, w: World, t: Thread, c: Call, newId: string)
    requires !Finished(t) && Step(ps, w, t, c, newId).1.GetOk?
    ensures
      var rec := Step(ps, w, t, c, newId).1.rec;
      || (t.GetFill? && rec == t.rec)
      || (t.GetCache?
          && var k := CacheKey(t.ns, t.key);
             k in w.cache && w.cache[k].record == rec && c.now < w.cache[k].expires)
  {
    hide CacheKey, Lookup;
  }
}
