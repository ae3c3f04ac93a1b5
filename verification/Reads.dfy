/** What `Get` can return when it runs among any other calls. */
module Reads {
  import opened Model
  import opened Tables
  import opened CacheKeys
  import opened Protocol
  import opened Invariants
  import opened Interleavings

  /** The record a thread carries between a read and its return. */
  predicate Carries(t: Thread, rec: Parameter) {
    || (t.SubFill? && t.row == rec)
    || (t.GetFill? && t.rec == rec)
    || (t.GetOk? && t.rec == rec)
  }

  predicate Cached(w: World, rec: Parameter) {
    exists k | k in w.cache :: w.cache[k].record == rec
  }

  predicate Held(s: System, rec: Parameter) {
    Cached(s.w, rec) || exists tid | tid in s.threads :: Carries(s.threads[tid], rec)
  }

  /** The record is, field for field, the canonical row of its id. */
  predicate IsCanonicalRow(rows: Rows, rec: Parameter) {
    rec.id in rows && rows[rec.id] == rec && rec.state == Canonical
  }

  /** A step gets hold of a record only from the table, the cache or the thread itself. */
  lemma StepCarries(ps: Parsers, w: World, t: Thread, c: Call, newId: string, rec: Parameter)
    requires !Finished(t) && WorldInv(ps, w)
    ensures
      var (w', t') := Step(ps, w, t, c, newId);
      Carries(t', rec) ==> Carries(t, rec) || Cached(w, rec) || IsCanonicalRow(w.rows, rec)
  {
    match t
    case GetStore(ns, key) =>
      LookupGenuine(ps, w, ns, key);
      hide WorldInv, Lookup;
    case GetCache(ns, key) =>
      hide WorldInv, CacheKey;
    case SubRefresh(p) =>
      assert p.id in w.rows ==> RowSound(ps, w.rows, p.id);
      hide WorldInv, RowSound;
    case _ =>
      hide WorldInv;
  }

  lemma StepCaches(ps: Parsers, w: World, t: Thread, c: Call, newId: string, rec: Parameter)
    requires !Finished(t)
    ensures Cached(Step(ps, w, t, c, newId).0, rec) ==> Carries(t, rec) || Cached(w, rec)
  {
    hide Next, CacheKey, Insert, Update, Append;
  }

  lemma ActionHolds(ps: Parsers, s: System, a: Action, rec: Parameter)
    requires SystemInv(ps, s) && Possible(s, a) && Held(Apply(ps, s, a), rec)
    ensures Held(s, rec) || IsCanonicalRow(s.w.rows, rec)
  {
    hide WorldInv, ThreadInv;
    match a
    case Advance(tid, c, newId) =>
      StepCarries(ps, s.w, s.threads[tid], c, newId, rec);
      StepCaches(ps, s.w, s.threads[tid], c, newId, rec);
      hide Step, Carries, Cached;
    case Spawn(tid, t) =>
    case Evict(_) =>
    case Deliver(_) =>
  }

  /** Every record in the cache or on its way to a caller was the canonical row at an earlier moment. */
  lemma {:induction false} HeldWasCanonical(ps: Parsers, tr: seq<System>, acts: seq<Action>, n: nat, rec: Parameter)
    requires Run(ps, tr, acts) && n < |tr| && Held(tr[n], rec)
    ensures exists i :: 0 <= i <= n && IsCanonicalRow(tr[i].w.rows, rec)
    decreases n
  {
    hide SystemInv, Held, IsCanonicalRow;
    if n == 0 {
      NothingAtBoot(rec);
    } else {
      InvariantHolds(ps, tr, acts, n - 1);
      ActionHolds(ps, tr[n - 1], acts[n - 1], rec);
      if Held(tr[n - 1], rec) {
        HeldWasCanonical(ps, tr, acts, n - 1, rec);
      }
    }
  }

  lemma NothingAtBoot(rec: Parameter)
    ensures !Held(BOOT, rec)
  {
  }

  /** Over all interleavings and failures: a record `Get` returns, from cache or store, was
      the canonical row at some earlier moment, passed validation, and has a cache key equal
      to the one asked for. */
  lemma GetReturnsGenuine(ps: Parsers, tr: seq<System>, acts: seq<Action>, n: nat, tid: nat)
    requires Run(ps, tr, acts) && n < |tr|
    requires tid in tr[n].threads && tr[n].threads[tid].GetOk?
    ensures
      var GetOk(ns, key, rec) := tr[n].threads[tid];
      && (exists i :: 0 <= i <= n && IsCanonicalRow(tr[i].w.rows, rec))
      && ValidParameter(ps, rec)
      && CacheKey(rec.namespace, rec.key) == CacheKey(ns, key)
  {
    var t := tr[n].threads[tid];
    InvariantHolds(ps, tr, acts, n);
    assert Held(tr[n], t.rec) by { assert Carries(t, t.rec); }
    HeldWasCanonical(ps, tr, acts, n, t.rec);
    assert RowSound(ps, tr[n].w.rows, t.rec.id);
    hide WorldInv, Linked, CacheKey, Run, Held, IsCanonicalRow;
  }

  // ---------- colon-free namespaces ----------

  predicate ColonFreeThread(t: Thread) {
    match t
    case SubLookup(req) => ColonFree(req.namespace)
    case SubCreate(req, _, _) => ColonFree(req.namespace)
    case _ => true
  }

  ghost predicate ColonFreeRows(rows: Rows) {
    forall id | id in rows :: ColonFree(rows[id].namespace)
  }

  ghost predicate ColonFreeSystem(s: System) {
    && ColonFreeRows(s.w.rows)
    && forall tid | tid in s.threads :: ColonFreeThread(s.threads[tid])
  }

  /** No Submit of the run names a namespace with a colon. */
  ghost predicate ColonFreeSubmits(acts: seq<Action>) {
    forall i | 0 <= i < |acts| :: acts[i].Spawn? ==> ColonFreeThread(acts[i].t)
  }

  lemma CallColonFree(w: World, effect: Effect, c: Call)
    requires ColonFreeRows(w.rows) && (effect.NewRow? ==> ColonFree(effect.p.namespace))
    ensures ColonFreeRows(Perform(w, effect, c).0.rows)
  {
    hide ColonFree, IndexAdmits, Append, CacheSet, CacheDelete;
    match effect
    case NewRow(p) =>
    case SetState(id, s) =>
    case _ =>
  }

  lemma StepColonFree(ps: Parsers, w: World, t: Thread, c: Call, newId: string)
    requires !Finished(t) && ColonFreeRows(w.rows) && ColonFreeThread(t)
    ensures var (w', t') := Step(ps, w, t, c, newId); ColonFreeRows(w'.rows) && ColonFreeThread(t')
  {
    hide Perform, ColonFree, ColonFreeRows, Lookup, CacheGet, ValidParameter;
    CallColonFree(w, CallOf(t, c.now, newId), c);
  }

  lemma {:induction false} RunsColonFree(ps: Parsers, tr: seq<System>, acts: seq<Action>, n: nat)
    requires Run(ps, tr, acts) && n < |tr| && ColonFreeSubmits(acts)
    ensures ColonFreeSystem(tr[n])
    decreases n
  {
    hide ColonFreeRows, ColonFreeThread, Step;
    if n > 0 {
      RunsColonFree(ps, tr, acts, n - 1);
      match acts[n - 1]
      case Advance(tid, c, newId) => StepColonFree(ps, tr[n - 1].w, tr[n - 1].threads[tid], c, newId);
      case _ =>
    } else {
      EmptyIsColonFree();
    }
  }

  lemma EmptyIsColonFree()
    ensures ColonFreeRows(map[])
  {
  }

  /** With colon-free namespaces `Get` answers for the namespace and key it was asked for. */
  lemma GetAnswersTheQuestion(ps: Parsers, tr: seq<System>, acts: seq<Action>, n: nat, tid: nat)
    requires Run(ps, tr, acts) && n < |tr| && ColonFreeSubmits(acts)
    requires tid in tr[n].threads && tr[n].threads[tid].GetOk? && ColonFree(tr[n].threads[tid].ns)
    ensures
      var GetOk(ns, key, rec) := tr[n].threads[tid];
      rec.namespace == ns && rec.key == key
  {
    var t := tr[n].threads[tid];
    InvariantHolds(ps, tr, acts, n);
    RunsColonFree(ps, tr, acts, n);
    GetReturnsGenuine(ps, tr, acts, n, tid);
    assert Genuine(tr[n].w.rows, t.rec);
    assert t.rec.namespace == tr[n].w.rows[t.rec.id].namespace;
    InjectiveOnColonFree(t.rec.namespace, t.rec.key, t.ns, t.key);
    hide SystemInv, Run, CacheKey;
  }

  /** Without the premise: a namespace and key without colons are still answered for correctly,
      whatever namespaces others use. */
  lemma GetAnswersColonFreeKeys(ps: Parsers, tr: seq<System>, acts: seq<Action>, n: nat, tid: nat)
    requires Run(ps, tr, acts) && n < |tr|
    requires tid in tr[n].threads && tr[n].threads[tid].GetOk?
    requires ColonFree(tr[n].threads[tid].ns) && ColonFree(tr[n].threads[tid].key)
    ensures
      var GetOk(ns, key, rec) := tr[n].threads[tid];
      rec.namespace == ns && rec.key == key
  {
    var t := tr[n].threads[tid];
    GetReturnsGenuine(ps, tr, acts, n, tid);
    UnambiguousExactly(t.ns, t.key);
    hide Run, CacheKey;
  }
}
