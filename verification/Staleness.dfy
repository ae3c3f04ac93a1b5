/** How old an answer of `Get` can be when the cache, but not the store, may fail. */
module Staleness {
  import opened Model
  import opened Tables
  import opened CacheKeys
  import opened Protocol
  import opened Invariants
  import opened Alone
  import opened Sequential
  import opened Reads
  import opened Refinement

  /** The operation happens at one instant. */
  ghost predicate Instant(op: Op, t: int) {
    match op
    case Submit(_, _, env) => forall site :: env(site).now == t
    case Get(_, _, env) => forall site :: env(site).now == t
    case Revoking(_, _, _, _, env) => forall site :: env(site).now == t
    case Expire(_) => true
  }

  /** Operation i of the history happens at times[i]. */
  ghost predicate Timed(ops: seq<Op>, times: seq<int>) {
    && |ops| == |times|
    && (forall i | 0 <= i < |ops| :: Instant(ops[i], times[i]))
    && (forall i, j | 0 <= i <= j < |times| :: times[i] <= times[j])
  }

  /** An entry is as it was, or was written now from what is now the canonical row. */
  predicate OldOrNew(w: World, w': World, k: string, t: int)
    requires k in w'.cache
  {
    || (k in w.cache && w'.cache[k] == w.cache[k])
    || (w'.cache[k].expires == t + TTL && EntryCurrent(w'.rows, k, w'.cache[k]))
  }

  lemma OpCaches(ps: Parsers, w: World, op: Op, t: int)
    requires Quiet(ps, w) && Proper(w, op) && Instant(op, t)
    ensures var w' := Do(ps, w, op).0; forall k | k in w'.cache :: OldOrNew(w, w', k, t)
  {
    hide WorldInv, LedgerTells, Calm, StoreAnswers, Solo, Lookup, CacheKey;
    match op
    case Submit(req, id, env) =>
      assert env(Fill).now == t;
      LookupGenuine(ps, w, req.namespace, req.key);
      SubmitRows(ps, w, req, env, id);
      SubmitCache(ps, w, req, env, id);
      hide ValidParameter, NewParameter, Genuine;
    case Get(ns, key, env) =>
      assert env(FillCache).now == t;
      LookupGenuine(ps, w, ns, key);
      GetAlone(ps, w, ns, key, env, "");
    case Revoking(ns, key, actor, reason, env) =>
      RevokeAlone(ps, w, ns, key, actor, reason, env, "");
    case Expire(_) =>
  }

  /** The entry was written right after operation i, from what was then the canonical row. */
  ghost predicate WrittenAfter(ps: Parsers, ops: seq<Op>, times: seq<int>, i: nat, k: string, entry: Entry)
    requires 0 < i <= |ops| == |times|
  {
    entry.expires == times[i - 1] + TTL && EntryCurrent(Exec(ps, ops[..i]).rows, k, entry)
  }

  lemma {:induction false} EntriesHaveAnOrigin(ps: Parsers, ops: seq<Op>, times: seq<int>, k: string)
    requires History(ps, ops) && Timed(ops, times) && k in Exec(ps, ops).cache
    ensures exists i | 0 < i <= |ops| :: WrittenAfter(ps, ops, times, i, k, Exec(ps, ops).cache[k])
  {
    hide Do, Quiet, Proper, EntryCurrent, Instant;
    if ops != [] {
      var n := |ops| - 1;
      var init, before := ops[..n], times[..n];
      var w, w' := Exec(ps, init), Exec(ps, ops);
      HistoriesAreQuiet(ps, init);
      assert Timed(init, before);
      OpCaches(ps, w, ops[n], times[n]);
      assert OldOrNew(w, w', k, times[n]);
      assert ops[..|ops|] == ops;
      if k in w.cache && w'.cache[k] == w.cache[k] {
        EntriesHaveAnOrigin(ps, init, before, k);
        var i :| 0 < i <= n && WrittenAfter(ps, init, before, i, k, w.cache[k]);
        assert init[..i] == ops[..i];
        assert WrittenAfter(ps, ops, times, i, k, w'.cache[k]);
      } else {
        assert WrittenAfter(ps, ops, times, |ops|, k, w'.cache[k]);
      }
    }
  }

  /** Bounded staleness: what `Get` returns at time t is, field for field, the canonical row
      now, or was the canonical row right after some operation less than five minutes before t;
      either way its cache key is the one asked for. */
  lemma StaleByAtMostFiveMinutes(ps: Parsers, ops: seq<Op>, times: seq<int>, ns: string, key: string, env: Env, t: int)
    requires History(ps, ops) && StoreAnswers(env)
    requires Timed(ops + [Get(ns, key, env)], times + [t])
    requires Do(ps, Exec(ps, ops), Get(ns, key, env)).1.GetOk?
    ensures
      var rec := Do(ps, Exec(ps, ops), Get(ns, key, env)).1.rec;
      && CacheKey(rec.namespace, rec.key) == CacheKey(ns, key)
      && (IsCanonicalRow(Exec(ps, ops).rows, rec)
          || exists i :: 0 < i <= |ops| && t - 5 * 60 < times[i - 1] <= t
               && IsCanonicalRow(Exec(ps, ops[..i]).rows, rec))
  {
    var all, ts := ops + [Get(ns, key, env)], times + [t];
    assert |all| == |ts| && all[|ops|] == Get(ns, key, env) && ts[|times|] == t;
    assert Instant(all[|ops|], ts[|ops|]) && env(ReadCache).now == t;
    assert Timed(ops, times) by {
      assert forall i | 0 <= i < |ops| :: all[i] == ops[i] && ts[i] == times[i];
    }
    var w := Exec(ps, ops);
    HistoriesAreQuiet(ps, ops);
    QuietIsSound(ps, w);
    hide WorldInv, Quiet, History, Exec, StoreAnswers, Solo, Instant, Lookup;
    LookupGenuine(ps, w, ns, key);
    GetAlone(ps, w, ns, key, env, "");
    var k := CacheKey(ns, key);
    hide CacheKey;
    match CacheGet(w.cache, ns, key, env(ReadCache))
    case Some(rec) =>
      EntriesHaveAnOrigin(ps, ops, times, k);
      var i :| 0 < i <= |ops| && WrittenAfter(ps, ops, times, i, k, w.cache[k]);
      assert ts[i - 1] == times[i - 1] && times[i - 1] <= t;
    case None =>
  }

  /** ... and with colon-free namespaces it is a row of the key asked for. */
  lemma StaleButRightKey(ps: Parsers, ops: seq<Op>, ns: string, key: string, env: Env)
    requires History(ps, ops) && StoreAnswers(env)
    requires ColonFree(ns) && forall i | 0 <= i < |ops| :: ColonFreeOp(ops[i])
    requires Do(ps, Exec(ps, ops), Get(ns, key, env)).1.GetOk?
    ensures
      var rec := Do(ps, Exec(ps, ops), Get(ns, key, env)).1.rec;
      rec.namespace == ns && rec.key == key
  {
    hide Quiet, Exec, StoreAnswers, Solo, WorldInv, Genuine, CacheKey;
    var w := Exec(ps, ops);
    HistoriesAreQuiet(ps, ops);
    QuietIsSound(ps, w);
    HistoriesColonFree(ps, ops);
    SolitaryGetIsGenuine(ps, w, ns, key, env);
    var rec := Do(ps, w, Get(ns, key, env)).1.rec;
    GenuineColonFree(w.rows, rec);
    InjectiveOnColonFree(rec.namespace, rec.key, ns, key);
  }

  lemma GenuineColonFree(rows: Rows, rec: Parameter)
    requires Genuine(rows, rec) && ColonFreeRows(rows)
    ensures ColonFree(rec.namespace)
  {
    assert rec.namespace == rows[rec.id].namespace;
  }

  lemma SolitaryGetIsGenuine(ps: Parsers, w: World, ns: string, key: string, env: Env)
    requires WorldInv(ps, w) && StoreAnswers(env)
    ensures
      var t := Solo(ps, w, GetCache(ns, key), env, "").1;
      t.GetOk? ==>
        && t.ns == ns && t.key == key
        && Genuine(w.rows, t.rec) && CacheKey(t.rec.namespace, t.rec.key) == CacheKey(ns, key)
  {
    hide WorldInv, StoreAnswers, Solo, Lookup, CacheGet, CacheSet, CacheKey, Genuine;
    SoloKeeps(ps, w, GetCache(ns, key), env, "");
    GetAlone(ps, w, ns, key, env, "");
  }

  lemma {:induction false} HistoriesColonFree(ps: Parsers, ops: seq<Op>)
    requires History(ps, ops) && forall i | 0 <= i < |ops| :: ColonFreeOp(ops[i])
    ensures ColonFreeRows(Exec(ps, ops).rows)
  {
    hide ColonFreeRows, ColonFreeOp, Do, Proper, Quiet;
    if ops == [] {
      EmptyIsColonFree();
    } else {
      var init := ops[..|ops| - 1];
      HistoriesColonFree(ps, init);
      HistoriesAreQuiet(ps, init);
      QuietIsSound(ps, Exec(ps, init));
      ColonFreeStays(ps, Exec(ps, init), ops[|ops| - 1]);
    }
  }

  // ---------- exactly when answers belong to the key asked for ----------

  /** Whoever shares a cache key is answered with the other's record: after a valid Submit to one of two
      colliding keys, a `Get` of the other returns it while it is cached. */
  lemma CollidingGet(ps: Parsers, ops: seq<Op>, ns: string, key: string, req: Request, id: string, env: Env, env': Env)
    requires History(ps, ops + [Submit(req, id, env)])
    requires CacheKey(ns, key) == CacheKey(req.namespace, req.key) && ValidValue(ps, req.value, req.valueType)
    requires env(Fill).fate == Acked && StoreAnswers(env')
    requires env'(ReadCache).fate == Acked && env'(ReadCache).now < env(Fill).now + TTL
    ensures
      var t := Do(ps, Exec(ps, ops + [Submit(req, id, env)]), Get(ns, key, env')).1;
      t.GetOk? && t.rec.namespace == req.namespace && t.rec.key == req.key && t.rec.id == id
  {
    var all := ops + [Submit(req, id, env)];
    assert all[..|ops|] == ops;
    HistoriesAreQuiet(ps, ops);
    var w := Exec(ps, ops);
    var w' := Exec(ps, all);
    QuietIsSound(ps, w);
    assert w' == Do(ps, w, Submit(req, id, env)).0 && Proper(w, Submit(req, id, env));
    hide Quiet, History, Exec, WorldInv, StoreAnswers, Solo, Lookup;
    SubmitCache(ps, w, req, env, id);
    var p := Proposal(w.rows, req, id, env);
    assert ValidParameter(ps, p) && p.namespace == req.namespace && p.key == req.key && p.id == id;
    GetAlone(ps, w', ns, key, env', "");
    hide CacheKey, CacheDelete, Proposal;
  }

  /** A colon in the key asked for: a Submit to namespace `head:tail` answers a `Get` of `head`. */
  lemma ColonInKeyIsWrong(ps: Parsers, ops: seq<Op>, head: string, tail: string, req: Request, id: string,
                          env: Env, env': Env)
    requires History(ps, ops + [Submit(req, id, env)])
    requires req.namespace == head + ":" + tail && ValidValue(ps, req.value, req.valueType)
    requires env(Fill).fate == Acked && StoreAnswers(env')
    requires env'(ReadCache).fate == Acked && env'(ReadCache).now < env(Fill).now + TTL
    ensures
      var t := Do(ps, Exec(ps, ops + [Submit(req, id, env)]), Get(head, tail + ":" + req.key, env')).1;
      t.GetOk? && t.rec.namespace != head && t.rec.id == id
  {
    hide Do, Exec, History, StoreAnswers, CacheKey;
    ColonInNamespaceCollides(head, tail, req.key);
    CollidingGet(ps, ops, head, tail + ":" + req.key, req, id, env, env');
  }

  /** A colon in the namespace asked for: a Submit to namespace `head` answers a `Get` of `head:tail`. */
  lemma ColonInNamespaceIsWrong(ps: Parsers, ops: seq<Op>, head: string, tail: string, key: string, req: Request,
                                id: string, env: Env, env': Env)
    requires History(ps, ops + [Submit(req, id, env)])
    requires req.namespace == head && req.key == tail + ":" + key && ValidValue(ps, req.value, req.valueType)
    requires env(Fill).fate == Acked && StoreAnswers(env')
    requires env'(ReadCache).fate == Acked && env'(ReadCache).now < env(Fill).now + TTL
    ensures
      var t := Do(ps, Exec(ps, ops + [Submit(req, id, env)]), Get(head + ":" + tail, key, env')).1;
      t.GetOk? && t.rec.namespace != head + ":" + tail && t.rec.id == id
  {
    hide Do, Exec, History, StoreAnswers, CacheKey;
    ColonInNamespaceCollides(head, tail, key);
    CollidingGet(ps, ops, head + ":" + tail, key, req, id, env, env');
  }

  /** In every history, a `Get` of this namespace and key that succeeds returns their own record. */
  ghost predicate AnsweredWithItsOwn(ps: Parsers, ns: string, key: string) {
    forall ops, env | History(ps, ops) && StoreAnswers(env) :: OwnAnswer(ns, key, Do(ps, Exec(ps, ops), Get(ns, key, env)).1)
  }

  predicate OwnAnswer(ns: string, key: string, t: Thread) {
    t.GetOk? ==> t.rec.namespace == ns && t.rec.key == key
  }

  lemma OneSubmitIsAHistory(ps: Parsers, req: Request)
    ensures History(ps, [] + [Submit(req, "1", PERFECT)])
  {
    var ops := [Submit(req, "1", PERFECT)];
    assert [] + ops == ops && ops[..0] == [];
    assert Exec(ps, []) == EMPTY && History(ps, []);
    assert Proper(EMPTY, ops[0]);
  }

  /** Without exception: a key is always answered with its own record if and only if neither its
      namespace nor the key itself has a colon. */
  lemma OwnAnswersExactly(ps: Parsers, ns: string, key: string)
    ensures AnsweredWithItsOwn(ps, ns, key) <==> ColonFree(ns) && ColonFree(key)
  {
    if ColonFree(ns) && ColonFree(key) {
      forall ops, env | History(ps, ops) && StoreAnswers(env)
        ensures OwnAnswer(ns, key, Do(ps, Exec(ps, ops), Get(ns, key, env)).1)
      {
        ColonFreeKeyIsSafe(ps, ops, ns, key, env);
      }
    } else {
      assert StoreAnswers(PERFECT);
      hide StoreAnswers, History, Exec, Do, CacheKey;
      if !ColonFree(ns) {
        var head, tail := SplitAtColon(ns);
        var req := Sample(head, tail + ":" + key);
        OneSubmitIsAHistory(ps, req);
        ColonInNamespaceIsWrong(ps, [], head, tail, key, req, "1", PERFECT, PERFECT);
      } else {
        var head, tail := SplitAtColon(key);
        var req := Sample(ns + ":" + head, tail);
        OneSubmitIsAHistory(ps, req);
        ColonInKeyIsWrong(ps, [], ns, head, req, "1", PERFECT, PERFECT);
      }
    }
  }

  lemma ColonFreeKeyIsSafe(ps: Parsers, ops: seq<Op>, ns: string, key: string, env: Env)
    requires History(ps, ops) && StoreAnswers(env) && ColonFree(ns) && ColonFree(key)
    ensures OwnAnswer(ns, key, Do(ps, Exec(ps, ops), Get(ns, key, env)).1)
  {
    hide Quiet, Exec, StoreAnswers, Solo, WorldInv, Genuine, CacheKey;
    HistoriesAreQuiet(ps, ops);
    QuietIsSound(ps, Exec(ps, ops));
    SolitaryGetIsGenuine(ps, Exec(ps, ops), ns, key, env);
    UnambiguousExactly(ns, key);
  }
}
