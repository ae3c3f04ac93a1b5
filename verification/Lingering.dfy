/** A revoked value can come back after its Revoke has returned: exactly as long as it lingers in the cache
    or in a thread that is about to fill the cache. */
module Lingering {
  import opened Model
  import opened Tables
  import opened CacheKeys
  import opened Protocol
  import opened Invariants
  import opened Alone
  import opened Interleavings
  import opened Overlap
  import opened StaleReads
  import opened Refinement

  /** A thread is about to put a record of this row into the cache. */
  predicate Holds(t: Thread, id: string) {
    ToFill(t).Some? && ToFill(t).value.id == id
  }

  /** A record of this row is cached and has not expired at `now`, or is on its way into the cache. */
  ghost predicate Lingers(s: System, id: string, now: int) {
    || (exists k | k in s.w.cache :: s.w.cache[k].record.id == id && now < s.w.cache[k].expires)
    || (exists tid | tid in s.threads :: Holds(s.threads[tid], id))
  }

  /** The second run continues the first, with clock readings from `now` on. */
  ghost predicate Follows(ps: Parsers, tr: seq<System>, acts: seq<Action>, tr': seq<System>, acts': seq<Action>,
                          now: int) {
    && Run(ps, tr', acts') && tr <= tr' && acts <= acts'
    && forall i | |acts| <= i < |acts'| && acts'[i].Advance? :: now <= acts'[i].c.now
  }

  /** ... and in order. */
  ghost predicate Continues(ps: Parsers, tr: seq<System>, acts: seq<Action>, tr': seq<System>, acts': seq<Action>,
                            now: int) {
    && Follows(ps, tr, acts, tr', acts', now)
    && forall i, j | |acts| <= i <= j < |acts'| && acts'[i].Advance? && acts'[j].Advance? ::
         acts'[i].c.now <= acts'[j].c.now
  }

  /** A Get that was not there in state s has been answered with this row in state s'. */
  predicate AnsweredLate(s: System, s': System, id: string) {
    exists late | late in s'.threads && late !in s.threads ::
      s'.threads[late].GetOk? && s'.threads[late].rec.id == id
  }

  ghost predicate CanComeBack(ps: Parsers, tr: seq<System>, acts: seq<Action>, id: string, now: int)
    requires tr != []
  {
    exists tr', acts' ::
      Continues(ps, tr, acts, tr', acts', now) && tr' != [] && AnsweredLate(Last(tr), Last(tr'), id)
  }

  // ---------- gone for good ----------

  /** One action neither brings a revoked row back nor answers with it. */
  lemma StaysGone(ps: Parsers, s: System, a: Action, id: string, now: int)
    requires SystemInv(ps, s) && Possible(s, a) && (a.Advance? ==> now <= a.c.now)
    requires id in s.w.rows && s.w.rows[id].state == Revoked && !Lingers(s, id, now)
    ensures
      var s' := Apply(ps, s, a);
      && !Lingers(s', id, now)
      && forall tid | tid in s'.threads && s'.threads[tid].GetOk? && s'.threads[tid].rec.id == id ::
           tid in s.threads && s.threads[tid] == s'.threads[tid]
  {
    hide SystemInv;
    match a
    case Advance(tid, c, newId) =>
      var t := s.threads[tid];
      hide Step, ToFill, CacheKey;
      SoundWorld(ps, s);
      StepFinds(ps, s.w, t, c, newId);
      StepFills(ps, s.w, t, c, newId);
      if Step(ps, s.w, t, c, newId).1.GetOk? {
        AnswersComeFrom(ps, s.w, t, c, newId);
        FillersHold(t);
      }
    case Spawn(_, t) => StartsWithNothing(a);
    case Evict(_) =>
    case Deliver(_) =>
  }

  lemma FillersHold(t: Thread)
    ensures t.GetFill? ==> ToFill(t) == Some(t.rec)
  {
  }

  /** Once a revoked row does not linger, no later Get is answered with it. */
  lemma {:induction false} NeverComesBack(ps: Parsers, tr: seq<System>, acts: seq<Action>, tr': seq<System>,
                                          acts': seq<Action>, id: string, now: int, m: nat)
    requires Run(ps, tr, acts) && Follows(ps, tr, acts, tr', acts', now) && |acts| <= m < |tr'|
    requires id in Last(tr).w.rows && Last(tr).w.rows[id].state == Revoked && !Lingers(Last(tr), id, now)
    ensures !Lingers(tr'[m], id, now) && !AnsweredLate(Last(tr), tr'[m], id)
    decreases m
  {
    assert tr'[|acts|] == Last(tr);
    hide Lingers, SystemInv, Apply, Possible;
    if m > |acts| {
      NeverComesBack(ps, tr, acts, tr', acts', id, now, m - 1);
      InvariantHolds(ps, tr', acts', m - 1);
      LifecycleOnlyAdvances(ps, tr', acts', |acts|, m - 1, id);
      var a := acts'[m - 1];
      assert a.Advance? ==> now <= a.c.now;
      StaysGone(ps, tr'[m - 1], a, id, now);
    }
  }

  // ---------- served again ----------

  /** The step of a `Get` whose cache hits. */
  lemma GetHits(ps: Parsers, w: World, ns: string, key: string, c: Call, entry: Entry)
    requires c.fate == Acked && CacheKey(ns, key) in w.cache && w.cache[CacheKey(ns, key)] == entry
    requires c.now < entry.expires
    ensures Step(ps, w, GetCache(ns, key), c, "") == (w, GetOk(ns, key, entry.record))
  {
    hide CacheKey;
  }

  /** A Get that starts now and hits. */
  lemma LateHit(ps: Parsers, tr: seq<System>, acts: seq<Action>, ns: string, key: string, entry: Entry, read: Call)
    returns (tr': seq<System>, acts': seq<Action>, late: nat)
    requires Run(ps, tr, acts) && read.fate == Acked && read.now < entry.expires
    requires CacheKey(ns, key) in Last(tr).w.cache && Last(tr).w.cache[CacheKey(ns, key)] == entry
    ensures Run(ps, tr', acts') && tr <= tr'
    ensures acts' == acts + [Spawn(late, GetCache(ns, key)), Advance(late, read, "")]
    ensures late !in Last(tr).threads && Last(tr') == System(Last(tr).w, Last(tr).threads[late := GetOk(ns, key, entry.record)])
  {
    assert tr != [];
    var s := Last(tr);
    hide Run, Step, CacheKey;
    late := FreeThread(s);
    var s1 := System(s.w, s.threads[late := GetCache(ns, key)]);
    tr', acts' := Goes(ps, tr, acts, Spawn(late, GetCache(ns, key)), s1);
    GetHits(ps, s.w, ns, key, read, entry);
    var s2 := System(s.w, s.threads[late := GetOk(ns, key, entry.record)]);
    assert s1.threads[late := GetOk(ns, key, entry.record)] == s2.threads;
    tr', acts' := Goes(ps, tr', acts', Advance(late, read, ""), s2);
  }

  lemma FillStep(ps: Parsers, w: World, t: Thread, c: Call)
    requires ToFill(t).Some?
    ensures !Finished(t) && Step(ps, w, t, c, "").0 == w.(cache := CacheSet(w.cache, ToFill(t).value, c))
  {
    hide CacheSet, Next;
  }

  /** A thread fills the cache, and a Get that starts after that is answered from it. */
  lemma FilledThenHit(ps: Parsers, tr: seq<System>, acts: seq<Action>, tid: nat, rec: Parameter, fill: Call, read: Call)
    returns (tr': seq<System>, acts': seq<Action>, late: nat)
    requires Run(ps, tr, acts) && tid in Last(tr).threads && ToFill(Last(tr).threads[tid]) == Some(rec)
    requires fill.fate == read.fate == Acked && read.now < fill.now + TTL
    ensures Run(ps, tr', acts') && tr <= tr' && late !in Last(tr).threads
    ensures acts' == acts + [Advance(tid, fill, "")] + [Spawn(late, GetCache(rec.namespace, rec.key)), Advance(late, read, "")]
    ensures late in Last(tr').threads && Last(tr').threads[late] == GetOk(rec.namespace, rec.key, rec)
    ensures Last(tr').w.rows == Last(tr).w.rows
  {
    assert tr != [];
    var s := Last(tr);
    FillStep(ps, s.w, s.threads[tid], fill);
    hide Run, Step, CacheKey, ToFill;
    var s1 := Apply(ps, s, Advance(tid, fill, ""));
    tr', acts' := Goes(ps, tr, acts, Advance(tid, fill, ""), s1);
    assert s.threads.Keys <= s1.threads.Keys;
    var filled := tr';
    tr', acts', late := LateHit(ps, tr', acts', rec.namespace, rec.key, Entry(rec, fill.now + TTL), read);
    assert tr <= filled <= tr';
  }

  lemma CachedIsServed(ps: Parsers, tr: seq<System>, acts: seq<Action>, k: string, now: int)
    requires Run(ps, tr, acts) && k in Last(tr).w.cache && now < Last(tr).w.cache[k].expires
    ensures CanComeBack(ps, tr, acts, Last(tr).w.cache[k].record.id, now)
  {
    assert tr != [] && Last(tr) == tr[|acts|];
    InvariantHolds(ps, tr, acts, |acts|);
    var s := Last(tr);
    var rec := s.w.cache[k].record;
    hide Run, SystemInv, CacheKey;
    EntriesHaveTheirKey(ps, s, k);
    var tr', acts', late := LateHit(ps, tr, acts, rec.namespace, rec.key, s.w.cache[k], Call(Acked, now));
    assert Continues(ps, tr, acts, tr', acts', now) && AnsweredLate(s, Last(tr'), rec.id);
  }

  lemma HeldIsServed(ps: Parsers, tr: seq<System>, acts: seq<Action>, tid: nat, id: string, now: int)
    requires Run(ps, tr, acts) && tid in Last(tr).threads && Holds(Last(tr).threads[tid], id)
    ensures CanComeBack(ps, tr, acts, id, now)
  {
    assert tr != [];
    var s, c := Last(tr), Call(Acked, now);
    var rec := ToFill(s.threads[tid]).value;
    hide Run, ToFill;
    var tr', acts', late := FilledThenHit(ps, tr, acts, tid, rec, c, c);
    assert Continues(ps, tr, acts, tr', acts', now) && AnsweredLate(s, Last(tr'), id);
  }

  /** As long as a row lingers, some continuation answers a later Get with it. */
  lemma LingeringIsServed(ps: Parsers, tr: seq<System>, acts: seq<Action>, id: string, now: int)
    requires Run(ps, tr, acts) && Lingers(Last(tr), id, now)
    ensures CanComeBack(ps, tr, acts, id, now)
  {
    assert tr != [];
    var s := Last(tr);
    hide Run, CanComeBack, Holds;
    if k :| k in s.w.cache && s.w.cache[k].record.id == id && now < s.w.cache[k].expires {
      CachedIsServed(ps, tr, acts, k, now);
    } else {
      var tid :| tid in s.threads && Holds(s.threads[tid], id);
      HeldIsServed(ps, tr, acts, tid, id, now);
    }
  }

  lemma EntriesHaveTheirKey(ps: Parsers, s: System, k: string)
    requires SystemInv(ps, s) && k in s.w.cache
    ensures k == CacheKey(s.w.cache[k].record.namespace, s.w.cache[k].record.key)
  {
    hide CacheKey;
    assert EntrySound(s.w.rows, k, s.w.cache[k]);
  }

  /** In any run, at any time from `now` on: a Get that starts later can be answered with a revoked row if and
      only if the row lingers, in an unexpired cache entry or in a thread about to fill the cache. */
  lemma ComesBackExactly(ps: Parsers, tr: seq<System>, acts: seq<Action>, id: string, now: int)
    requires Run(ps, tr, acts) && id in Last(tr).w.rows && Last(tr).w.rows[id].state == Revoked
    ensures CanComeBack(ps, tr, acts, id, now) <==> Lingers(Last(tr), id, now)
  {
    assert tr != [];
    if Lingers(Last(tr), id, now) {
      LingeringIsServed(ps, tr, acts, id, now);
    } else if CanComeBack(ps, tr, acts, id, now) {
      var tr', acts' :| Continues(ps, tr, acts, tr', acts', now) && tr' != [] && AnsweredLate(Last(tr), Last(tr'), id);
      NeverComesBack(ps, tr, acts, tr', acts', id, now, |acts'|);
      assert false;
    }
  }

  // ---------- a run in which it happens ----------

  /** Every call from action n on is acknowledged. */
  predicate Acknowledged(acts: seq<Action>, n: nat) {
    forall i | n <= i < |acts| && acts[i].Advance? :: acts[i].c.fate == Acked
  }


  /** The steps of a `Get` whose cache misses. */
  lemma GetMisses(ps: Parsers, w: World, ns: string, key: string, c: Call)
    requires CacheKey(ns, key) !in w.cache
    ensures Step(ps, w, GetCache(ns, key), c, "") == (w, GetStore(ns, key))
  {
    hide CacheKey;
  }

  lemma GetReads(ps: Parsers, w: World, ns: string, key: string, c: Call, rec: Parameter)
    requires c.fate == Acked && Lookup(w.rows, ns, key) == Some(rec)
    ensures Step(ps, w, GetStore(ns, key), c, "") == (w, GetFill(ns, key, rec))
  {
    hide Lookup;
  }

  /** A reader starts and misses. */
  lemma ReaderMisses(ps: Parsers, tr: seq<System>, acts: seq<Action>, ns: string, key: string, c: Call)
    returns (tr': seq<System>, acts': seq<Action>, reader: nat)
    requires Run(ps, tr, acts) && c.fate == Acked
    ensures acts <= acts' && Acknowledged(acts', |acts|)
    ensures Run(ps, tr', acts') && tr <= tr' && reader !in Last(tr).threads
    ensures
      var s, s' := Last(tr), Last(tr');
      && s'.threads == s.threads[reader := GetStore(ns, key)]
      && s'.w == s.w.(cache := s.w.cache - {CacheKey(ns, key)})
  {
    assert tr != [];
    var s := Last(tr);
    var w := s.w.(cache := s.w.cache - {CacheKey(ns, key)});
    reader := FreeThread(s);
    hide Run, Step, CacheKey;
    GetMisses(ps, w, ns, key, c);
    tr', acts' := Goes(ps, tr, acts, Evict(CacheKey(ns, key)), System(w, s.threads));
    var s1 := System(w, s.threads[reader := GetCache(ns, key)]);
    tr', acts' := Goes(ps, tr', acts', Spawn(reader, GetCache(ns, key)), s1);
    var s2 := System(w, s.threads[reader := GetStore(ns, key)]);
    assert s1.threads[reader := GetStore(ns, key)] == s2.threads;
    tr', acts' := Goes(ps, tr', acts', Advance(reader, c, ""), s2);
  }

  /** A reader starts, misses, and has read the row; it has not filled the cache yet. */
  lemma ReaderIsSlow(ps: Parsers, tr: seq<System>, acts: seq<Action>, ns: string, key: string, rec: Parameter, c: Call)
    returns (tr': seq<System>, acts': seq<Action>, reader: nat)
    requires Run(ps, tr, acts) && c.fate == Acked && Lookup(Last(tr).w.rows, ns, key) == Some(rec)
    ensures acts <= acts' && Acknowledged(acts', |acts|)
    ensures Run(ps, tr', acts') && tr <= tr' && reader !in Last(tr).threads
    ensures
      var s, s' := Last(tr), Last(tr');
      && s'.threads == s.threads[reader := GetFill(ns, key, rec)]
      && s'.w == s.w.(cache := s.w.cache - {CacheKey(ns, key)})
  {
    assert tr != [];
    hide Run, Step, CacheKey, Lookup;
    tr', acts', reader := ReaderMisses(ps, tr, acts, ns, key, c);
    var s := Last(tr');
    GetReads(ps, s.w, ns, key, c, rec);
    var s' := System(s.w, s.threads[reader := GetFill(ns, key, rec)]);
    tr', acts' := Goes(ps, tr', acts', Advance(reader, c, ""), s');
    assert s'.threads == Last(tr).threads[reader := GetFill(ns, key, rec)];
  }

  /** What a solitary Revoke of a canonical row comes to. */
  lemma RevokeEffect(ps: Parsers, w: World, ns: string, key: string, rec: Parameter, actor: string, reason: string,
                     env: Env)
    requires WorldInv(ps, w) && StoreAnswers(env) && Lookup(w.rows, ns, key) == Some(rec)
    ensures
      var (w', t) := Solo(ps, w, RevLookup(ns, key, actor, reason), env, "");
      && t == RevokeOk(ns, key, rec.(state := Revoked))
      && rec.id in w'.rows && w'.rows[rec.id].state == Revoked
  {
    hide WorldInv, StoreAnswers, Solo, CacheDelete, RevokedEntry, Lookup, Genuine;
    LookupGenuine(ps, w, ns, key);
    RevokeAlone(ps, w, ns, key, actor, reason, env, "");
  }

  lemma AcknowledgedTwice(acts: seq<Action>, acts': seq<Action>, acts'': seq<Action>)
    requires acts <= acts' <= acts'' && Acknowledged(acts', |acts|) && Acknowledged(acts'', |acts'|)
    ensures acts <= acts'' && Acknowledged(acts'', |acts|)
  {
    assert forall i | |acts| <= i < |acts'| :: acts''[i] == acts'[i];
  }

  lemma FillAndReadAcknowledged(acts: seq<Action>, acts': seq<Action>, env: Env, filler: nat, ns: string, key: string,
                                late: nat)
    requires env(FillCache).fate == env(ReadCache).fate == Acked
    requires acts' == acts + [Advance(filler, env(FillCache), "")]
                      + [Spawn(late, GetCache(ns, key)), Advance(late, env(ReadCache), "")]
    ensures acts <= acts' && Acknowledged(acts', |acts|)
  {
  }

  /** A Revoke runs to its end, with every call acknowledged. */
  lemma RevokeRuns(ps: Parsers, tr: seq<System>, acts: seq<Action>, ns: string, key: string, rec: Parameter,
                   actor: string, reason: string, env: Env)
    returns (tr': seq<System>, acts': seq<Action>, revoker: nat)
    requires Run(ps, tr, acts) && AllAnswers(env) && Lookup(Last(tr).w.rows, ns, key) == Some(rec)
    ensures Run(ps, tr', acts') && tr <= tr' && acts <= acts' && Acknowledged(acts', |acts|)
    ensures Serves(tr, acts, tr', acts', revoker, RevLookup(ns, key, actor, reason), env)
    ensures
      var s, s' := Last(tr), Last(tr');
      && s'.threads == s.threads[revoker := RevokeOk(ns, key, rec.(state := Revoked))]
      && rec.id in s'.w.rows && s'.w.rows[rec.id].state == Revoked
  {
    assert tr != [] && Last(tr) == tr[|acts|] && StoreAnswers(env);
    InvariantHolds(ps, tr, acts, |acts|);
    hide Run, SystemInv, WorldInv, StoreAnswers, AllAnswers, Solo, Lookup, Serves;
    SoundWorld(ps, Last(tr));
    RevokeEffect(ps, Last(tr).w, ns, key, rec, actor, reason, env);
    var call := RevLookup(ns, key, actor, reason);
    tr', acts', revoker := CallIsARun(ps, tr, acts, call, env, "");
    ServedAcknowledged(tr, acts, tr', acts', revoker, call, env);
  }

  lemma ServedAcknowledged(tr: seq<System>, acts: seq<Action>, tr': seq<System>, acts': seq<Action>, tid: nat, t: Thread,
                           env: Env)
    requires tr != [] && Serves(tr, acts, tr', acts', tid, t, env) && AllAnswers(env)
    ensures tr <= tr' && acts <= acts' && Acknowledged(acts', |acts|) && tid !in Last(tr).threads
  {
    var started := acts + [Spawn(tid, t)];
    assert acts <= started <= acts' && started[|acts|] == Spawn(tid, t);
    var mid := tr + [System(Last(tr).w, Last(tr).threads[tid := t])];
    assert tr <= mid <= tr';
  }

  /** From every reachable state in which a key has a canonical row there is a run, with every call
      acknowledged, in which a Revoke of the key returns without error, and a Get that starts after that
      is answered with the revoked value as if it were still CANONICAL. */
  lemma RevokedValueComesBack(ps: Parsers, tr: seq<System>, acts: seq<Action>, ns: string, key: string, rec: Parameter,
                              actor: string, reason: string, env: Env)
    returns (tr': seq<System>, acts': seq<Action>, n: nat, revoker: nat, late: nat)
    requires Run(ps, tr, acts) && Lookup(Last(tr).w.rows, ns, key) == Some(rec)
    requires AllAnswers(env) && env(ReadCache).now < env(FillCache).now + TTL
    ensures Run(ps, tr', acts') && tr <= tr' && acts <= acts' && Acknowledged(acts', |acts|) && n < |tr'|
    ensures revoker in tr'[n].threads && tr'[n].threads[revoker].RevokeOk? && late !in tr'[n].threads
    ensures late in Last(tr').threads && Last(tr').threads[late] == GetOk(ns, key, rec) && rec.state == Canonical
    ensures rec.id in Last(tr').w.rows && Last(tr').w.rows[rec.id].state == Revoked
    ensures forall now :: Lingers(tr'[n], rec.id, now)
  {
    assert env(ReadStore).fate == env(FillCache).fate == env(ReadCache).fate == Acked;
    hide Run, WorldInv, AllAnswers, Lookup, CacheKey, Serves, Acknowledged;
    WorldOf(ps, tr, acts);
    LookupGenuine(ps, Last(tr).w, ns, key);
    var reader;
    var read, readActs;
    read, readActs, reader := ReaderIsSlow(ps, tr, acts, ns, key, rec, env(ReadStore));
    var gone, goneActs;
    gone, goneActs, revoker := RevokeRuns(ps, read, readActs, ns, key, rec, actor, reason, env);
    ServedAcknowledged(read, readActs, gone, goneActs, revoker, RevLookup(ns, key, actor, reason), env);
    n := |gone| - 1;
    FillersHold(GetFill(ns, key, rec));
    tr', acts', late := FilledThenHit(ps, gone, goneActs, reader, rec, env(FillCache), env(ReadCache));
    assert tr <= read <= gone <= tr' && tr'[n] == Last(gone);
    FillAndReadAcknowledged(goneActs, acts', env, reader, ns, key, late);
    AcknowledgedTwice(acts, readActs, goneActs);
    AcknowledgedTwice(acts, goneActs, acts');
    assert Holds(Last(gone).threads[reader], rec.id);
  }
}
