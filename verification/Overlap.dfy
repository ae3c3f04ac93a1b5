/** How the solitary and the interleaved views meet: solitary histories are among the
    interleavings, and what they promise is lost once two Submits overlap. */
module Overlap {
  import opened Model
  import opened Tables
  import opened Protocol
  import opened Invariants
  import opened Alone
  import opened Interleavings
  import opened Sequential

  ghost function Last(tr: seq<System>): System
    requires tr != []
  {
    tr[|tr| - 1]
  }

  lemma Extend(ps: Parsers, tr: seq<System>, acts: seq<Action>, a: Action)
    requires Run(ps, tr, acts) && Possible(Last(tr), a)
    ensures Run(ps, tr + [Apply(ps, Last(tr), a)], acts + [a])
  {
    hide Apply, Possible;
    var tr', acts' := tr + [Apply(ps, Last(tr), a)], acts + [a];
    forall i | 0 <= i < |acts'| ensures Possible(tr'[i], acts'[i]) && tr'[i + 1] == Apply(ps, tr'[i], acts'[i]) {
      if i < |acts| {
        assert tr'[i] == tr[i] && tr'[i + 1] == tr[i + 1] && acts'[i] == acts[i];
      } else {
        assert tr'[i] == Last(tr);
      }
    }
  }

  /** One action more. */
  lemma Goes(ps: Parsers, tr: seq<System>, acts: seq<Action>, a: Action, s: System)
    returns (tr': seq<System>, acts': seq<Action>)
    requires Run(ps, tr, acts) && Possible(Last(tr), a) && s == Apply(ps, Last(tr), a)
    ensures Run(ps, tr', acts') && tr' == tr + [s] && acts' == acts + [a] && Last(tr') == s
  {
    hide Run, Possible, Apply;
    Extend(ps, tr, acts, a);
    tr', acts' := tr + [s], acts + [a];
  }

  // ---------- runs in which one thread moves ----------

  /** The second run continues the first: only this thread moves, and env decides every call. */
  ghost predicate Onward(tr: seq<System>, acts: seq<Action>, tr': seq<System>, acts': seq<Action>, tid: nat, env: Env) {
    && tr <= tr' && acts <= acts' && |tr| == |acts| + 1 && |tr'| == |acts'| + 1
    && forall i | |acts| <= i < |acts'| ::
         && acts'[i].Advance? && acts'[i].tid == tid
         && tid in tr'[i].threads && !Finished(tr'[i].threads[tid])
         && acts'[i].c == env(SiteOf(tr'[i].threads[tid]))
  }

  /** The second run continues the first by this call, with nothing in between. */
  ghost predicate Serves(tr: seq<System>, acts: seq<Action>, tr': seq<System>, acts': seq<Action>, tid: nat, t: Thread,
                         env: Env)
    requires tr != []
  {
    && tid !in Last(tr).threads
    && Onward(tr + [System(Last(tr).w, Last(tr).threads[tid := t])], acts + [Spawn(tid, t)], tr', acts', tid, env)
  }

  lemma OnwardTwice(tr: seq<System>, acts: seq<Action>, tr': seq<System>, acts': seq<Action>,
                    tr'': seq<System>, acts'': seq<Action>, tid: nat, env: Env)
    requires Onward(tr, acts, tr', acts', tid, env) && Onward(tr', acts', tr'', acts'', tid, env)
    ensures Onward(tr, acts, tr'', acts'', tid, env)
  {
    forall i | |acts| <= i < |acts''|
      ensures acts''[i].Advance? && acts''[i].tid == tid
      ensures tid in tr''[i].threads && !Finished(tr''[i].threads[tid])
      ensures acts''[i].c == env(SiteOf(tr''[i].threads[tid]))
    {
      if i < |acts'| {
        assert acts''[i] == acts'[i] && tr''[i] == tr'[i];
      }
    }
  }

  lemma RunLength(ps: Parsers, tr: seq<System>, acts: seq<Action>)
    requires Run(ps, tr, acts)
    ensures |tr| == |acts| + 1
  {
  }

  lemma WorldOf(ps: Parsers, tr: seq<System>, acts: seq<Action>)
    requires Run(ps, tr, acts)
    ensures tr != [] && WorldInv(ps, Last(tr).w)
  {
    InvariantHolds(ps, tr, acts, |acts|);
  }

  /** One step of the thread. */
  lemma Advances(ps: Parsers, tr: seq<System>, acts: seq<Action>, tid: nat, env: Env, newId: string)
    returns (tr': seq<System>, acts': seq<Action>)
    requires Run(ps, tr, acts) && tid in Last(tr).threads && !Finished(Last(tr).threads[tid])
    ensures Run(ps, tr', acts') && Onward(tr, acts, tr', acts', tid, env) && tr' != []
    ensures
      var s := Last(tr);
      var (w', t') := Step(ps, s.w, s.threads[tid], env(SiteOf(s.threads[tid])), newId);
      Last(tr') == System(w', s.threads[tid := t'])
  {
    RunLength(ps, tr, acts);
    hide Run, Step;
    var a := Advance(tid, env(SiteOf(Last(tr).threads[tid])), newId);
    tr', acts' := Goes(ps, tr, acts, a, Apply(ps, Last(tr), a));
  }

  /** A thread can run to its end with nothing in between: that is its solitary run. */
  lemma {:induction false} SoloIsARun(ps: Parsers, tr: seq<System>, acts: seq<Action>, tid: nat, env: Env, newId: string)
    returns (tr': seq<System>, acts': seq<Action>)
    requires Run(ps, tr, acts) && tid in Last(tr).threads
    ensures Run(ps, tr', acts') && Onward(tr, acts, tr', acts', tid, env) && tr' != []
    ensures
      var (w, t) := Solo(ps, Last(tr).w, Last(tr).threads[tid], env, newId);
      Last(tr') == System(w, Last(tr).threads[tid := t])
    decreases Rank(Last(tr).threads[tid])
  {
    RunLength(ps, tr, acts);
    hide Run, Step;
    var s := Last(tr);
    var t := s.threads[tid];
    if Finished(t) {
      assert s.threads[tid := t] == s.threads;
      tr', acts' := tr, acts;
    } else {
      Unfold(ps, s.w, t, env, newId);
      var mid, midActs := Advances(ps, tr, acts, tid, env, newId);
      var s' := Last(mid);
      hide Onward;
      tr', acts' := SoloIsARun(ps, mid, midActs, tid, env, newId);
      OnwardTwice(tr, acts, mid, midActs, tr', acts', tid, env);
      var final := Solo(ps, s.w, t, env, newId).1;
      assert s.threads[tid := s'.threads[tid]][tid := final] == s.threads[tid := final];
    }
  }

  /** A thread id no thread has. */
  lemma FreeThread(s: System) returns (tid: nat)
    ensures tid !in s.threads
  {
    tid := Bound(s.threads.Keys);
  }

  lemma {:induction false} Bound(ids: set<nat>) returns (n: nat)
    ensures forall i | i in ids :: i < n
    decreases ids
  {
    n := 0;
    if ids != {} {
      var i :| i in ids;
      var m := Bound(ids - {i});
      n := if m > i then m else i + 1;
      assert forall k | k in ids :: k == i || k in ids - {i};
    }
  }

  /** The threads of a history's operations have ended with the answers of the history. */
  ghost predicate Answered(ps: Parsers, ops: seq<Op>, threads: map<nat, Thread>, tids: seq<nat>) {
    && |tids| == |ops|
    && (forall i | 0 <= i < |ops| && !ops[i].Expire? ::
          tids[i] in threads && threads[tids[i]] == Do(ps, Exec(ps, ops[..i]), ops[i]).1)
    && (forall i, j | 0 <= i < j < |ops| && !ops[i].Expire? && !ops[j].Expire? :: tids[i] != tids[j])
  }

  lemma OneMoreAnswered(ps: Parsers, ops: seq<Op>, threads: map<nat, Thread>, tids: seq<nat>, op: Op, tid: nat, t: Thread)
    requires Answered(ps, ops, threads, tids)
    requires !op.Expire? ==> tid !in threads && t == Do(ps, Exec(ps, ops), op).1
    ensures Answered(ps, ops + [op], if op.Expire? then threads else threads[tid := t], tids + [tid])
  {
    hide Do, Exec;
    var ops', tids' := ops + [op], tids + [tid];
    var threads' := if op.Expire? then threads else threads[tid := t];
    assert ops'[..|ops|] == ops;
    forall i | 0 <= i < |ops'| && !ops'[i].Expire?
      ensures tids'[i] in threads' && threads'[tids'[i]] == Do(ps, Exec(ps, ops'[..i]), ops'[i]).1
    {
      if i < |ops| {
        assert ops'[i] == ops[i] && tids'[i] == tids[i] && ops'[..i] == ops[..i];
      }
    }
    forall i, j | 0 <= i < j < |ops'| && !ops'[i].Expire? && !ops'[j].Expire? ensures tids'[i] != tids'[j] {
      assert ops'[i] == ops[i] && tids'[i] == tids[i];
      if j < |ops| {
        assert ops'[j] == ops[j] && tids'[j] == tids[j];
      }
    }
  }

  /** Every sequential history is one of the interleavings: each operation has a thread of its own, which
      ends with its answer, and the run ends in the same world. */
  lemma {:induction false} HistoriesAreRuns(ps: Parsers, ops: seq<Op>)
    returns (tr: seq<System>, acts: seq<Action>, tids: seq<nat>)
    ensures Run(ps, tr, acts) && tr != []
    ensures Last(tr).w == Exec(ps, ops) && Answered(ps, ops, Last(tr).threads, tids)
  {
    if ops == [] {
      tr, acts, tids := [BOOT], [], [];
    } else {
      var init, op := ops[..|ops| - 1], ops[|ops| - 1];
      assert ops == init + [op];
      tr, acts, tids := HistoriesAreRuns(ps, init);
      hide Run, Do, Answered;
      var threads := Last(tr).threads;
      var tid;
      tr, acts, tid := OpIsARun(ps, tr, acts, op);
      OneMoreAnswered(ps, init, threads, tids, op, tid, Do(ps, Exec(ps, init), op).1);
      tids := tids + [tid];
    }
  }

  lemma OpIsARun(ps: Parsers, tr: seq<System>, acts: seq<Action>, op: Op)
    returns (tr': seq<System>, acts': seq<Action>, tid: nat)
    requires Run(ps, tr, acts)
    ensures Run(ps, tr', acts') && tr' != []
    ensures
      var (w, t) := Do(ps, Last(tr).w, op);
      && Last(tr').w == w
      && (!op.Expire? ==> tid !in Last(tr).threads)
      && Last(tr').threads == if op.Expire? then Last(tr).threads else Last(tr).threads[tid := t]
  {
    assert tr != [];
    tid := 0;
    hide Run, Solo, Onward;
    match op
    case Submit(req, id, env) => tr', acts', tid := CallIsARun(ps, tr, acts, SubLookup(req), env, id);
    case Get(ns, key, env) => tr', acts', tid := CallIsARun(ps, tr, acts, GetCache(ns, key), env, "");
    case Revoking(ns, key, actor, reason, env) =>
      tr', acts', tid := CallIsARun(ps, tr, acts, RevLookup(ns, key, actor, reason), env, "");
    case Expire(entry) =>
      Extend(ps, tr, acts, Evict(entry));
      tr', acts' := tr + [Apply(ps, Last(tr), Evict(entry))], acts + [Evict(entry)];
  }

  /** A call can start and run to its end with nothing in between. */
  lemma CallIsARun(ps: Parsers, tr: seq<System>, acts: seq<Action>, t: Thread, env: Env, newId: string)
    returns (tr': seq<System>, acts': seq<Action>, tid: nat)
    requires Run(ps, tr, acts) && Initial(t)
    ensures Run(ps, tr', acts') && tr' != [] && Serves(tr, acts, tr', acts', tid, t, env)
    ensures
      var (w, final) := Solo(ps, Last(tr).w, t, env, newId);
      Last(tr') == System(w, Last(tr).threads[tid := final])
  {
    assert tr != [];
    hide Run, Solo, Onward;
    var s := Last(tr);
    tid := FreeThread(s);
    var started := System(s.w, s.threads[tid := t]);
    var mid, midActs := Goes(ps, tr, acts, Spawn(tid, t), started);
    tr', acts' := SoloIsARun(ps, mid, midActs, tid, env, newId);
    var final := Solo(ps, s.w, t, env, newId).1;
    assert started.threads[tid := final] == s.threads[tid := final];
  }

  // ---------- two Submits that overlap ----------

  /** A Submit that has looked before another one promoted: it creates its row, retires once more the
      version it saw, is validated, reaches agreement, and is refused promotion. */
  lemma LateSubmitIsRefused(ps: Parsers, w: World, req: Request, version: int, prev: string, env: Env, id: string,
                            other: string)
    requires StoreAnswers(env) && Fresh(w, id) && ValidValue(ps, req.value, req.valueType)
    requires prev != "" ==> prev in w.rows && prev != other
    requires other in w.rows && IsCanonicalFor(w.rows[other], req.namespace, req.key)
    ensures
      var (w', t) := Solo(ps, w, SubCreate(req, version, prev), env, id);
      && t == Failed(Io)
      && id in w'.rows && w'.rows[id].state == ConsensusPending
      && other in w'.rows && w'.rows[other] == w.rows[other]
      && (prev != "" ==> prev in w'.rows && w'.rows[prev].state == Revoked)
  {
    hide Solo, StoreAnswers, QuorumEntry, SubmittedEntry, SupersededEntry, CacheDelete, ValidValue;
    var p := NewParameter(req, version, prev, id, env(Create).now);
    CreatesAlone(ps, w, req, p, env);
    var w0 := w.(rows := w.rows[id := p]);
    LogsSubmissionAlone(ps, w0, req, p, env);
    var w1 := w0.(log := w.log + [SubmittedEntry(req, p)]);
    if prev != "" {
      RetiresAlone(ps, w1, req, p, env);
      w1 := Pair(w1, prev, Revoked, SupersededEntry(p), env(Announce(Supersede)).now);
      w1 := w1.(cache := CacheDelete(w1.cache, req.namespace, req.key, env(Announce(Invalidate))));
    }
    assert w1.rows[other] == w.rows[other];
    EvaluatedTooLate(ps, w1, p, env, other);
  }

  /** The evaluation of a valid row whose key has become canonical elsewhere. */
  lemma EvaluatedTooLate(ps: Parsers, w: World, p: Parameter, env: Env, other: string)
    requires StoreAnswers(env) && ValidParameter(ps, p) && p.id in w.rows && w.rows[p.id] == p
    requires other in w.rows && other != p.id && IsCanonicalFor(w.rows[other], p.namespace, p.key)
    ensures
      var (w', t) := Solo(ps, w, SubMark(Validate, p), env, p.id);
      && t == Failed(Io)
      && p.id in w'.rows && w'.rows[p.id].state == ConsensusPending
      && (forall i | i in w.rows && i != p.id :: i in w'.rows && w'.rows[i] == w.rows[i])
  {
    hide Solo, StoreAnswers, QuorumEntry, ValidParameter;
    TransitsAlone(ps, w, Validate, p, env);
    var w2 := Transition(w, Validate, p, env);
    TransitsAlone(ps, w2, Agree, p, env);
    var w3 := Transition(w2, Agree, p, env);
    assert w3.rows[other] == w.rows[other] && w3.rows[p.id].state == ConsensusPending;
    Refused(ps, w3, p, env, other);
  }

  lemma Refused(ps: Parsers, w: World, p: Parameter, env: Env, other: string)
    requires p.id in w.rows && SameFacts(p, w.rows[p.id]) && other in w.rows && other != p.id
    requires IsCanonicalFor(w.rows[other], p.namespace, p.key)
    ensures Solo(ps, w, SubMark(Promote, p), env, p.id) == (w, Failed(Io))
  {
    Unfold(ps, w, SubMark(Promote, p), env, p.id);
  }

  /** From action n on nothing happens but calls that start as t, and env decides their store, cache and channel calls. */
  ghost predicate OnlyCalls(tr: seq<System>, acts: seq<Action>, n: nat, t: Thread, env: Env) {
    && |tr| == |acts| + 1 && n <= |acts|
    && forall i | n <= i < |acts| ::
         match acts[i]
         case Spawn(_, t') => t' == t
         case Advance(tid, c, _) =>
           tid in tr[i].threads && !Finished(tr[i].threads[tid]) && c == env(SiteOf(tr[i].threads[tid]))
         case _ => false
  }

  lemma OneMoreOfThem(tr: seq<System>, acts: seq<Action>, a: Action, s: System, n: nat, t: Thread, env: Env)
    requires OnlyCalls(tr, acts, n, t, env) && Possible(Last(tr), a)
    requires
      match a
      case Spawn(_, t') => t' == t
      case Advance(tid, c, _) => c == env(SiteOf(Last(tr).threads[tid]))
      case _ => false
    ensures OnlyCalls(tr + [s], acts + [a], n, t, env)
  {
    var tr', acts' := tr + [s], acts + [a];
    assert forall i | 0 <= i < |acts| :: acts'[i] == acts[i] && tr'[i] == tr[i];
    assert tr'[|acts|] == Last(tr);
  }

  lemma OnwardOfThem(tr: seq<System>, acts: seq<Action>, tr': seq<System>, acts': seq<Action>, tid: nat, n: nat,
                     t: Thread, env: Env)
    requires OnlyCalls(tr, acts, n, t, env) && Onward(tr, acts, tr', acts', tid, env)
    ensures OnlyCalls(tr', acts', n, t, env) && tr <= tr' && acts <= acts'
  {
    assert forall i | 0 <= i < |acts| :: acts'[i] == acts[i] && tr'[i] == tr[i];
  }

  /** One Submit starts and looks, and then a second one starts. */
  lemma TwoSubmitsStart(ps: Parsers, req: Request, env: Env, first: string)
    returns (tr: seq<System>, acts: seq<Action>)
    requires env(SubmitLookup).fate == Acked
    ensures Run(ps, tr, acts) && OnlyCalls(tr, acts, 0, SubLookup(req), env) && tr != []
    ensures Last(tr) == System(EMPTY, map[0 := SubCreate(req, 1, ""), 1 := SubLookup(req)])
  {
    StartsRun(ps);
    hide Run, Lookup;
    var s1 := System(EMPTY, map[0 := SubLookup(req)]);
    assert Apply(ps, BOOT, Spawn(0, SubLookup(req))) == s1;
    tr, acts := Goes(ps, [BOOT], [], Spawn(0, SubLookup(req)), s1);
    OneMoreOfThem([BOOT], [], Spawn(0, SubLookup(req)), s1, 0, SubLookup(req), env);
    assert tr == [BOOT] + [s1] && acts == [] + [Spawn(0, SubLookup(req))];

    var look := Advance(0, env(SubmitLookup), first);
    var s2 := System(EMPTY, map[0 := SubCreate(req, 1, "")]);
    NothingFound(req.namespace, req.key);
    assert Apply(ps, s1, look) == s2;
    OneMoreOfThem(tr, acts, look, s2, 0, SubLookup(req), env);
    tr, acts := Goes(ps, tr, acts, look, s2);

    var s3 := System(EMPTY, map[0 := SubCreate(req, 1, ""), 1 := SubLookup(req)]);
    assert Apply(ps, s2, Spawn(1, SubLookup(req))) == s3;
    OneMoreOfThem(tr, acts, Spawn(1, SubLookup(req)), s3, 0, SubLookup(req), env);
    tr, acts := Goes(ps, tr, acts, Spawn(1, SubLookup(req)), s3);
  }

  /** So what holds of every history fails for overlapping calls, with no store call lost: two valid
      Submits of one key and nothing else. The first has looked, and not yet written, when the second
      has ended; the first then returns an error and its row stays CONSENSUS_PENDING. */
  lemma OverlappingSubmitsLoseOne(ps: Parsers, req: Request, env: Env, first: string, second: string)
    returns (tr: seq<System>, acts: seq<Action>, n: nat)
    requires ValidValue(ps, req.value, req.valueType) && StoreAnswers(env)
    requires first != "" && second != "" && first != second
    ensures Run(ps, tr, acts) && tr != [] && OnlyCalls(tr, acts, 0, SubLookup(req), env)
    ensures forall i | 0 <= i < |acts| && acts[i].Advance? && !IsCacheSite(SiteOf(tr[i].threads[acts[i].tid])) ::
              acts[i].c.fate == Acked
    ensures n < |tr| && tr[n].threads.Keys == {0, 1}
    ensures tr[n].threads[0] == SubCreate(req, 1, "") && tr[n].threads[1].SubmitOk?
    ensures
      var s := Last(tr);
      && 0 in s.threads && s.threads[0] == Failed(Io)
      && 1 in s.threads && s.threads[1].SubmitOk?
      && first in s.w.rows && s.w.rows[first].state == ConsensusPending
      && second in s.w.rows && s.w.rows[second].state == Canonical
  {
    assert env(SubmitLookup).fate == Acked;
    hide Run, StoreAnswers, OnlyCalls, ValidValue;
    var begun, begunActs := TwoSubmitsStart(ps, req, env, first);
    var mid, midActs := SecondWins(ps, begun, begunActs, req, env, second);
    n := |mid| - 1;
    tr, acts := FirstLoses(ps, mid, midActs, req, env, first, second);
    assert tr[n] == Last(mid);
    NoStoreCallLost(tr, acts, 0, SubLookup(req), env);
  }

  lemma SecondWins(ps: Parsers, tr: seq<System>, acts: seq<Action>, req: Request, env: Env, id: string)
    returns (tr': seq<System>, acts': seq<Action>)
    requires Run(ps, tr, acts) && OnlyCalls(tr, acts, 0, SubLookup(req), env)
    requires Last(tr) == System(EMPTY, map[0 := SubCreate(req, 1, ""), 1 := SubLookup(req)])
    requires ValidValue(ps, req.value, req.valueType) && StoreAnswers(env) && id != ""
    ensures Run(ps, tr', acts') && tr' != [] && OnlyCalls(tr', acts', 0, SubLookup(req), env)
    ensures Last(tr').threads.Keys == {0, 1} && Last(tr').threads[0] == SubCreate(req, 1, "")
    ensures Last(tr').threads[1].SubmitOk?
    ensures Last(tr').w.rows.Keys == {id} && IsCanonicalFor(Last(tr').w.rows[id], req.namespace, req.key)
  {
    assert tr != [];
    hide Run, Solo, StoreAnswers, Onward, OnlyCalls, ValidValue;
    WinnerIsCanonical(ps, req, env, id);
    tr', acts' := SoloIsARun(ps, tr, acts, 1, env, id);
    OnwardOfThem(tr, acts, tr', acts', 1, 0, SubLookup(req), env);
  }

  lemma FirstLoses(ps: Parsers, tr: seq<System>, acts: seq<Action>, req: Request, env: Env, id: string, other: string)
    returns (tr': seq<System>, acts': seq<Action>)
    requires Run(ps, tr, acts) && OnlyCalls(tr, acts, 0, SubLookup(req), env)
    requires 0 in Last(tr).threads && Last(tr).threads[0] == SubCreate(req, 1, "")
    requires ValidValue(ps, req.value, req.valueType) && StoreAnswers(env) && Fresh(Last(tr).w, id)
    requires other in Last(tr).w.rows && IsCanonicalFor(Last(tr).w.rows[other], req.namespace, req.key)
    ensures Run(ps, tr', acts') && tr <= tr' && tr' != [] && OnlyCalls(tr', acts', 0, SubLookup(req), env)
    ensures Last(tr').threads == Last(tr).threads[0 := Failed(Io)]
    ensures id in Last(tr').w.rows && Last(tr').w.rows[id].state == ConsensusPending
    ensures other in Last(tr').w.rows && Last(tr').w.rows[other] == Last(tr).w.rows[other]
  {
    assert tr != [];
    hide Run, Solo, StoreAnswers, Onward, OnlyCalls, ValidValue;
    LateSubmitIsRefused(ps, Last(tr).w, req, 1, "", env, id, other);
    tr', acts' := SoloIsARun(ps, tr, acts, 0, env, id);
    OnwardOfThem(tr, acts, tr', acts', 0, 0, SubLookup(req), env);
  }

  lemma NoStoreCallLost(tr: seq<System>, acts: seq<Action>, n: nat, t: Thread, env: Env)
    requires OnlyCalls(tr, acts, n, t, env) && StoreAnswers(env)
    ensures |tr| == |acts| + 1
    ensures forall i | n <= i < |acts| && acts[i].Advance? ::
              && acts[i].tid in tr[i].threads && !Finished(tr[i].threads[acts[i].tid])
              && (!IsCacheSite(SiteOf(tr[i].threads[acts[i].tid])) ==> acts[i].c.fate == Acked)
  {
  }

  lemma StartsRun(ps: Parsers)
    ensures Run(ps, [BOOT], [])
  {
  }

  lemma NothingFound(ns: string, key: string)
    ensures Lookup(map[], ns, key) == None
  {
  }

  lemma WinnerIsCanonical(ps: Parsers, req: Request, env: Env, id: string)
    requires ValidValue(ps, req.value, req.valueType) && StoreAnswers(env) && id != ""
    ensures
      var (w, t) := Solo(ps, EMPTY, SubLookup(req), env, id);
      t.SubmitOk? && w.rows.Keys == {id} && IsCanonicalFor(w.rows[id], req.namespace, req.key)
  {
    hide Solo, StoreAnswers, Lookup, Announced, Promoting;
    EmptyIsQuiet(ps);
    NothingFound(req.namespace, req.key);
    ValidSubmitAlone(ps, EMPTY, req, env, id);
    SubmitRows(ps, EMPTY, req, env, id);
  }
}
