/** Replaying the ledger when calls overlap: exactly when it still gives the state of a row. */
module Replays {
  import opened Model
  import opened Tables
  import opened Protocol
  import opened Invariants
  import opened Alone
  import opened Interleavings
  import opened Sequential
  import opened Overlap

  // ---------- what the ledger alone says ----------

  /** The entry tells of a row's revocation. */
  predicate Retirement(e: Event, id: string) {
    e.parameterId == id && !IsOwn(e.kind)
  }

  function Retirements(log: Ledger, id: string): nat {
    if log == [] then 0
    else Retirements(log[..|log| - 1], id) + (if Retirement(log[|log| - 1], id) then 1 else 0)
  }

  /** No entry tells of the row's revocation before PROMOTED is in. */
  predicate InTime(log: Ledger, id: string) {
    log == [] ||
    (var init, e := log[..|log| - 1], log[|log| - 1];
     InTime(init, id) && (Retirement(e, id) ==> Progress(init, id) == Complete))
  }

  /** The state at the end of a row's own events. */
  function StateAt(stage: Stage): State
    requires stage != Broken
  {
    match stage
    case Blank => Unset
    case SubmittedOnly => Submitted
    case UpToValidated => Validating
    case UpToConsensus => ConsensusPending
    case Complete => Canonical
    case EndedRejected => Rejected
  }

  /** What a replay gives: the own events, and at most one revocation, after PROMOTED. */
  function Reading(stage: Stage, retirements: nat, inTime: bool): Option<State>
    requires stage != Broken
  {
    if !inTime || retirements > 1 then None
    else if retirements == 1 then Some(Revoked)
    else Some(StateAt(stage))
  }

  lemma NextReading(before: Stage, retirements: nat, inTime: bool, e: Event, own: bool)
    requires own == IsOwn(e.kind) && Labelled(e)
    requires before != Broken && (own ==> NextStage(before, e.kind) != Broken)
    requires inTime && retirements > 0 ==> before == Complete
    ensures
      var now := if own then NextStage(before, e.kind) else before;
      Reading(now, if own then retirements else retirements + 1, inTime && (own || before == Complete)) ==
      if Reading(before, retirements, inTime) == Some(e.from) && LegalEntry(e) then Some(e.to) else None
  {
    match e.kind
    case SubmittedEvent =>
    case ValidatedEvent =>
    case ConsensusReachedEvent =>
    case PromotedEvent =>
    case RejectedEvent =>
    case RevokedEvent =>
    case SupersededEvent =>
  }

  /** A ledger of labelled entries, with a row's own events in a legal order, replays to its reading. */
  lemma {:induction false} ReplayIsReading(log: Ledger, id: string)
    requires Progress(log, id) != Broken && forall e | e in log :: Labelled(e)
    ensures Replay(log, id) == Reading(Progress(log, id), Retirements(log, id), InTime(log, id))
    ensures InTime(log, id) && Retirements(log, id) > 0 ==> Progress(log, id) == Complete
  {
    if log != [] {
      var init, e := log[..|log| - 1], log[|log| - 1];
      ReplayIsReading(init, id);
      hide Reading, LegalEntry, Labelled;
      if e.parameterId == id {
        NextReading(Progress(init, id), Retirements(init, id), InTime(init, id), e, IsOwn(e.kind));
      }
      hide IsOwn;
    }
  }

  // ---------- in every run ----------

  /** The ledger has caught up with the row, and tells of its revocation just once, and not too early. */
  predicate CaughtUp(log: Ledger, id: string, s: State) {
    && Progress(log, id) != Broken
    && InTime(log, id)
    && Retirements(log, id) == (if s == Revoked then 1 else 0)
    && (s != Revoked ==> StateAt(Progress(log, id)) == s)
  }

  /** In every run: replaying the ledger gives a row's state if and only if the ledger has caught up with the row, with one
      entry for its revocation if it is REVOKED and none otherwise, after PROMOTED. */
  lemma ReplaysExactly(ps: Parsers, tr: seq<System>, acts: seq<Action>, n: nat, id: string)
    requires Run(ps, tr, acts) && n < |tr| && id in tr[n].w.rows
    ensures
      var w := tr[n].w;
      Replay(w.log, id) == Some(w.rows[id].state) <==> CaughtUp(w.log, id, w.rows[id].state)
  {
    var w := tr[n].w;
    InvariantHolds(ps, tr, acts, n);
    assert Progress(w.log, id) != Broken;
    forall e | e in w.log ensures Labelled(e) {
      assert EventSound(ps, w.rows, e);
    }
    hide Run, SystemInv, Labelled, Replay, InTime, Progress, Retirements;
    ReplayIsReading(w.log, id);
  }

  // ---------- two Revokes that overlap ----------

  lemma LookStep(ps: Parsers, w: World, ns: string, key: string, actor: string, reason: string, rec: Parameter, c: Call)
    requires c.fate == Acked && Lookup(w.rows, ns, key) == Some(rec)
    ensures Step(ps, w, RevLookup(ns, key, actor, reason), c, "") == (w, RevAct(MarkRevoked, ns, key, actor, reason, rec))
  {
    hide Lookup;
  }

  /** A Revoke starts and finds its row. */
  lemma RevokeLooks(ps: Parsers, tr: seq<System>, acts: seq<Action>, n: nat, ns: string, key: string, rec: Parameter,
                    actor: string, reason: string, env: Env)
    returns (tr': seq<System>, acts': seq<Action>, tid: nat)
    requires Run(ps, tr, acts) && env(RevokeLookup).fate == Acked && Lookup(Last(tr).w.rows, ns, key) == Some(rec)
    requires OnlyCalls(tr, acts, n, RevLookup(ns, key, actor, reason), env)
    ensures Run(ps, tr', acts') && tr <= tr' && acts <= acts' && tr' != []
    ensures OnlyCalls(tr', acts', n, RevLookup(ns, key, actor, reason), env)
    ensures tid !in Last(tr).threads
    ensures Last(tr') == System(Last(tr).w, Last(tr).threads[tid := RevAct(MarkRevoked, ns, key, actor, reason, rec)])
  {
    assert tr != [];
    var s := Last(tr);
    hide Run, Step, Lookup, Onward, OnlyCalls;
    tid := FreeThread(s);
    var t := RevLookup(ns, key, actor, reason);
    var started := System(s.w, s.threads[tid := t]);
    OneMoreOfThem(tr, acts, Spawn(tid, t), started, n, t, env);
    var mid, midActs := Goes(ps, tr, acts, Spawn(tid, t), started);
    LookStep(ps, s.w, ns, key, actor, reason, rec, env(RevokeLookup));
    tr', acts' := Advances(ps, mid, midActs, tid, env, "");
    OnwardOfThem(mid, midActs, tr', acts', tid, n, t, env);
    assert started.threads[tid := RevAct(MarkRevoked, ns, key, actor, reason, rec)] ==
           s.threads[tid := RevAct(MarkRevoked, ns, key, actor, reason, rec)];
  }

  /** A Revoke that has found its row ends: one entry more, whatever has become of the row. */
  lemma RevokeEnds(ps: Parsers, tr: seq<System>, acts: seq<Action>, tid: nat, n: nat, ns: string, key: string,
                   rec: Parameter, actor: string, reason: string, env: Env)
    returns (tr': seq<System>, acts': seq<Action>)
    requires Run(ps, tr, acts) && StoreAnswers(env) && rec.id in Last(tr).w.rows
    requires OnlyCalls(tr, acts, n, RevLookup(ns, key, actor, reason), env)
    requires tid in Last(tr).threads && Last(tr).threads[tid] == RevAct(MarkRevoked, ns, key, actor, reason, rec)
    ensures Run(ps, tr', acts') && tr <= tr' && acts <= acts' && tr' != []
    ensures OnlyCalls(tr', acts', n, RevLookup(ns, key, actor, reason), env)
    ensures Last(tr').threads == Last(tr).threads[tid := RevokeOk(ns, key, rec.(state := Revoked))]
    ensures rec.id in Last(tr').w.rows && Last(tr').w.rows[rec.id].state == Revoked
    ensures Retirements(Last(tr').w.log, rec.id) == Retirements(Last(tr).w.log, rec.id) + 1
  {
    assert tr != [];
    var w := Last(tr).w;
    hide Run, StoreAnswers, Solo, Onward, OnlyCalls, RevokedEntry, CacheDelete, Retirements;
    RevokesAlone(ps, w, ns, key, actor, reason, rec, env, "");
    tr', acts' := SoloIsARun(ps, tr, acts, tid, env, "");
    OnwardOfThem(tr, acts, tr', acts', tid, n, RevLookup(ns, key, actor, reason), env);
    OneMoreRetirement(w.log, RevokedEntry(rec, actor, reason, env(Revoke(LogRevoked)).now), rec.id);
  }

  lemma OneMoreRetirement(log: Ledger, e: Event, id: string)
    ensures Retirements(log + [e], id) == Retirements(log, id) + (if Retirement(e, id) then 1 else 0)
  {
    assert (log + [e])[..|log|] == log;
  }

  lemma BothLook(ps: Parsers, tr: seq<System>, acts: seq<Action>, ns: string, key: string, rec: Parameter,
                 actor: string, reason: string, env: Env)
    returns (tr': seq<System>, acts': seq<Action>, a: nat, b: nat)
    requires Run(ps, tr, acts) && env(RevokeLookup).fate == Acked && Lookup(Last(tr).w.rows, ns, key) == Some(rec)
    ensures Run(ps, tr', acts') && tr <= tr' && acts <= acts' && tr' != []
    ensures OnlyCalls(tr', acts', |acts|, RevLookup(ns, key, actor, reason), env)
    ensures a != b && a !in Last(tr).threads && b !in Last(tr).threads
    ensures
      var found := RevAct(MarkRevoked, ns, key, actor, reason, rec);
      Last(tr') == System(Last(tr).w, Last(tr).threads[a := found][b := found])
  {
    RunLength(ps, tr, acts);
    assert OnlyCalls(tr, acts, |acts|, RevLookup(ns, key, actor, reason), env);
    hide Run, Lookup, OnlyCalls;
    var mid, midActs;
    mid, midActs, a := RevokeLooks(ps, tr, acts, |acts|, ns, key, rec, actor, reason, env);
    tr', acts', b := RevokeLooks(ps, mid, midActs, |acts|, ns, key, rec, actor, reason, env);
    assert tr <= mid <= tr' && acts <= midActs <= acts';
  }

  lemma BothEnd(ps: Parsers, tr: seq<System>, acts: seq<Action>, a: nat, b: nat, n: nat, ns: string, key: string,
                rec: Parameter, actor: string, reason: string, env: Env)
    returns (tr': seq<System>, acts': seq<Action>)
    requires Run(ps, tr, acts) && StoreAnswers(env) && rec.id in Last(tr).w.rows && a != b
    requires OnlyCalls(tr, acts, n, RevLookup(ns, key, actor, reason), env)
    requires
      var found := RevAct(MarkRevoked, ns, key, actor, reason, rec);
      && a in Last(tr).threads && Last(tr).threads[a] == found
      && b in Last(tr).threads && Last(tr).threads[b] == found
    ensures Run(ps, tr', acts') && tr <= tr' && acts <= acts' && tr' != []
    ensures OnlyCalls(tr', acts', n, RevLookup(ns, key, actor, reason), env)
    ensures a in Last(tr').threads && Last(tr').threads[a].RevokeOk?
    ensures b in Last(tr').threads && Last(tr').threads[b].RevokeOk?
    ensures rec.id in Last(tr').w.rows && Last(tr').w.rows[rec.id].state == Revoked
    ensures Retirements(Last(tr').w.log, rec.id) > 1
  {
    assert tr != [];
    hide Run, StoreAnswers, OnlyCalls, Retirements;
    var mid, midActs := RevokeEnds(ps, tr, acts, a, n, ns, key, rec, actor, reason, env);
    tr', acts' := RevokeEnds(ps, mid, midActs, b, n, ns, key, rec, actor, reason, env);
    assert tr <= mid <= tr' && acts <= midActs <= acts';
  }

  /** From every reachable state in which a key has a canonical row: two Revokes of the key that both find the row, and
      nothing else. Both succeed, with no store call lost, and leave two entries for its one revocation, so that
      replaying the ledger does not give its state. */
  lemma TwoRevokesBreakReplay(ps: Parsers, tr: seq<System>, acts: seq<Action>, ns: string, key: string, rec: Parameter,
                              actor: string, reason: string, env: Env)
    returns (tr': seq<System>, acts': seq<Action>, a: nat, b: nat)
    requires Run(ps, tr, acts) && StoreAnswers(env) && Lookup(Last(tr).w.rows, ns, key) == Some(rec)
    ensures Run(ps, tr', acts') && tr <= tr' && acts <= acts' && tr' != []
    ensures OnlyCalls(tr', acts', |acts|, RevLookup(ns, key, actor, reason), env)
    ensures a != b && a !in Last(tr).threads && b !in Last(tr).threads
    ensures a in Last(tr').threads && Last(tr').threads[a].RevokeOk?
    ensures b in Last(tr').threads && Last(tr').threads[b].RevokeOk?
    ensures rec.id in Last(tr').w.rows && Last(tr').w.rows[rec.id].state == Revoked
    ensures Replay(Last(tr').w.log, rec.id) != Some(Revoked)
  {
    assert env(RevokeLookup).fate == Acked;
    hide Run, WorldInv, StoreAnswers, Lookup, OnlyCalls, Retirements, Replay, Genuine;
    WorldOf(ps, tr, acts);
    LookupGenuine(ps, Last(tr).w, ns, key);
    var mid, midActs;
    mid, midActs, a, b := BothLook(ps, tr, acts, ns, key, rec, actor, reason, env);
    tr', acts' := BothEnd(ps, mid, midActs, a, b, |acts|, ns, key, rec, actor, reason, env);
    assert tr <= mid <= tr' && acts <= midActs <= acts';
    TwiceRetired(ps, tr', acts', rec.id);
  }

  lemma TwiceRetired(ps: Parsers, tr: seq<System>, acts: seq<Action>, id: string)
    requires Run(ps, tr, acts) && id in Last(tr).w.rows && Last(tr).w.rows[id].state == Revoked
    requires Retirements(Last(tr).w.log, id) > 1
    ensures Replay(Last(tr).w.log, id) != Some(Revoked)
  {
    assert Last(tr) == tr[|acts|];
    ReplaysExactly(ps, tr, acts, |acts|, id);
    hide Run, Replay;
  }
}
