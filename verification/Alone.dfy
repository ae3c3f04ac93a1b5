/** Operations that run one at a time on a store that answers: what each amounts to.
    The cache may still lose calls. */
module Alone {
  import opened Model
  import opened Tables
  import opened Protocol
  import opened Invariants
  import Channels

  // ---------- the invariant survives any solitary run, whatever fails ----------

  lemma {:induction false} SoloKeeps(ps: Parsers, w: World, t: Thread, env: Env, newId: string)
    requires WorldInv(ps, w) && ThreadInv(ps, w, t)
    ensures var (w', t') := Solo(ps, w, t, env, newId); WorldInv(ps, w') && ThreadInv(ps, w', t')
    decreases Rank(t)
  {
    hide WorldInv, ThreadInv, Guarantee, Step;
    if !Finished(t) {
      EveryStepKeeps(ps, w, t, env(SiteOf(t)), newId);
      var (w', t') := Step(ps, w, t, env(SiteOf(t)), newId);
      SoloKeeps(ps, w', t', env, newId);
    }
  }

  /** One step of a solitary run. */
  lemma Unfold(ps: Parsers, w: World, t: Thread, env: Env, newId: string)
    requires !Finished(t)
    ensures
      var (w', t') := Step(ps, w, t, env(SiteOf(t)), newId);
      Solo(ps, w, t, env, newId) == Solo(ps, w', t', env, newId)
  {
    hide Step;
  }

  predicate IsCacheSite(site: Site) {
    site == Announce(Invalidate) || site == Fill || site == ReadCache || site == FillCache || site == Revoke(Forget)
  }

  /** Every call to the store is answered. */
  ghost predicate StoreAnswers(env: Env) {
    forall site :: !IsCacheSite(site) ==> env(site).fate == Acked
  }

  // ---------- the writes ----------

  /** A state write and the ledger entry that belongs to it. */
  function Pair(w: World, id: string, s: State, e: Event, now: int): World
    requires id in w.rows
  {
    w.(rows := w.rows[id := Moved(w.rows[id], s, now)], log := w.log + [e])
  }

  function Transition(w: World, goal: Goal, p: Parameter, env: Env): World
    requires p.id in w.rows
  {
    Pair(w, p.id, Target(goal), QuorumEntry(p, goal, env(Note(goal)).now), env(Mark(goal)).now)
  }

  /** The row is in, and the version it replaces is out. */
  function Announced(w: World, req: Request, p: Parameter, env: Env): World {
    var w1 := w.(rows := w.rows[p.id := p], log := w.log + [SubmittedEntry(req, p)]);
    if p.prev == "" || p.prev !in w1.rows then w1
    else
      var w2 := Pair(w1, p.prev, Revoked, SupersededEntry(p), env(Announce(Supersede)).now);
      w2.(cache := CacheDelete(w2.cache, req.namespace, req.key, env(Announce(Invalidate))))
  }

  /** The record Submit builds from what the store says. */
  ghost function Proposal(rows: Rows, req: Request, id: string, env: Env): Parameter {
    match Lookup(rows, req.namespace, req.key)
    case Some(existing) => NewParameter(req, existing.version + 1, existing.id, id, env(Create).now)
    case None => NewParameter(req, 1, "", id, env(Create).now)
  }

  predicate Fresh(w: World, id: string) {
    id != "" && id !in w.rows
  }

  // ---------- solitary steps ----------

  lemma LooksUpAlone(ps: Parsers, w: World, req: Request, env: Env, id: string)
    requires StoreAnswers(env)
    ensures
      var p := Proposal(w.rows, req, id, env);
      Solo(ps, w, SubLookup(req), env, id) == Solo(ps, w, SubCreate(req, p.version, p.prev), env, id)
  {
    hide Solo, Lookup;
    assert env(SubmitLookup).fate == Acked;
    Unfold(ps, w, SubLookup(req), env, id);
  }

  lemma CreatesAlone(ps: Parsers, w: World, req: Request, p: Parameter, env: Env)
    requires StoreAnswers(env) && InsertAdmits(w.rows, p)
    requires p == NewParameter(req, p.version, p.prev, p.id, env(Create).now)
    ensures
      Solo(ps, w, SubCreate(req, p.version, p.prev), env, p.id) ==
      Solo(ps, w.(rows := w.rows[p.id := p]), SubAnnounce(LogSubmitted, req, p), env, p.id)
  {
    hide Solo, InsertAdmits;
    assert env(Create).fate == Acked;
    Unfold(ps, w, SubCreate(req, p.version, p.prev), env, p.id);
  }

  lemma LogsSubmissionAlone(ps: Parsers, w: World, req: Request, p: Parameter, env: Env)
    requires StoreAnswers(env) && p.id in w.rows
    ensures
      var w' := w.(log := w.log + [SubmittedEntry(req, p)]);
      Solo(ps, w, SubAnnounce(LogSubmitted, req, p), env, p.id) ==
      Solo(ps, w', if p.prev != "" then SubAnnounce(Supersede, req, p) else SubMark(Validate, p), env, p.id)
  {
    hide Solo, SubmittedEntry;
    assert env(Announce(LogSubmitted)).fate == Acked;
    Unfold(ps, w, SubAnnounce(LogSubmitted, req, p), env, p.id);
  }

  lemma RetiresAlone(ps: Parsers, w: World, req: Request, p: Parameter, env: Env)
    requires StoreAnswers(env) && p.prev in w.rows
    ensures
      var w' := Pair(w, p.prev, Revoked, SupersededEntry(p), env(Announce(Supersede)).now);
      Solo(ps, w, SubAnnounce(Supersede, req, p), env, p.id) ==
      Solo(ps, w'.(cache := CacheDelete(w.cache, req.namespace, req.key, env(Announce(Invalidate)))),
           SubMark(Validate, p), env, p.id)
  {
    hide Solo, SupersededEntry, CacheDelete;
    assert env(Announce(Supersede)).fate == env(Announce(LogSuperseded)).fate == Acked;
    Unfold(ps, w, SubAnnounce(Supersede, req, p), env, p.id);
    var w1 := w.(rows := w.rows[p.prev := Moved(w.rows[p.prev], Revoked, env(Announce(Supersede)).now)]);
    Unfold(ps, w1, SubAnnounce(LogSuperseded, req, p), env, p.id);
    Unfold(ps, w1.(log := w.log + [SupersededEntry(p)]), SubAnnounce(Invalidate, req, p), env, p.id);
  }

  lemma AnnouncesAlone(ps: Parsers, w: World, req: Request, env: Env, id: string)
    requires WorldInv(ps, w) && StoreAnswers(env) && Fresh(w, id)
    ensures
      var p := Proposal(w.rows, req, id, env);
      && (p.prev != "" ==> p.prev in w.rows)
      && Solo(ps, w, SubLookup(req), env, id) == Solo(ps, Announced(w, req, p, env), SubMark(Validate, p), env, id)
  {
    hide WorldInv, Solo, StoreAnswers, SubmittedEntry, SupersededEntry, CacheDelete;
    LookupGenuine(ps, w, req.namespace, req.key);
    var p := Proposal(w.rows, req, id, env);
    assert p.id == id && InsertAdmits(w.rows, p) && p == NewParameter(req, p.version, p.prev, p.id, env(Create).now);
    LooksUpAlone(ps, w, req, env, id);
    hide Lookup, Proposal, InsertAdmits, NewParameter, Genuine;
    CreatesAlone(ps, w, req, p, env);
    var w0 := w.(rows := w.rows[p.id := p]);
    LogsSubmissionAlone(ps, w0, req, p, env);
    if p.prev != "" {
      RetiresAlone(ps, w0.(log := w.log + [SubmittedEntry(req, p)]), req, p, env);
    }
  }

  lemma TransitsAlone(ps: Parsers, w: World, goal: Goal, p: Parameter, env: Env)
    requires StoreAnswers(env) && p.id in w.rows
    requires IndexAdmits(w.rows, p.id, w.rows[p.id].(state := Target(goal)))
    ensures
      Solo(ps, w, SubMark(goal, p), env, p.id) ==
      Solo(ps, Transition(w, goal, p, env), NoteNext(ps, goal, p), env, p.id)
  {
    hide Solo, QuorumEntry, NoteNext;
    assert env(Mark(goal)).fate == env(Note(goal)).fate == Acked;
    Unfold(ps, w, SubMark(goal, p), env, p.id);
    var w1 := w.(rows := w.rows[p.id := Moved(w.rows[p.id], Target(goal), env(Mark(goal)).now)]);
    Unfold(ps, w1, SubNote(goal, p), env, p.id);
  }

  /** The cached and broadcast end of a successful Submit. */
  function Finale(w: World, row: Parameter, env: Env): World {
    w.(cache := CacheSet(w.cache, row, env(Fill)),
       channel := Channels.TrySend(w.channel, BroadcastEntry(row, env(Broadcast).now)))
  }

  lemma CastsAlone(ps: Parsers, w: World, p: Parameter, row: Parameter, env: Env)
    ensures
      Solo(ps, w, SubCast(p, row), env, p.id) ==
      (w.(channel := Channels.TrySend(w.channel, BroadcastEntry(row, env(Broadcast).now))), SubmitOk(p, row))
  {
    hide BroadcastEntry, Channels.TrySend;
    Unfold(ps, w, SubCast(p, row), env, p.id);
  }

  lemma FillsAlone(ps: Parsers, w: World, p: Parameter, row: Parameter, env: Env)
    ensures
      Solo(ps, w, SubFill(p, row), env, p.id) == (Finale(w, row, env), SubmitOk(p, row))
  {
    hide BroadcastEntry, Channels.TrySend, CacheSet, Solo;
    Unfold(ps, w, SubFill(p, row), env, p.id);
    CastsAlone(ps, w.(cache := CacheSet(w.cache, row, env(Fill))), p, row, env);
  }

  lemma EndsAlone(ps: Parsers, w: World, p: Parameter, env: Env)
    requires StoreAnswers(env) && p.id in w.rows && w.rows[p.id].state == Canonical
    ensures
      Solo(ps, w, SubRefresh(p), env, p.id) == (Finale(w, w.rows[p.id], env), SubmitOk(p, w.rows[p.id]))
  {
    assert env(Refresh).fate == Acked;
    hide Finale, Solo, StoreAnswers;
    Unfold(ps, w, SubRefresh(p), env, p.id);
    FillsAlone(ps, w, p, w.rows[p.id], env);
  }

  // ---------- the whole Submit ----------

  ghost predicate NoCanonical(rows: Rows, ns: string, key: string) {
    forall id | id in rows :: !IsCanonicalFor(rows[id], ns, key)
  }

  lemma AnnouncedFrees(ps: Parsers, w: World, req: Request, env: Env, id: string)
    requires WorldInv(ps, w) && Fresh(w, id)
    ensures
      var p := Proposal(w.rows, req, id, env);
      var w' := Announced(w, req, p, env);
      && id in w'.rows && w'.rows[id] == p
      && NoCanonical(w'.rows, req.namespace, req.key)
  {
    LookupGenuine(ps, w, req.namespace, req.key);
    var p := Proposal(w.rows, req, id, env);
    var w' := Announced(w, req, p, env);
    match Lookup(w.rows, req.namespace, req.key)
    case Some(existing) =>
      hide Lookup, SubmittedEntry, SupersededEntry, CacheDelete;
      forall i | i in w'.rows ensures !IsCanonicalFor(w'.rows[i], req.namespace, req.key) {
        if i != id && i != existing.id {
          assert w'.rows[i] == w.rows[i];
        }
      }
    case None =>
      LookupMisses(w.rows, req.namespace, req.key);
      hide Lookup, SubmittedEntry, WorldInv;
  }

  lemma TransitionKeepsFree(w: World, goal: Goal, p: Parameter, env: Env, ns: string, key: string)
    requires p.id in w.rows && NoCanonical(w.rows, ns, key) && goal != Promote
    ensures NoCanonical(Transition(w, goal, p, env).rows, ns, key)
  {
    hide QuorumEntry;
  }

  /** The world once a valid value has been promoted. */
  function Promoting(w: World, p: Parameter, env: Env): World
    requires p.id in w.rows
  {
    Transition(Transition(Transition(w, Validate, p, env), Agree, p, env), Promote, p, env)
  }

  function Rejecting(w: World, p: Parameter, env: Env): World
    requires p.id in w.rows
  {
    Transition(Transition(w, Validate, p, env), Reject, p, env)
  }

  function PromotedRow(p: Parameter, env: Env): Parameter {
    p.(state := Canonical, updatedAt := env(Mark(Promote)).now)
  }

  /** With the index out of its way, a valid row is promoted. */
  lemma PromotesAlone(ps: Parsers, w: World, p: Parameter, env: Env)
    requires StoreAnswers(env) && ValidParameter(ps, p) && p.id in w.rows && w.rows[p.id] == p
    requires NoCanonical(w.rows, p.namespace, p.key)
    ensures
      Solo(ps, w, SubMark(Validate, p), env, p.id) ==
      (Finale(Promoting(w, p, env), PromotedRow(p, env), env), SubmitOk(p, PromotedRow(p, env)))
  {
    hide StoreAnswers, ValidParameter, Solo, QuorumEntry, BroadcastEntry;
    TransitsAlone(ps, w, Validate, p, env);
    var w2 := Transition(w, Validate, p, env);
    TransitionKeepsFree(w, Validate, p, env, p.namespace, p.key);
    TransitsAlone(ps, w2, Agree, p, env);
    var w3 := Transition(w2, Agree, p, env);
    TransitionKeepsFree(w2, Agree, p, env, p.namespace, p.key);
    TransitsAlone(ps, w3, Promote, p, env);
    EndsAlone(ps, Transition(w3, Promote, p, env), p, env);
  }

  /** A solitary Submit of a valid value is promoted: the index is never in its way. */
  lemma ValidSubmitAlone(ps: Parsers, w: World, req: Request, env: Env, id: string)
    requires WorldInv(ps, w) && StoreAnswers(env) && Fresh(w, id) && ValidValue(ps, req.value, req.valueType)
    ensures
      var p := Proposal(w.rows, req, id, env);
      var w1 := Announced(w, req, p, env);
      && id in w1.rows && w1.rows[id] == p
      && Solo(ps, w, SubLookup(req), env, id) ==
         (Finale(Promoting(w1, p, env), PromotedRow(p, env), env), SubmitOk(p, PromotedRow(p, env)))
  {
    hide WorldInv, StoreAnswers, Lookup, Announced, Solo, QuorumEntry, BroadcastEntry;
    AnnouncesAlone(ps, w, req, env, id);
    AnnouncedFrees(ps, w, req, env, id);
    var p := Proposal(w.rows, req, id, env);
    assert p.id == id && p.namespace == req.namespace && p.key == req.key && ValidParameter(ps, p);
    PromotesAlone(ps, Announced(w, req, p, env), p, env);
  }

  /** A solitary Submit of an invalid value is rejected, after the old version is gone. */
  lemma InvalidSubmitAlone(ps: Parsers, w: World, req: Request, env: Env, id: string)
    requires WorldInv(ps, w) && StoreAnswers(env) && Fresh(w, id) && !ValidValue(ps, req.value, req.valueType)
    ensures
      var p := Proposal(w.rows, req, id, env);
      var w1 := Announced(w, req, p, env);
      && id in w1.rows && w1.rows[id] == p
      && Solo(ps, w, SubLookup(req), env, id) == (Rejecting(w1, p, env), Failed(Invalid))
  {
    AnnouncesAlone(ps, w, req, env, id);
    AnnouncedFrees(ps, w, req, env, id);
    hide WorldInv, StoreAnswers, Lookup, Announced, QuorumEntry;
    var p := Proposal(w.rows, req, id, env);
    assert p.id == id && !ValidParameter(ps, p);
    var w1 := Announced(w, req, p, env);
    TransitsAlone(ps, w1, Validate, p, env);
    TransitsAlone(ps, Transition(w1, Validate, p, env), Reject, p, env);
  }

  // ---------- Get and Revoke ----------

  ghost function GetOutcome(w: World, ns: string, key: string, env: Env): (World, Thread) {
    match CacheGet(w.cache, ns, key, env(ReadCache))
    case Some(rec) => (w, GetOk(ns, key, rec))
    case None =>
      match Lookup(w.rows, ns, key)
      case Some(rec) => (w.(cache := CacheSet(w.cache, rec, env(FillCache))), GetOk(ns, key, rec))
      case None => (w, Failed(NotFound))
  }

  lemma GetAlone(ps: Parsers, w: World, ns: string, key: string, env: Env, id: string)
    requires StoreAnswers(env)
    ensures Solo(ps, w, GetCache(ns, key), env, id) == GetOutcome(w, ns, key, env)
  {
    hide Lookup, CacheGet, CacheSet;
    assert env(ReadStore).fate == Acked;
    Unfold(ps, w, GetCache(ns, key), env, id);
    if CacheGet(w.cache, ns, key, env(ReadCache)).None? {
      Unfold(ps, w, GetStore(ns, key), env, id);
      match Lookup(w.rows, ns, key)
      case Some(rec) => Unfold(ps, w, GetFill(ns, key, rec), env, id);
      case None =>
    }
  }

  ghost function RevokeOutcome(w: World, ns: string, key: string, actor: string, reason: string, env: Env): (World, Thread)
  {
    match Lookup(w.rows, ns, key)
    case None => (w, Failed(NotFound))
    case Some(rec) =>
      if rec.id !in w.rows then (w, Failed(Io))
      else
        var e := RevokedEntry(rec, actor, reason, env(Revoke(LogRevoked)).now);
        var w1 := Pair(w, rec.id, Revoked, e, env(Revoke(MarkRevoked)).now);
        (w1.(cache := CacheDelete(w.cache, ns, key, env(Revoke(Forget)))),
         RevokeOk(ns, key, rec.(state := Revoked)))
  }

  lemma RevokeAlone(ps: Parsers, w: World, ns: string, key: string, actor: string, reason: string, env: Env, id: string)
    requires WorldInv(ps, w) && StoreAnswers(env)
    ensures Solo(ps, w, RevLookup(ns, key, actor, reason), env, id) == RevokeOutcome(w, ns, key, actor, reason, env)
  {
    hide WorldInv, Solo, RevokedEntry, CacheDelete;
    LookupGenuine(ps, w, ns, key);
    assert env(RevokeLookup).fate == Acked;
    Unfold(ps, w, RevLookup(ns, key, actor, reason), env, id);
    match Lookup(w.rows, ns, key)
    case None => FinishedAlone(ps, w, Failed(NotFound), env, id);
    case Some(rec) =>
      hide StoreAnswers, Lookup, Genuine;
      RevokesAlone(ps, w, ns, key, actor, reason, rec, env, id);
  }

  lemma FinishedAlone(ps: Parsers, w: World, t: Thread, env: Env, id: string)
    requires Finished(t)
    ensures Solo(ps, w, t, env, id) == (w, t)
  {
  }

  lemma RevokesAlone(ps: Parsers, w: World, ns: string, key: string, actor: string, reason: string, rec: Parameter,
                     env: Env, id: string)
    requires StoreAnswers(env) && rec.id in w.rows
    ensures
      var e := RevokedEntry(rec, actor, reason, env(Revoke(LogRevoked)).now);
      var w1 := Pair(w, rec.id, Revoked, e, env(Revoke(MarkRevoked)).now);
      Solo(ps, w, RevAct(MarkRevoked, ns, key, actor, reason, rec), env, id) ==
      (w1.(cache := CacheDelete(w.cache, ns, key, env(Revoke(Forget)))), RevokeOk(ns, key, rec.(state := Revoked)))
  {
    hide RevokedEntry, CacheDelete;
    assert env(Revoke(MarkRevoked)).fate == env(Revoke(LogRevoked)).fate == Acked;
    Unfold(ps, w, RevAct(MarkRevoked, ns, key, actor, reason, rec), env, id);
    var w1 := w.(rows := w.rows[rec.id := Moved(w.rows[rec.id], Revoked, env(Revoke(MarkRevoked)).now)]);
    Unfold(ps, w1, RevAct(LogRevoked, ns, key, actor, reason, rec), env, id);
    var w2 := w1.(log := w.log + [RevokedEntry(rec, actor, reason, env(Revoke(LogRevoked)).now)]);
    Unfold(ps, w2, RevAct(Forget, ns, key, actor, reason, rec), env, id);
  }
}
