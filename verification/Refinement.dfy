/** The cached service against a plain map of current values. */
module Refinement {
  import opened Model
  import opened Tables
  import opened CacheKeys
  import opened Protocol
  import opened Invariants
  import opened Alone
  import opened Sequential
  import opened Reads

  // ---------- the plain map ----------

  type Key = (string, string)

  /** The current value of each key, and nothing else: no table, ledger or cache. */
  type Current = map<Key, Parameter>

  datatype Outcome = Returned(rec: Parameter) | Refused(err: Error)

  function OutcomeOf(t: Thread): Outcome
    requires Finished(t)
  {
    match t
    case SubmitOk(_, result) => Returned(result)
    case GetOk(_, _, rec) => Returned(rec)
    case RevokeOk(_, _, result) => Returned(result)
    case Failed(err) => Refused(err)
  }

  function Find(cur: Current, k: Key): Option<Parameter> {
    if k in cur then Some(cur[k]) else None
  }

  /** A valid Submit replaces, a rejected Submit or a Revoke clears, everything else reads. */
  function Abstract(ps: Parsers, cur: Current, op: Op): (Current, Outcome) {
    match op
    case Submit(req, id, env) =>
      var k := (req.namespace, req.key);
      var p := if k in cur then NewParameter(req, cur[k].version + 1, cur[k].id, id, env(Create).now)
               else NewParameter(req, 1, "", id, env(Create).now);
      if ValidParameter(ps, p) then (cur[k := PromotedRow(p, env)], Returned(PromotedRow(p, env)))
      else (cur - {k}, Refused(Invalid))
    case Get(ns, key, _) =>
      if (ns, key) in cur then (cur, Returned(cur[(ns, key)])) else (cur, Refused(NotFound))
    case Revoking(ns, key, _, _, _) =>
      if (ns, key) in cur then (cur - {(ns, key)}, Returned(cur[(ns, key)].(state := Revoked)))
      else (cur, Refused(NotFound))
    case Expire(_) => (cur, Refused(NotFound))
  }

  function AbstractExec(ps: Parsers, ops: seq<Op>): Current {
    if ops == [] then map[] else Abstract(ps, AbstractExec(ps, ops[..|ops| - 1]), ops[|ops| - 1]).0
  }

  // ---------- the table agrees with the map ----------

  ghost predicate Agrees(rows: Rows, cur: Current) {
    forall ns, key :: Lookup(rows, ns, key) == Find(cur, (ns, key))
  }

  /** What one write of a row does to every lookup. */
  lemma LookupAfter(rows: Rows, id: string, row: Parameter, ns: string, key: string)
    requires UniqueCanonical(rows) && UniqueCanonical(rows[id := row])
    ensures
      Lookup(rows[id := row], ns, key) ==
      if IsCanonicalFor(row, ns, key) then Some(row)
      else if id in rows && IsCanonicalFor(rows[id], ns, key) then None
      else Lookup(rows, ns, key)
  {
    var rows' := rows[id := row];
    if IsCanonicalFor(row, ns, key) {
      hide Lookup;
      LookupFinds(rows', id);
    } else if i :| i in rows' && IsCanonicalFor(rows'[i], ns, key) {
      hide Lookup;
      LookupFinds(rows', i);
      LookupFinds(rows, i);
    } else {
      assert forall i | i in rows && i != id :: rows'[i] == rows[i];
    }
  }

  lemma ProposalsAgree(ps: Parsers, w: World, cur: Current, req: Request, env: Env, id: string)
    requires Agrees(w.rows, cur)
    ensures
      var p := Proposal(w.rows, req, id, env);
      var k := (req.namespace, req.key);
      Abstract(ps, cur, Submit(req, id, env)) ==
      if ValidParameter(ps, p) then (cur[k := PromotedRow(p, env)], Returned(PromotedRow(p, env)))
      else (cur - {k}, Refused(Invalid))
  {
    assert Lookup(w.rows, req.namespace, req.key) == Find(cur, (req.namespace, req.key));
    hide Lookup, Agrees;
  }

  lemma SubmitAnswers(ps: Parsers, w: World, req: Request, env: Env, id: string)
    requires WorldInv(ps, w) && Fresh(w, id) && StoreAnswers(env)
    ensures
      var p := Proposal(w.rows, req, id, env);
      OutcomeOf(Solo(ps, w, SubLookup(req), env, id).1) ==
      if ValidParameter(ps, p) then Returned(PromotedRow(p, env)) else Refused(Invalid)
  {
    hide WorldInv, StoreAnswers, Lookup, Solo, Announced, Promoting, Rejecting, Finale;
    if ValidValue(ps, req.value, req.valueType) {
      ValidSubmitAlone(ps, w, req, env, id);
    } else {
      InvalidSubmitAlone(ps, w, req, env, id);
    }
  }

  /** The map after a solitary Submit. */
  lemma SubmitAgrees(ps: Parsers, w: World, cur: Current, req: Request, env: Env, id: string)
    requires WorldInv(ps, w) && Agrees(w.rows, cur) && Fresh(w, id) && StoreAnswers(env)
    ensures Agrees(Solo(ps, w, SubLookup(req), env, id).0.rows, Abstract(ps, cur, Submit(req, id, env)).0)
  {
    hide WorldInv, StoreAnswers, Lookup, Solo, UniqueCanonical, Abstract;
    LookupGenuine(ps, w, req.namespace, req.key);
    var p := Proposal(w.rows, req, id, env);
    var w' := Solo(ps, w, SubLookup(req), env, id).0;
    var cur' := Abstract(ps, cur, Submit(req, id, env)).0;
    SubmitRows(ps, w, req, env, id);
    ProposalsAgree(ps, w, cur, req, env, id);
    SoloKeeps(ps, w, SubLookup(req), env, id);
    UniqueOf(ps, w);
    UniqueOf(ps, w');
    var final := FinalRow(ps, p, env);
    hide Genuine, NewParameter, ValidParameter;
    forall ns, key ensures Lookup(w'.rows, ns, key) == Find(cur', (ns, key)) {
      assert Lookup(w.rows, ns, key) == Find(cur, (ns, key));
      LookupAfterSubmit(w.rows, p, final, env(Announce(Supersede)).now, ns, key);
    }
  }

  lemma UniqueOf(ps: Parsers, w: World)
    requires WorldInv(ps, w)
    ensures UniqueCanonical(w.rows)
  {
  }

  lemma LookupAfterSubmit(rows: Rows, p: Parameter, final: Parameter, now: int, ns: string, key: string)
    requires UniqueCanonical(rows) && p.id !in rows && SameFacts(p, final)
    requires final.state == Canonical || final.state == Rejected
    requires
      match Lookup(rows, p.namespace, p.key)
      case Some(existing) => p.prev == existing.id && p.prev != "" && p.prev in rows && rows[p.prev] == existing
      case None => p.prev == ""
    ensures
      var rows' := rows[p.id := final];
      var rows'' := if p.prev == "" then rows' else rows'[p.prev := Moved(rows[p.prev], Revoked, now)];
      UniqueCanonical(rows'') ==>
        Lookup(rows'', ns, key) ==
        if (ns, key) == (p.namespace, p.key) then (if final.state == Canonical then Some(final) else None)
        else Lookup(rows, ns, key)
  {
    if p.prev == "" {
      hide Lookup;
      if UniqueCanonical(rows[p.id := final]) {
        LookupAfter(rows, p.id, final, ns, key);
      }
    } else {
      TopIsCanonical(rows, p.namespace, p.key);
      hide Lookup;
      var gone := Moved(rows[p.prev], Revoked, now);
      var retired := rows[p.prev := gone];
      assert IndexAdmits(rows, p.prev, gone);
      IndexKeeps(rows, p.prev, gone);
      LookupAfter(rows, p.prev, gone, ns, key);
      assert rows[p.id := final][p.prev := gone] == retired[p.id := final];
      if UniqueCanonical(retired[p.id := final]) {
        LookupAfter(retired, p.id, final, ns, key);
      }
    }
  }

  lemma TopIsCanonical(rows: Rows, ns: string, key: string)
    requires Lookup(rows, ns, key).Some?
    ensures IsCanonicalFor(Lookup(rows, ns, key).value, ns, key)
  {
  }

  lemma RevokeAgrees(ps: Parsers, w: World, cur: Current, ns: string, key: string, actor: string, reason: string, env: Env)
    requires WorldInv(ps, w) && Agrees(w.rows, cur) && StoreAnswers(env)
    ensures
      var (w', t) := Solo(ps, w, RevLookup(ns, key, actor, reason), env, "");
      var (cur', outcome) := Abstract(ps, cur, Revoking(ns, key, actor, reason, env));
      Agrees(w'.rows, cur') && OutcomeOf(t) == outcome
  {
    hide WorldInv, StoreAnswers, Lookup, Solo, UniqueCanonical, CacheDelete, RevokedEntry;
    LookupGenuine(ps, w, ns, key);
    RevokeAlone(ps, w, ns, key, actor, reason, env, "");
    assert Lookup(w.rows, ns, key) == Find(cur, (ns, key));
    UniqueOf(ps, w);
    match Lookup(w.rows, ns, key)
    case None =>
    case Some(rec) =>
      var gone := Moved(rec, Revoked, env(Revoke(MarkRevoked)).now);
      IndexKeeps(w.rows, rec.id, gone);
      var cur' := Abstract(ps, cur, Revoking(ns, key, actor, reason, env)).0;
      forall ns', key' ensures Lookup(w.rows[rec.id := gone], ns', key') == Find(cur', (ns', key')) {
        assert Lookup(w.rows, ns', key') == Find(cur, (ns', key'));
        LookupAfter(w.rows, rec.id, gone, ns', key');
      }
  }

  /** Every operation of a history moves the table as it moves the map, and Submit and Revoke
      answer alike, whatever the cache does. */
  lemma OpAgrees(ps: Parsers, w: World, cur: Current, op: Op)
    requires WorldInv(ps, w) && Agrees(w.rows, cur) && Proper(w, op)
    ensures
      var (w', t) := Do(ps, w, op);
      var (cur', outcome) := Abstract(ps, cur, op);
      Agrees(w'.rows, cur') && (op.Submit? || op.Revoking? ==> OutcomeOf(t) == outcome)
  {
    hide WorldInv, Agrees, Solo, StoreAnswers;
    match op
    case Submit(req, id, env) =>
      SubmitAgrees(ps, w, cur, req, env, id);
      SubmitAnswers(ps, w, req, env, id);
      ProposalsAgree(ps, w, cur, req, env, id);
      hide Abstract, Proposal, Lookup;
    case Revoking(ns, key, actor, reason, env) => RevokeAgrees(ps, w, cur, ns, key, actor, reason, env);
    case Get(ns, key, env) =>
      GetAlone(ps, w, ns, key, env, "");
      hide CacheGet, CacheSet, Lookup;
    case Expire(_) =>
  }

  lemma {:induction false} HistoriesAgree(ps: Parsers, ops: seq<Op>)
    requires History(ps, ops)
    ensures Agrees(Exec(ps, ops).rows, AbstractExec(ps, ops))
  {
    hide Agrees, Do, Abstract, Proper, Quiet;
    if ops == [] {
      EmptyAgrees();
    } else {
      var init := ops[..|ops| - 1];
      HistoriesAgree(ps, init);
      HistoriesAreQuiet(ps, init);
      QuietIsSound(ps, Exec(ps, init));
      OpAgrees(ps, Exec(ps, init), AbstractExec(ps, init), ops[|ops| - 1]);
    }
  }

  lemma QuietIsSound(ps: Parsers, w: World)
    requires Quiet(ps, w)
    ensures WorldInv(ps, w)
  {
  }

  lemma EmptyAgrees()
    ensures Agrees(map[], map[])
  {
  }

  // ---------- version numbers ----------

  /** Successful Submits of a key since it last had no canonical row, read off the history alone. */
  function Streak(ps: Parsers, ops: seq<Op>, k: Key): nat {
    if ops == [] then 0
    else
      var before := Streak(ps, ops[..|ops| - 1], k);
      match ops[|ops| - 1]
      case Submit(req, _, _) =>
        if (req.namespace, req.key) != k then before
        else if ValidValue(ps, req.value, req.valueType) then before + 1
        else 0
      case Revoking(ns, key, _, _, _) => if (ns, key) == k then 0 else before
      case Get(_, _, _) => before
      case Expire(_) => before
  }

  lemma {:induction false} StreakOfMap(ps: Parsers, ops: seq<Op>, k: Key)
    ensures
      match Find(AbstractExec(ps, ops), k)
      case Some(p) => p.version == Streak(ps, ops, k) > 0
      case None => Streak(ps, ops, k) == 0
  {
    if ops != [] {
      StreakOfMap(ps, ops[..|ops| - 1], k);
    }
  }

  /** A key has a canonical row exactly when its streak is positive, and the streak is its version. */
  lemma VersionCountsTheStreak(ps: Parsers, ops: seq<Op>, ns: string, key: string)
    requires History(ps, ops)
    ensures
      match Lookup(Exec(ps, ops).rows, ns, key)
      case Some(p) => p.version == Streak(ps, ops, (ns, key)) > 0
      case None => Streak(ps, ops, (ns, key)) == 0
  {
    HistoriesAgree(ps, ops);
    StreakOfMap(ps, ops, (ns, key));
    hide Exec, AbstractExec, Streak, History;
    assert Lookup(Exec(ps, ops).rows, ns, key) == Find(AbstractExec(ps, ops), (ns, key));
  }

  // ---------- the cache ----------

  /** Every entry, live or not, is the canonical row of its key. */
  predicate EntryCurrent(rows: Rows, k: string, entry: Entry) {
    IsCanonicalRow(rows, entry.record) && k == CacheKey(entry.record.namespace, entry.record.key)
  }

  ghost predicate Coherent(w: World) {
    forall k | k in w.cache :: EntryCurrent(w.rows, k, w.cache[k])
  }

  lemma EvaluationLeavesTheCache(w: World, p: Parameter, env: Env)
    requires p.id in w.rows
    ensures Promoting(w, p, env).cache == Rejecting(w, p, env).cache == w.cache
  {
    hide QuorumEntry;
  }

  lemma AnnouncedCache(w: World, req: Request, p: Parameter, env: Env)
    requires p.prev != "" ==> p.prev in w.rows
    ensures
      Announced(w, req, p, env).cache ==
      if p.prev == "" then w.cache else CacheDelete(w.cache, req.namespace, req.key, env(Announce(Invalidate)))
  {
    hide SubmittedEntry, SupersededEntry, CacheDelete;
  }

  /** What a solitary Submit does to the cache. */
  lemma SubmitCache(ps: Parsers, w: World, req: Request, env: Env, id: string)
    requires WorldInv(ps, w) && Fresh(w, id) && StoreAnswers(env)
    ensures
      var p := Proposal(w.rows, req, id, env);
      var dropped := if p.prev == "" then w.cache
                     else CacheDelete(w.cache, req.namespace, req.key, env(Announce(Invalidate)));
      Solo(ps, w, SubLookup(req), env, id).0.cache ==
      if ValidParameter(ps, p) then CacheSet(dropped, PromotedRow(p, env), env(Fill)) else dropped
  {
    hide WorldInv, StoreAnswers, Lookup, Solo, CacheDelete, CacheSet, BroadcastEntry, Announced, Promoting, Rejecting;
    LookupGenuine(ps, w, req.namespace, req.key);
    var p := Proposal(w.rows, req, id, env);
    assert p.prev != "" ==> p.prev in w.rows;
    assert ValidParameter(ps, p) <==> ValidValue(ps, req.value, req.valueType);
    hide Proposal, Genuine, ValidValue, ValidParameter;
    AnnouncedCache(w, req, p, env);
    if ValidValue(ps, req.value, req.valueType) {
      ValidSubmitAlone(ps, w, req, env, id);
    } else {
      InvalidSubmitAlone(ps, w, req, env, id);
    }
    EvaluationLeavesTheCache(Announced(w, req, p, env), p, env);
  }

  /** The cache answers too. */
  ghost predicate AllAnswers(env: Env) {
    forall site :: env(site).fate == Acked
  }

  ghost predicate Faultless(op: Op) {
    match op
    case Submit(_, _, env) => AllAnswers(env)
    case Get(_, _, env) => AllAnswers(env)
    case Revoking(_, _, _, _, env) => AllAnswers(env)
    case Expire(_) => true
  }

  /** The invalidation drops the one entry that the superseded row leaves stale. */
  lemma DroppedIsCoherent(ps: Parsers, w: World, p: Parameter, env: Env, dropped: map<string, Entry>, k: string)
    requires Coherent(w) && p.id !in w.rows && k in dropped
    requires p.prev != "" ==> p.prev in w.rows && w.rows[p.prev].namespace == p.namespace && w.rows[p.prev].key == p.key
    requires dropped == if p.prev == "" then w.cache else w.cache - {CacheKey(p.namespace, p.key)}
    ensures EntryCurrent(RowsAfterSubmit(ps, w.rows, p, env), k, dropped[k])
  {
    hide CacheKey, FinalRow;
    assert EntryCurrent(w.rows, k, w.cache[k]);
  }

  lemma ReplacedCoherent(ps: Parsers, w: World, p: Parameter, env: Env, c: Call, w': World)
    requires Coherent(w) && p.id !in w.rows
    requires p.prev != "" ==> p.prev in w.rows && w.rows[p.prev].namespace == p.namespace && w.rows[p.prev].key == p.key
    requires w'.rows == RowsAfterSubmit(ps, w.rows, p, env)
    requires
      var dropped := if p.prev == "" then w.cache else w.cache - {CacheKey(p.namespace, p.key)};
      w'.cache == if ValidParameter(ps, p) then CacheSet(dropped, PromotedRow(p, env), c) else dropped
    ensures Coherent(w')
  {
    var dropped := if p.prev == "" then w.cache else w.cache - {CacheKey(p.namespace, p.key)};
    var final := FinalRow(ps, p, env);
    assert w'.rows[p.id] == final && (ValidParameter(ps, p) ==> final == PromotedRow(p, env));
    hide ValidParameter, CacheKey, FinalRow, RowsAfterSubmit;
    forall k | k in w'.cache ensures EntryCurrent(w'.rows, k, w'.cache[k]) {
      if k in dropped && w'.cache[k] == dropped[k] {
        hide PromotedRow, CacheSet, EntryCurrent;
        DroppedIsCoherent(ps, w, p, env, dropped, k);
      }
    }
  }

  lemma SubmitCoherent(ps: Parsers, w: World, req: Request, env: Env, id: string)
    requires WorldInv(ps, w) && Coherent(w) && Fresh(w, id) && AllAnswers(env)
    ensures Coherent(Solo(ps, w, SubLookup(req), env, id).0)
  {
    assert StoreAnswers(env);
    assert env(Announce(Invalidate)).fate == Acked;
    hide WorldInv, StoreAnswers, AllAnswers, Lookup, Solo, CacheKey, CacheSet, RowsAfterSubmit, PromotedRow, Coherent;
    LookupGenuine(ps, w, req.namespace, req.key);
    SubmitRows(ps, w, req, env, id);
    SubmitCache(ps, w, req, env, id);
    var p := Proposal(w.rows, req, id, env);
    assert p.id == id && p.namespace == req.namespace && p.key == req.key;
    hide ValidParameter, Genuine;
    ReplacedCoherent(ps, w, p, env, env(Fill), Solo(ps, w, SubLookup(req), env, id).0);
  }

  /** Dropping the entry of a row's key leaves nothing stale when the row is revoked. */
  lemma RetiredCoherent(w: World, w': World, id: string, now: int)
    requires Coherent(w) && id in w.rows
    requires w'.rows == w.rows[id := Moved(w.rows[id], Revoked, now)]
    requires w'.cache == w.cache - {CacheKey(w.rows[id].namespace, w.rows[id].key)}
    ensures Coherent(w')
  {
    hide CacheKey;
    forall k | k in w'.cache ensures EntryCurrent(w'.rows, k, w'.cache[k]) {
      assert EntryCurrent(w.rows, k, w.cache[k]);
    }
  }

  lemma RevokeCoherent(ps: Parsers, w: World, ns: string, key: string, actor: string, reason: string, env: Env)
    requires WorldInv(ps, w) && Coherent(w) && AllAnswers(env)
    ensures Coherent(Solo(ps, w, RevLookup(ns, key, actor, reason), env, "").0)
  {
    assert StoreAnswers(env);
    assert env(Revoke(Forget)).fate == Acked;
    hide WorldInv, StoreAnswers, AllAnswers, Lookup, Solo, CacheKey, RevokedEntry, Coherent, Genuine;
    LookupGenuine(ps, w, ns, key);
    RevokeAlone(ps, w, ns, key, actor, reason, env, "");
    var w' := Solo(ps, w, RevLookup(ns, key, actor, reason), env, "").0;
    match Lookup(w.rows, ns, key)
    case None =>
    case Some(rec) => RetiredCoherent(w, w', rec.id, env(Revoke(MarkRevoked)).now);
  }

  /** What the cached service knows between faultless operations. */
  ghost predicate Refines(ps: Parsers, w: World, cur: Current) {
    WorldInv(ps, w) && Agrees(w.rows, cur) && Coherent(w) && ColonFreeRows(w.rows)
  }

  predicate ColonFreeOp(op: Op) {
    match op
    case Submit(req, _, _) => ColonFree(req.namespace)
    case Get(ns, _, _) => ColonFree(ns)
    case Revoking(ns, _, _, _, _) => ColonFree(ns)
    case Expire(_) => true
  }

  /** A hit is the canonical row of the key asked for. */
  lemma HitIsCurrent(ps: Parsers, w: World, cur: Current, ns: string, key: string, c: Call)
    requires Refines(ps, w, cur) && ColonFree(ns)
    ensures
      match CacheGet(w.cache, ns, key, c)
      case Some(rec) => Find(cur, (ns, key)) == Some(rec)
      case None => true
  {
    var k := CacheKey(ns, key);
    if CacheGet(w.cache, ns, key, c).Some? {
      var rec := w.cache[k].record;
      assert EntryCurrent(w.rows, k, w.cache[k]);
      UniqueOf(ps, w);
      hide WorldInv, CacheKey, UniqueCanonical, ColonFree, Lookup;
      InjectiveOnColonFree(rec.namespace, rec.key, ns, key);
      LookupFinds(w.rows, rec.id);
      assert Lookup(w.rows, ns, key) == Find(cur, (ns, key));
    }
  }

  lemma FilledCoherent(w: World, rec: Parameter, c: Call)
    requires Coherent(w) && IsCanonicalRow(w.rows, rec)
    ensures Coherent(w.(cache := CacheSet(w.cache, rec, c)))
  {
    hide CacheKey, IsCanonicalRow;
    var w' := w.(cache := CacheSet(w.cache, rec, c));
    forall k | k in w'.cache ensures EntryCurrent(w'.rows, k, w'.cache[k]) {
      assert k in w.cache && w'.cache[k] == w.cache[k] ==> EntryCurrent(w.rows, k, w.cache[k]);
    }
  }

  lemma OutcomeIsCoherent(ps: Parsers, w: World, ns: string, key: string, env: Env)
    requires WorldInv(ps, w) && Coherent(w)
    ensures
      var w' := GetOutcome(w, ns, key, env).0;
      Coherent(w') && w'.rows == w.rows
  {
    hide WorldInv, CacheGet, CacheSet, Coherent;
    if Lookup(w.rows, ns, key).Some? {
      LookupGenuine(ps, w, ns, key);
      TopIsCanonical(w.rows, ns, key);
      hide Lookup, Genuine;
      FilledCoherent(w, Lookup(w.rows, ns, key).value, env(FillCache));
    }
  }

  lemma GetAnswers(ps: Parsers, w: World, cur: Current, ns: string, key: string, env: Env)
    requires Refines(ps, w, cur) && ColonFree(ns)
    ensures
      var t := GetOutcome(w, ns, key, env).1;
      Finished(t) && OutcomeOf(t) == Abstract(ps, cur, Get(ns, key, env)).1
  {
    assert Lookup(w.rows, ns, key) == Find(cur, (ns, key));
    hide Refines, ColonFree, CacheGet, CacheSet, Lookup;
    HitIsCurrent(ps, w, cur, ns, key, env(ReadCache));
  }

  lemma GetRefines(ps: Parsers, w: World, cur: Current, ns: string, key: string, env: Env)
    requires Refines(ps, w, cur) && ColonFree(ns) && AllAnswers(env)
    ensures
      var (w', t) := Solo(ps, w, GetCache(ns, key), env, "");
      var (cur', outcome) := Abstract(ps, cur, Get(ns, key, env));
      Refines(ps, w', cur') && OutcomeOf(t) == outcome
  {
    assert StoreAnswers(env);
    hide WorldInv, StoreAnswers, AllAnswers, Solo, Agrees, ColonFree, ColonFreeRows, Coherent, GetOutcome, OutcomeOf;
    SoloKeeps(ps, w, GetCache(ns, key), env, "");
    GetAlone(ps, w, ns, key, env, "");
    OutcomeIsCoherent(ps, w, ns, key, env);
    GetAnswers(ps, w, cur, ns, key, env);
  }

  lemma ColonFreeStays(ps: Parsers, w: World, op: Op)
    requires WorldInv(ps, w) && ColonFreeRows(w.rows) && Proper(w, op) && ColonFreeOp(op)
    ensures ColonFreeRows(Do(ps, w, op).0.rows)
  {
    hide WorldInv, StoreAnswers, Solo, Lookup, ColonFree;
    match op
    case Submit(req, id, env) =>
      SubmitRows(ps, w, req, env, id);
    case Get(ns, key, env) => GetAlone(ps, w, ns, key, env, "");
    case Revoking(ns, key, actor, reason, env) =>
      LookupGenuine(ps, w, ns, key);
      RevokeAlone(ps, w, ns, key, actor, reason, env, "");
    case Expire(_) =>
  }

  /** One operation: the same answer as the map, and the relation kept. */
  lemma OpRefines(ps: Parsers, w: World, cur: Current, op: Op)
    requires Refines(ps, w, cur) && Proper(w, op) && Faultless(op) && ColonFreeOp(op)
    ensures
      var (w', t) := Do(ps, w, op);
      var (cur', outcome) := Abstract(ps, cur, op);
      Refines(ps, w', cur') && OutcomeOf(t) == outcome
  {
    hide WorldInv, Agrees, Coherent, ColonFreeRows, StoreAnswers, AllAnswers, Solo;
    OpAgrees(ps, w, cur, op);
    ColonFreeStays(ps, w, op);
    match op
    case Submit(req, id, env) =>
      SoloKeeps(ps, w, SubLookup(req), env, id);
      SubmitCoherent(ps, w, req, env, id);
      hide Abstract;
    case Get(ns, key, env) =>
      GetRefines(ps, w, cur, ns, key, env);
      hide Abstract;
    case Revoking(ns, key, actor, reason, env) =>
      SoloKeeps(ps, w, RevLookup(ns, key, actor, reason), env, "");
      RevokeCoherent(ps, w, ns, key, actor, reason, env);
      hide Abstract;
    case Expire(entry) =>
      ForgetKeeps(ps, w, {entry});
      ExpiryCoherent(w, entry);
  }

  lemma ExpiryCoherent(w: World, entry: string)
    requires Coherent(w)
    ensures Coherent(w.(cache := w.cache - {entry}))
  {
  }

  ghost predicate FaultlessHistory(ps: Parsers, ops: seq<Op>) {
    History(ps, ops) && forall i | 0 <= i < |ops| :: Faultless(ops[i]) && ColonFreeOp(ops[i])
  }

  lemma {:induction false} HistoriesRefine(ps: Parsers, ops: seq<Op>)
    requires FaultlessHistory(ps, ops)
    ensures Refines(ps, Exec(ps, ops), AbstractExec(ps, ops))
  {
    hide Refines, Do, Abstract, Proper, Faultless, ColonFreeOp;
    if ops == [] {
      EmptyRefines(ps);
    } else {
      var init := ops[..|ops| - 1];
      HistoriesRefine(ps, init);
      OpRefines(ps, Exec(ps, init), AbstractExec(ps, init), ops[|ops| - 1]);
    }
  }

  lemma EmptyRefines(ps: Parsers)
    ensures Refines(ps, EMPTY, map[])
  {
  }

  /** The cached service is the plain map: after any history of faultless operations on
      colon-free namespaces, with entries expiring at any time and any clock readings, every
      further operation answers what the map answers. */
  lemma ServiceRefinesMap(ps: Parsers, ops: seq<Op>, op: Op)
    requires FaultlessHistory(ps, ops + [op]) && !op.Expire?
    ensures
      OutcomeOf(Do(ps, Exec(ps, ops), op).1) == Abstract(ps, AbstractExec(ps, ops), op).1
  {
    var all := ops + [op];
    assert all[..|all| - 1] == ops && all[|all| - 1] == op;
    assert forall i | 0 <= i < |ops| :: all[i] == ops[i];
    HistoriesRefine(ps, ops);
    hide Refines, Do, Abstract, Exec;
    OpRefines(ps, Exec(ps, ops), AbstractExec(ps, ops), op);
  }
}
