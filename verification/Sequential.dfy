/** Histories of operations that do not overlap, on a store that answers. The cache
    may lose calls and drop entries whenever it likes. */
module Sequential {
  import opened Model
  import opened Tables
  import opened Protocol
  import opened Invariants
  import opened Alone

  datatype Op =
    | Submit(req: Request, id: string, env: Env)
    | Get(ns: string, key: string, env: Env)
    | Revoking(ns: string, key: string, actor: string, reason: string, env: Env)
    | Expire(entry: string)

  ghost function Do(ps: Parsers, w: World, op: Op): (r: (World, Thread))
    ensures Finished(r.1)
  {
    match op
    case Submit(req, id, env) => Solo(ps, w, SubLookup(req), env, id)
    case Get(ns, key, env) => Solo(ps, w, GetCache(ns, key), env, "")
    case Revoking(ns, key, actor, reason, env) => Solo(ps, w, RevLookup(ns, key, actor, reason), env, "")
    case Expire(entry) => (w.(cache := w.cache - {entry}), Failed(NotFound))
  }

  /** Uuids are new, and the store answers every call. */
  ghost predicate Proper(w: World, op: Op) {
    match op
    case Submit(_, id, env) => Fresh(w, id) && StoreAnswers(env)
    case Get(_, _, env) => StoreAnswers(env)
    case Revoking(_, _, _, _, env) => StoreAnswers(env)
    case Expire(_) => true
  }

  ghost function Exec(ps: Parsers, ops: seq<Op>): World {
    if ops == [] then EMPTY else Do(ps, Exec(ps, ops[..|ops| - 1]), ops[|ops| - 1]).0
  }

  ghost predicate History(ps: Parsers, ops: seq<Op>) {
    ops == [] || (History(ps, ops[..|ops| - 1]) && Proper(Exec(ps, ops[..|ops| - 1]), ops[|ops| - 1]))
  }

  // ---------- samples ----------

  /** Every call is acknowledged, at one instant. */
  const PERFECT: Env := _ => Call(Acked, 0)

  function Sample(ns: string, key: string): Request {
    Request(key, "", TYPE_STRING, ns, "", "", map[], "")
  }

  // ---------- replaying the ledger ----------

  /** An entry a legal life of a row can contain. */
  predicate LegalEntry(e: Event) {
    (e.from == Unset && e.to == Submitted) || Edge(e.from, e.to)
  }

  /** The state the ledger alone says a row is in: each event must start where the last one
      ended. `None` once an event does not connect. */
  function Replay(log: Ledger, id: string): Option<State> {
    if log == [] then Some(Unset)
    else
      var e := log[|log| - 1];
      var before := Replay(log[..|log| - 1], id);
      if e.parameterId != id then before
      else if before == Some(e.from) && LegalEntry(e) then Some(e.to)
      else None
  }

  /** The number of events on the way to a state. */
  function Steps(s: State): nat {
    match s
    case Unset => 0
    case Submitted => 1
    case Validating => 2
    case Rejected => 3
    case ConsensusPending => 3
    case Canonical => 4
    case Revoked => 5
  }

  predicate Told(log: Ledger, id: string, s: State) {
    Replay(log, id) == Some(s) && |EventsOf(log, id)| == Steps(s)
  }

  ghost predicate LedgerTells(w: World) {
    forall id {:trigger Told(w.log, id, w.rows[id].state)} | id in w.rows :: Told(w.log, id, w.rows[id].state)
  }

  lemma OneMoreTold(log: Ledger, e: Event, id: string, s: State)
    requires Told(log, id, s)
    ensures e.parameterId != id ==> Told(log + [e], id, s)
    ensures e.parameterId == id && e.from == s && LegalEntry(e) ==> Told(log + [e], id, e.to)
  {
    assert (log + [e])[..|log|] == log;
    OneMore(log, e, id);
  }

  /** A state write with its matching entry keeps the ledger telling. */
  lemma PairTells(w: World, id: string, s: State, e: Event, now: int)
    requires LedgerTells(w) && id in w.rows
    requires e.parameterId == id && e.from == w.rows[id].state && e.to == s && Edge(e.from, e.to)
    ensures LedgerTells(Pair(w, id, s, e, now))
  {
    var w' := Pair(w, id, s, e, now);
    hide Told;
    forall i | i in w'.rows ensures Told(w'.log, i, w'.rows[i].state) {
      assert Told(w.log, i, w.rows[i].state);
      OneMoreTold(w.log, e, i, w.rows[i].state);
    }
  }

  lemma NothingTold(log: Ledger, id: string)
    requires forall e | e in log :: e.parameterId != id
    ensures Told(log, id, Unset)
  {
    if log != [] {
      NothingTold(log[..|log| - 1], id);
    }
  }

  lemma NewRowTells(ps: Parsers, w: World, req: Request, p: Parameter)
    requires WorldInv(ps, w) && LedgerTells(w) && p.id !in w.rows && p.state == Submitted
    ensures LedgerTells(w.(rows := w.rows[p.id := p], log := w.log + [SubmittedEntry(req, p)]))
  {
    var e := SubmittedEntry(req, p);
    var w' := w.(rows := w.rows[p.id := p], log := w.log + [e]);
    NothingTold(w.log, p.id);
    assert e.from == Unset && e.to == Submitted;
    hide WorldInv, Told, SubmittedEntry;
    forall i | i in w'.rows ensures Told(w'.log, i, w'.rows[i].state) {
      if i != p.id {
        assert Told(w.log, i, w.rows[i].state);
        OneMoreTold(w.log, e, i, w.rows[i].state);
      } else {
        OneMoreTold(w.log, e, i, Unset);
      }
    }
  }

  lemma AnnouncedTells(ps: Parsers, w: World, req: Request, env: Env, id: string)
    requires WorldInv(ps, w) && LedgerTells(w) && Fresh(w, id)
    ensures LedgerTells(Announced(w, req, Proposal(w.rows, req, id, env), env))
  {
    hide WorldInv, LedgerTells, SubmittedEntry;
    LookupGenuine(ps, w, req.namespace, req.key);
    var p := Proposal(w.rows, req, id, env);
    NewRowTells(ps, w, req, p);
    var w1 := w.(rows := w.rows[p.id := p], log := w.log + [SubmittedEntry(req, p)]);
    if p.prev != "" {
      assert w1.rows[p.prev].state == Canonical;
      PairTells(w1, p.prev, Revoked, SupersededEntry(p), env(Announce(Supersede)).now);
      CacheDoesNotTell(Pair(w1, p.prev, Revoked, SupersededEntry(p), env(Announce(Supersede)).now),
                       Announced(w, req, p, env));
    }
  }

  lemma CacheDoesNotTell(w: World, w': World)
    requires LedgerTells(w) && w'.rows == w.rows && w'.log == w.log
    ensures LedgerTells(w')
  {
    hide Told;
    forall id | id in w'.rows ensures Told(w'.log, id, w'.rows[id].state) {
      assert Told(w.log, id, w.rows[id].state);
    }
  }

  lemma TransitionTells(w: World, goal: Goal, p: Parameter, env: Env)
    requires LedgerTells(w) && p.id in w.rows && w.rows[p.id].state == Source(goal)
    ensures LedgerTells(Transition(w, goal, p, env))
  {
    hide LedgerTells;
    var e := QuorumEntry(p, goal, env(Note(goal)).now);
    assert e.from == Source(goal) && e.to == Target(goal);
    PairTells(w, p.id, Target(goal), e, env(Mark(goal)).now);
  }

  lemma SubmitTells(ps: Parsers, w: World, req: Request, env: Env, id: string)
    requires WorldInv(ps, w) && LedgerTells(w) && Fresh(w, id) && StoreAnswers(env)
    ensures LedgerTells(Solo(ps, w, SubLookup(req), env, id).0)
  {
    hide WorldInv, LedgerTells, StoreAnswers, Solo, Announced, QuorumEntry, Lookup, CacheSet, BroadcastEntry;
    AnnouncedTells(ps, w, req, env, id);
    var p := Proposal(w.rows, req, id, env);
    var w1 := Announced(w, req, p, env);
    if ValidValue(ps, req.value, req.valueType) {
      ValidSubmitAlone(ps, w, req, env, id);
      TransitionTells(w1, Validate, p, env);
      var w2 := Transition(w1, Validate, p, env);
      TransitionTells(w2, Agree, p, env);
      var w3 := Transition(w2, Agree, p, env);
      TransitionTells(w3, Promote, p, env);
      CacheDoesNotTell(Transition(w3, Promote, p, env), Solo(ps, w, SubLookup(req), env, id).0);
    } else {
      InvalidSubmitAlone(ps, w, req, env, id);
      TransitionTells(w1, Validate, p, env);
      TransitionTells(Transition(w1, Validate, p, env), Reject, p, env);
    }
  }

  // ---------- the rows ----------

  predicate AtRest(s: State) {
    s == Canonical || s == Rejected || s == Revoked
  }

  /** No two rows replace the same row, and a replaced row is revoked. */
  ghost predicate Unforked(rows: Rows) {
    && (forall a, b {:trigger rows[a].prev, rows[b].prev} |
          a in rows && b in rows && rows[a].prev == rows[b].prev != "" :: a == b)
    && (forall id {:trigger rows[id].prev} | id in rows && rows[id].prev != "" ::
          rows[id].prev in rows && rows[rows[id].prev].state == Revoked)
  }

  ghost predicate Calm(rows: Rows) {
    (forall id | id in rows :: AtRest(rows[id].state)) && Unforked(rows)
  }

  /** The row a solitary Submit ends with. */
  ghost function FinalRow(ps: Parsers, p: Parameter, env: Env): Parameter {
    if ValidParameter(ps, p) then PromotedRow(p, env)
    else p.(state := Rejected, updatedAt := env(Mark(Reject)).now)
  }

  /** The table after a solitary Submit: the new row is settled, the old one is revoked. */
  ghost function RowsAfterSubmit(ps: Parsers, rows: Rows, p: Parameter, env: Env): Rows {
    var rows' := rows[p.id := FinalRow(ps, p, env)];
    if p.prev == "" || p.prev !in rows then rows'
    else rows'[p.prev := Moved(rows[p.prev], Revoked, env(Announce(Supersede)).now)]
  }

  lemma AnnouncedRows(ps: Parsers, w: World, req: Request, p: Parameter, env: Env)
    requires p.id !in w.rows && p.prev != p.id
    ensures Announced(w, req, p, env).rows[p.id := FinalRow(ps, p, env)] == RowsAfterSubmit(ps, w.rows, p, env)
  {
    hide SubmittedEntry, SupersededEntry, CacheDelete, FinalRow;
  }

  lemma SubmitRows(ps: Parsers, w: World, req: Request, env: Env, id: string)
    requires WorldInv(ps, w) && Fresh(w, id) && StoreAnswers(env)
    ensures
      var p := Proposal(w.rows, req, id, env);
      Solo(ps, w, SubLookup(req), env, id).0.rows == RowsAfterSubmit(ps, w.rows, p, env)
  {
    hide WorldInv, StoreAnswers, Solo, Lookup, CacheSet, BroadcastEntry, Announced, RowsAfterSubmit, Promoting, Rejecting;
    LookupGenuine(ps, w, req.namespace, req.key);
    var p := Proposal(w.rows, req, id, env);
    assert p.id == id && p.prev != id && (ValidParameter(ps, p) <==> ValidValue(ps, req.value, req.valueType));
    hide Genuine, Proposal, ValidValue;
    var w1 := Announced(w, req, p, env);
    AnnouncedRows(ps, w, req, p, env);
    if ValidParameter(ps, p) {
      ValidSubmitAlone(ps, w, req, env, id);
      PromotingRows(w1, p, env);
    } else {
      InvalidSubmitAlone(ps, w, req, env, id);
      RejectingRows(ps, w1, p, env);
    }
  }

  lemma PromotingRows(w: World, p: Parameter, env: Env)
    requires p.id in w.rows && w.rows[p.id] == p
    ensures Promoting(w, p, env).rows == w.rows[p.id := PromotedRow(p, env)]
  {
    hide QuorumEntry;
  }

  lemma RejectingRows(ps: Parsers, w: World, p: Parameter, env: Env)
    requires p.id in w.rows && w.rows[p.id] == p && !ValidParameter(ps, p)
    ensures Rejecting(w, p, env).rows == w.rows[p.id := FinalRow(ps, p, env)]
  {
    hide QuorumEntry;
  }

  /** A canonical row has not been replaced yet. */
  lemma NotReplaced(rows: Rows, id: string, i: string)
    requires Calm(rows) && id in rows && rows[id].state == Canonical && i in rows && id != ""
    ensures rows[i].prev != id
  {
  }

  /** A settled new row that replaces at most the canonical row leaves the table calm. */
  lemma NewVersionStaysCalm(rows: Rows, id: string, row: Parameter, now: int)
    requires Calm(rows) && id !in rows && AtRest(row.state)
    requires row.prev != "" ==> row.prev in rows && rows[row.prev].state == Canonical
    ensures
      var rows' := rows[id := row];
      Calm(if row.prev == "" then rows' else rows'[row.prev := Moved(rows[row.prev], Revoked, now)])
  {
    hide Calm;
    if row.prev == "" {
      AddedStaysCalm(rows, id, row);
    } else {
      RevokeStaysCalm(rows, row.prev, now);
      var retired := rows[row.prev := Moved(rows[row.prev], Revoked, now)];
      forall i | i in retired ensures retired[i].prev != row.prev {
        NotReplaced(rows, row.prev, i);
      }
      AddedStaysCalm(retired, id, row);
      assert rows[id := row][row.prev := Moved(rows[row.prev], Revoked, now)] == retired[id := row];
    }
  }

  lemma AddedStaysCalm(rows: Rows, id: string, row: Parameter)
    requires Calm(rows) && id !in rows && AtRest(row.state)
    requires row.prev != "" ==> row.prev in rows && rows[row.prev].state == Revoked
    requires row.prev != "" ==> forall i | i in rows :: rows[i].prev != row.prev
    ensures Calm(rows[id := row])
  {
    var rows' := rows[id := row];
    forall a, b | a in rows' && b in rows' && rows'[a].prev == rows'[b].prev != "" ensures a == b {
      assert a == id || rows'[a] == rows[a];
      assert b == id || rows'[b] == rows[b];
    }
    forall i | i in rows' && rows'[i].prev != ""
      ensures rows'[i].prev in rows' && rows'[rows'[i].prev].state == Revoked
    {
      assert i == id || rows'[i] == rows[i];
    }
  }

  lemma SubmitStaysCalm(ps: Parsers, w: World, req: Request, env: Env, id: string)
    requires WorldInv(ps, w) && Calm(w.rows) && Fresh(w, id)
    ensures Calm(RowsAfterSubmit(ps, w.rows, Proposal(w.rows, req, id, env), env))
  {
    hide WorldInv, Lookup, Calm;
    LookupGenuine(ps, w, req.namespace, req.key);
    var p := Proposal(w.rows, req, id, env);
    NewVersionStaysCalm(w.rows, id, FinalRow(ps, p, env), env(Announce(Supersede)).now);
  }

  lemma RevokeStaysCalm(rows: Rows, id: string, now: int)
    requires Calm(rows) && id in rows
    ensures Calm(rows[id := Moved(rows[id], Revoked, now)])
  {
  }

  // ---------- every history ----------

  ghost predicate Quiet(ps: Parsers, w: World) {
    WorldInv(ps, w) && LedgerTells(w) && Calm(w.rows)
  }

  lemma OpKeepsQuiet(ps: Parsers, w: World, op: Op)
    requires Quiet(ps, w) && Proper(w, op)
    ensures Quiet(ps, Do(ps, w, op).0)
  {
    hide WorldInv, LedgerTells, Calm, Solo, StoreAnswers;
    var w' := Do(ps, w, op).0;
    match op
    case Submit(req, id, env) =>
      SoloKeeps(ps, w, SubLookup(req), env, id);
      SubmitTells(ps, w, req, env, id);
      SubmitRows(ps, w, req, env, id);
      SubmitStaysCalm(ps, w, req, env, id);
    case Get(ns, key, env) =>
      SoloKeeps(ps, w, GetCache(ns, key), env, "");
      GetAlone(ps, w, ns, key, env, "");
      hide CacheGet, CacheSet, Lookup;
      CacheDoesNotTell(w, w');
    case Revoking(ns, key, actor, reason, env) =>
      SoloKeeps(ps, w, RevLookup(ns, key, actor, reason), env, "");
      RevokeAlone(ps, w, ns, key, actor, reason, env, "");
      RevokeQuiet(ps, w, ns, key, actor, reason, env);
    case Expire(entry) =>
      ForgetKeeps(ps, w, {entry});
      CacheDoesNotTell(w, w');
  }

  lemma RevokeQuiet(ps: Parsers, w: World, ns: string, key: string, actor: string, reason: string, env: Env)
    requires Quiet(ps, w)
    ensures
      var w' := RevokeOutcome(w, ns, key, actor, reason, env).0;
      LedgerTells(w') && Calm(w'.rows)
  {
    hide WorldInv, LedgerTells, Calm, CacheDelete;
    LookupGenuine(ps, w, ns, key);
    var w' := RevokeOutcome(w, ns, key, actor, reason, env).0;
    match Lookup(w.rows, ns, key)
    case None =>
    case Some(rec) =>
      var e := RevokedEntry(rec, actor, reason, env(Revoke(LogRevoked)).now);
      var now := env(Revoke(MarkRevoked)).now;
      PairTells(w, rec.id, Revoked, e, now);
      CacheDoesNotTell(Pair(w, rec.id, Revoked, e, now), w');
      RevokeStaysCalm(w.rows, rec.id, now);
  }

  lemma {:induction false} HistoriesAreQuiet(ps: Parsers, ops: seq<Op>)
    requires History(ps, ops)
    ensures Quiet(ps, Exec(ps, ops))
  {
    hide Quiet, Proper, Do;
    if ops == [] {
      EmptyIsQuiet(ps);
    } else {
      HistoriesAreQuiet(ps, ops[..|ops| - 1]);
      OpKeepsQuiet(ps, Exec(ps, ops[..|ops| - 1]), ops[|ops| - 1]);
    }
  }

  lemma EmptyIsQuiet(ps: Parsers)
    ensures Quiet(ps, EMPTY)
  {
  }

  // ---------- what histories promise ----------

  /** Replaying the ledger rebuilds the state of every row: its events are a connected
      path of legal moves from "" to the stored state. */
  lemma ReplayRebuildsStates(ps: Parsers, ops: seq<Op>, id: string)
    requires History(ps, ops) && id in Exec(ps, ops).rows
    ensures Replay(Exec(ps, ops).log, id) == Some(Exec(ps, ops).rows[id].state)
  {
    HistoriesAreQuiet(ps, ops);
    var w := Exec(ps, ops);
    hide Exec, History, WorldInv, Calm;
    assert Told(w.log, id, w.rows[id].state);
  }

  /** Between operations every row is CANONICAL, REJECTED or REVOKED, and no two rows
      have the same predecessor. */
  lemma RowsRestUnforked(ps: Parsers, ops: seq<Op>)
    requires History(ps, ops)
    ensures
      var rows := Exec(ps, ops).rows;
      && (forall id | id in rows :: AtRest(rows[id].state))
      && (forall a, b | a in rows && b in rows && rows[a].prev == rows[b].prev != "" :: a == b)
  {
    HistoriesAreQuiet(ps, ops);
    hide Exec, History, WorldInv, LedgerTells;
  }

  lemma SubmitEndsAtRest(ps: Parsers, w: World, req: Request, id: string, env: Env)
    requires WorldInv(ps, w) && Fresh(w, id) && StoreAnswers(env)
    ensures
      var (w', t) := Solo(ps, w, SubLookup(req), env, id);
      && id in w'.rows
      && (if ValidValue(ps, req.value, req.valueType)
          then w'.rows[id].state == Canonical && t.SubmitOk? && t.result == w'.rows[id]
          else w'.rows[id].state == Rejected && t == Failed(Invalid))
  {
    hide WorldInv, Solo, StoreAnswers, Lookup, Announced, Promoting, Rejecting, Finale;
    LookupGenuine(ps, w, req.namespace, req.key);
    SubmitRows(ps, w, req, env, id);
    var p := Proposal(w.rows, req, id, env);
    assert p.id == id && p.prev != id && (ValidParameter(ps, p) <==> ValidValue(ps, req.value, req.valueType));
    hide Proposal, Genuine, ValidValue;
    if ValidValue(ps, req.value, req.valueType) {
      ValidSubmitAlone(ps, w, req, env, id);
    } else {
      InvalidSubmitAlone(ps, w, req, env, id);
    }
  }

  /** A Submit in a history never trips the unique index: a valid value ends CANONICAL and
      is returned so, an invalid one ends REJECTED and is refused. */
  lemma SubmitDecides(ps: Parsers, ops: seq<Op>, req: Request, id: string, env: Env)
    requires History(ps, ops + [Submit(req, id, env)])
    ensures
      var w := Exec(ps, ops);
      var (w', t) := Do(ps, w, Submit(req, id, env));
      && id in w'.rows
      && (if ValidValue(ps, req.value, req.valueType)
          then w'.rows[id].state == Canonical && t.SubmitOk? && t.result == w'.rows[id]
          else w'.rows[id].state == Rejected && t == Failed(Invalid))
  {
    var op := Submit(req, id, env);
    assert (ops + [op])[..|ops|] == ops && (ops + [op])[|ops|] == op;
    assert History(ps, ops) && Proper(Exec(ps, ops), op);
    hide Exec, History, Solo, WorldInv, StoreAnswers, LedgerTells, Calm, ValidValue;
    HistoriesAreQuiet(ps, ops);
    SubmitEndsAtRest(ps, Exec(ps, ops), req, id, env);
  }
}
