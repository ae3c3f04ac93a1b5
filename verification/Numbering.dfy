/** What the version numbers of a key's rows say about the order in which they were submitted, and so what
    `ORDER BY version ASC` lists (internal/store/postgres.go). */
module Numbering {
  import opened Model
  import opened Tables
  import opened Protocol
  import opened Invariants
  import opened Alone
  import opened Sequential
  import opened Refinement
  import opened Lists
  import opened Sorting
  import Audit

  // ---------- read off the history alone ----------

  predicate Submits(op: Op, k: Key) {
    op.Submit? && (op.req.namespace, op.req.key) == k
  }

  /** The rows submitted for a key, oldest first. */
  function Ids(ops: seq<Op>, k: Key): seq<string> {
    if ops == [] then []
    else
      var op := ops[|ops| - 1];
      Ids(ops[..|ops| - 1], k) + (if Submits(op, k) then [op.id] else [])
  }

  /** One more than the streak each of those Submits found. */
  function Versions(ps: Parsers, ops: seq<Op>, k: Key): seq<int> {
    if ops == [] then []
    else
      var init, op := ops[..|ops| - 1], ops[|ops| - 1];
      Versions(ps, init, k) + (if Submits(op, k) then [Streak(ps, init, k) + 1] else [])
  }

  predicate Rising(versions: seq<int>) {
    forall i, j | 0 <= i < j < |versions| :: versions[i] < versions[j]
  }

  /** Every Submit of the key after its first finds a canonical row, and takes its version from it. */
  ghost predicate AlwaysReplaces(ps: Parsers, ops: seq<Op>, k: Key) {
    ops == [] ||
    (var init, op := ops[..|ops| - 1], ops[|ops| - 1];
     && AlwaysReplaces(ps, init, k)
     && (Submits(op, k) && Ids(init, k) != [] ==> Lookup(Exec(ps, init).rows, k.0, k.1).Some?))
  }

  lemma OneMoreDone(ps: Parsers, ops: seq<Op>, op: Op)
    ensures History(ps, ops + [op]) <==> History(ps, ops) && Proper(Exec(ps, ops), op)
    ensures Exec(ps, ops + [op]) == Do(ps, Exec(ps, ops), op).0
  {
    assert (ops + [op])[..|ops|] == ops;
    hide Do, Proper;
  }

  lemma OneMoreOp(ps: Parsers, ops: seq<Op>, op: Op, k: Key)
    ensures Ids(ops + [op], k) == Ids(ops, k) + (if Submits(op, k) then [op.id] else [])
    ensures Versions(ps, ops + [op], k) == Versions(ps, ops, k) + (if Submits(op, k) then [Streak(ps, ops, k) + 1] else [])
    ensures Streak(ps, [], k) == 0
    ensures
      Streak(ps, ops + [op], k) ==
      if Submits(op, k) then (if ValidValue(ps, op.req.value, op.req.valueType) then Streak(ps, ops, k) + 1 else 0)
      else if op.Revoking? && (op.ns, op.key) == k then 0
      else Streak(ps, ops, k)
  {
    assert (ops + [op])[..|ops|] == ops;
    hide Do, Proper, Exec, History;
  }

  // ---------- the rows have those versions ----------

  ghost predicate KeepsFacts(rows: Rows, rows': Rows) {
    forall id | id in rows :: id in rows' && SameFacts(rows[id], rows'[id])
  }

  lemma SubmitFacts(ps: Parsers, w: World, req: Request, env: Env, id: string)
    requires WorldInv(ps, w) && Fresh(w, id) && StoreAnswers(env)
    ensures
      var rows' := Solo(ps, w, SubLookup(req), env, id).0.rows;
      && rows'.Keys == w.rows.Keys + {id} && KeepsFacts(w.rows, rows')
      && rows'[id].namespace == req.namespace && rows'[id].key == req.key
      && rows'[id].version ==
           match Lookup(w.rows, req.namespace, req.key)
           case Some(existing) => existing.version + 1
           case None => 1
  {
    hide WorldInv, StoreAnswers, Solo, Lookup;
    LookupGenuine(ps, w, req.namespace, req.key);
    SubmitRows(ps, w, req, env, id);
    hide ValidParameter;
  }

  lemma RevokeFacts(ps: Parsers, w: World, ns: string, key: string, actor: string, reason: string, env: Env)
    requires WorldInv(ps, w) && StoreAnswers(env)
    ensures
      var rows' := Solo(ps, w, RevLookup(ns, key, actor, reason), env, "").0.rows;
      rows'.Keys == w.rows.Keys && KeepsFacts(w.rows, rows')
  {
    hide WorldInv, StoreAnswers, Solo, Lookup, CacheDelete, RevokedEntry;
    LookupGenuine(ps, w, ns, key);
    RevokeAlone(ps, w, ns, key, actor, reason, env, "");
  }

  /** What one operation does to the facts of the rows. */
  lemma OpFacts(ps: Parsers, w: World, op: Op)
    requires WorldInv(ps, w) && Proper(w, op)
    ensures
      var rows' := Do(ps, w, op).0.rows;
      && rows'.Keys == w.rows.Keys + (if op.Submit? then {op.id} else {})
      && KeepsFacts(w.rows, rows')
      && (op.Submit? ==>
            && op.id !in w.rows && rows'[op.id].namespace == op.req.namespace && rows'[op.id].key == op.req.key
            && rows'[op.id].version ==
                 match Lookup(w.rows, op.req.namespace, op.req.key)
                 case Some(existing) => existing.version + 1
                 case None => 1)
  {
    hide WorldInv, StoreAnswers, Solo, Lookup;
    match op
    case Submit(req, id, env) =>
      hide KeepsFacts;
      SubmitFacts(ps, w, req, env, id);
    case Get(ns, key, env) =>
      hide CacheGet, CacheSet;
      GetAlone(ps, w, ns, key, env, "");
    case Revoking(ns, key, actor, reason, env) =>
      hide KeepsFacts;
      RevokeFacts(ps, w, ns, key, actor, reason, env);
    case Expire(_) =>
  }

  /** A key's rows are those submitted for it, and each has the version its Submit was given. */
  ghost predicate Numbered(rows: Rows, k: Key, ids: seq<string>, versions: seq<int>) {
    && |ids| == |versions|
    && multiset(ids) == multiset(Audit.KeyRows(rows, k.0, k.1))
    && forall i | 0 <= i < |ids| :: ids[i] in rows && rows[ids[i]].version == versions[i]
  }

  lemma NumberedStays(rows: Rows, rows': Rows, k: Key, ids: seq<string>, versions: seq<int>)
    requires Numbered(rows, k, ids, versions)
    requires rows'.Keys == rows.Keys && KeepsFacts(rows, rows')
    ensures Numbered(rows', k, ids, versions)
  {
    assert Audit.KeyRows(rows', k.0, k.1) == Audit.KeyRows(rows, k.0, k.1);
  }

  lemma KeyRowsGrow(rows: Rows, rows': Rows, k: Key, id: string)
    requires id !in rows && rows'.Keys == rows.Keys + {id} && KeepsFacts(rows, rows')
    ensures
      multiset(Audit.KeyRows(rows', k.0, k.1)) ==
      multiset(Audit.KeyRows(rows, k.0, k.1)) + (if (rows'[id].namespace, rows'[id].key) == k then multiset{id} else multiset{})
  {
    var before, after := Audit.KeyRows(rows, k.0, k.1), Audit.KeyRows(rows', k.0, k.1);
    if (rows'[id].namespace, rows'[id].key) == k {
      assert after == before + {id} && id !in before;
    } else {
      assert after == before;
    }
  }

  lemma OneMoreNumbered(rows: Rows, rows': Rows, k: Key, ids: seq<string>, versions: seq<int>, id: string)
    requires Numbered(rows, k, ids, versions) && id !in rows
    requires rows'.Keys == rows.Keys + {id} && KeepsFacts(rows, rows')
    ensures
      var mine := (rows'[id].namespace, rows'[id].key) == k;
      Numbered(rows', k, ids + (if mine then [id] else []), versions + (if mine then [rows'[id].version] else []))
  {
    KeyRowsGrow(rows, rows', k, id);
    hide Audit.KeyRows;
    if (rows'[id].namespace, rows'[id].key) == k {
      var ids', versions' := ids + [id], versions + [rows'[id].version];
      assert multiset(ids') == multiset(ids) + multiset{id};
      forall i | 0 <= i < |ids'| ensures ids'[i] in rows' && rows'[ids'[i]].version == versions'[i] {
        if i < |ids| {
          assert ids'[i] == ids[i] && versions'[i] == versions[i];
        }
      }
    } else {
      assert ids + [] == ids && versions + [] == versions;
    }
  }

  /** After every history: row by row, the version is one more than the streak its Submit found. */
  lemma {:induction false} RowsAreNumbered(ps: Parsers, ops: seq<Op>, k: Key)
    requires History(ps, ops)
    ensures Numbered(Exec(ps, ops).rows, k, Ids(ops, k), Versions(ps, ops, k))
  {
    if ops == [] {
      NothingNumbered(k);
    } else {
      var init, op := ops[..|ops| - 1], ops[|ops| - 1];
      var w := Exec(ps, init);
      hide Numbered, Quiet, Do, Proper, Lookup, Streak, KeepsFacts;
      RowsAreNumbered(ps, init, k);
      HistoriesAreQuiet(ps, init);
      QuietIsSound(ps, w);
      OpFacts(ps, w, op);
      OneMoreDone(ps, init, op);
      OneMoreOp(ps, init, op, k);
      assert ops == init + [op];
      hide Exec, History, Ids, Versions;
      var rows' := Do(ps, w, op).0.rows;
      if op.Submit? {
        VersionCountsTheStreak(ps, init, op.req.namespace, op.req.key);
        OneMoreNumbered(w.rows, rows', k, Ids(init, k), Versions(ps, init, k), op.id);
      } else {
        NumberedStays(w.rows, rows', k, Ids(init, k), Versions(ps, init, k));
        assert Ids(init, k) + [] == Ids(init, k) && Versions(ps, init, k) + [] == Versions(ps, init, k);
      }
    }
  }

  lemma NothingNumbered(k: Key)
    ensures Numbered(map[], k, [], [])
  {
    assert Audit.KeyRows(map[], k.0, k.1) == {};
  }

  // ---------- when they rise ----------

  /** As long as every Submit replaces, the versions are 1, 2, 3, ... and the streak is zero or their number. */
  lemma {:induction false} ReplacingCounts(ps: Parsers, ops: seq<Op>, k: Key)
    requires History(ps, ops) && AlwaysReplaces(ps, ops, k)
    ensures
      var versions := Versions(ps, ops, k);
      && (forall i | 0 <= i < |versions| :: versions[i] == i + 1)
      && (Streak(ps, ops, k) == 0 || Streak(ps, ops, k) == |versions|)
      && |Ids(ops, k)| == |versions|
  {
    if ops != [] {
      var init, op := ops[..|ops| - 1], ops[|ops| - 1];
      ReplacingCounts(ps, init, k);
      VersionCountsTheStreak(ps, init, k.0, k.1);
      hide Lookup, Proper, Exec;
    }
  }

  lemma {:induction false} VersionsStartAtOne(ps: Parsers, ops: seq<Op>, k: Key)
    ensures |Versions(ps, ops, k)| == |Ids(ops, k)|
    ensures forall i | 0 <= i < |Versions(ps, ops, k)| :: Versions(ps, ops, k)[i] >= 1
  {
    if ops != [] {
      VersionsStartAtOne(ps, ops[..|ops| - 1], k);
    }
  }

  lemma {:induction false} RisingReplaces(ps: Parsers, ops: seq<Op>, k: Key)
    requires History(ps, ops) && Rising(Versions(ps, ops, k))
    ensures AlwaysReplaces(ps, ops, k)
  {
    if ops != [] {
      var init, op := ops[..|ops| - 1], ops[|ops| - 1];
      var before := Versions(ps, init, k);
      assert before == Versions(ps, ops, k)[..|before|];
      RisingReplaces(ps, init, k);
      VersionCountsTheStreak(ps, init, k.0, k.1);
      VersionsStartAtOne(ps, init, k);
      hide Lookup, Proper, Exec, Streak;
      if Submits(op, k) && before != [] {
        assert Versions(ps, ops, k)[0] == before[0] >= 1;
        assert Versions(ps, ops, k)[|before|] == Streak(ps, init, k) + 1;
      }
    }
  }

  /** A key's versions rise from Submit to Submit if and only if every Submit after its first finds a
      canonical row. */
  lemma VersionsRiseExactly(ps: Parsers, ops: seq<Op>, k: Key)
    requires History(ps, ops)
    ensures Rising(Versions(ps, ops, k)) <==> AlwaysReplaces(ps, ops, k)
  {
    if AlwaysReplaces(ps, ops, k) {
      ReplacingCounts(ps, ops, k);
    } else if Rising(Versions(ps, ops, k)) {
      RisingReplaces(ps, ops, k);
    }
  }

  // ---------- what the listing by version shows ----------

  function VersionIn(rows: Rows): string -> int {
    id => if id in rows then rows[id].version else 0
  }

  /** What `ListParameterVersions` may return: all rows of the key, by version; ties in any order. */
  ghost predicate IsListing(rows: Rows, k: Key, ids: seq<string>) {
    multiset(ids) == multiset(Audit.KeyRows(rows, k.0, k.1)) && Ascending(VersionIn(rows), ids)
  }

  /** The listing is certain to be chronological if and only if every Submit of the key after its first found
      a canonical row: not after a Revoke, nor after a rejected Submit. */
  lemma ListingIsChronologicalExactly(ps: Parsers, ops: seq<Op>, k: Key)
    requires History(ps, ops)
    ensures (forall ids | IsListing(Exec(ps, ops).rows, k, ids) :: ids == Ids(ops, k)) <==> AlwaysReplaces(ps, ops, k)
  {
    var rows, ids := Exec(ps, ops).rows, Ids(ops, k);
    RowsAreNumbered(ps, ops, k);
    VersionsRiseExactly(ps, ops, k);
    hide Exec, History, AlwaysReplaces;
    assert Increasing(VersionIn(rows), ids) <==> Rising(Versions(ps, ops, k));
    if Rising(Versions(ps, ops, k)) {
      forall other | IsListing(rows, k, other) ensures other == ids {
        OnlyArrangement(VersionIn(rows), ids, other);
      }
    } else {
      DistinctIsMultiplicity(ids);
      Arranged(VersionIn(rows), ids);
      var listing := Arrange(VersionIn(rows), ids);
      assert IsListing(rows, k, listing);
      if listing == ids {
        OwnArrangementIncreases(VersionIn(rows), ids);
        assert false;
      }
    }
  }

  // ---------- numbering restarts ----------

  /** Submit, Revoke, Submit. */
  function Restart(req: Request): seq<Op> {
    [Submit(req, "1", PERFECT), Revoking(req.namespace, req.key, "", "", PERFECT), Submit(req, "2", PERFECT)]
  }

  lemma RestartIsAHistory(ps: Parsers, req: Request)
    ensures History(ps, Restart(req))
  {
    var a, c := Submit(req, "1", PERFECT), Submit(req, "2", PERFECT);
    var b := Revoking(req.namespace, req.key, "", "", PERFECT);
    hide Exec, History, Do, StoreAnswers, KeepsFacts, Lookup, WorldInv, Quiet, Proper;
    StartsEmpty(ps);
    SubmitsProperly(EMPTY, a);
    OneMoreDone(ps, [], a);
    OneMoreDone(ps, [a], b);
    OneMoreDone(ps, [a, b], c);
    assert [] + [a] == [a] && [a] + [b] == [a, b] && [a, b] + [c] == Restart(req);
    EmptyIsQuiet(ps);
    QuietIsSound(ps, EMPTY);
    OpFacts(ps, EMPTY, a);
    HistoriesAreQuiet(ps, [a]);
    QuietIsSound(ps, Exec(ps, [a]));
    RevokesProperly(Exec(ps, [a]), b);
    OpFacts(ps, Exec(ps, [a]), b);
    SubmitsProperly(Exec(ps, [a, b]), c);
  }

  lemma StartsEmpty(ps: Parsers)
    ensures History(ps, []) && Exec(ps, []) == EMPTY
  {
  }

  lemma RevokesProperly(w: World, op: Op)
    requires op.Revoking? && op.env == PERFECT
    ensures Proper(w, op)
  {
  }

  lemma SubmitsProperly(w: World, op: Op)
    requires op.Submit? && op.id != "" && op.id !in w.rows && op.env == PERFECT
    ensures Proper(w, op)
  {
  }

  lemma RestartVersions(ps: Parsers, req: Request)
    requires ValidValue(ps, req.value, req.valueType)
    ensures
      var k := (req.namespace, req.key);
      Ids(Restart(req), k) == ["1", "2"] && Versions(ps, Restart(req), k) == [1, 1]
  {
    var k := (req.namespace, req.key);
    var a, b, c := Submit(req, "1", PERFECT), Revoking(k.0, k.1, "", "", PERFECT), Submit(req, "2", PERFECT);
    OneMoreOp(ps, [], a, k);
    OneMoreOp(ps, [a], b, k);
    OneMoreOp(ps, [a, b], c, k);
    assert [] + [a] == [a] && [a] + [b] == [a, b] && [a, b] + [c] == Restart(req);
    assert Ids([], k) == [] && Versions(ps, [], k) == [];
    hide Ids, Versions, Streak, ValidValue;
  }

  /** After a Revoke numbering starts again: Submit, Revoke, Submit leave two rows of version 1, and either
      may be listed first. */
  lemma RevokeRestartsNumbering(ps: Parsers, req: Request)
    requires ValidValue(ps, req.value, req.valueType)
    ensures
      var k := (req.namespace, req.key);
      var rows := Exec(ps, Restart(req)).rows;
      && History(ps, Restart(req))
      && "1" in rows && "2" in rows && rows["1"].version == rows["2"].version == 1
      && IsListing(rows, k, ["1", "2"]) && IsListing(rows, k, ["2", "1"])
  {
    var k := (req.namespace, req.key);
    hide Exec, History, Numbered, Versions, Restart;
    RestartIsAHistory(ps, req);
    RestartVersions(ps, req);
    RowsAreNumbered(ps, Restart(req), k);
    TwoOnesInAnyOrder(Exec(ps, Restart(req)).rows, k, "1", "2");
  }

  lemma TwoOnesInAnyOrder(rows: Rows, k: Key, a: string, b: string)
    requires Numbered(rows, k, [a, b], [1, 1])
    ensures a in rows && b in rows && rows[a].version == rows[b].version == 1
    ensures IsListing(rows, k, [a, b]) && IsListing(rows, k, [b, a])
  {
    assert [a, b][0] == a && [a, b][1] == b;
    assert multiset([a, b]) == multiset([b, a]);
  }
}
