/** The audit trail: `QueryAudit` of internal/store/postgres.go as a query on the two tables. */
module Audit {
  import opened Model
  import opened Tables
  import opened Protocol
  import opened Invariants
  import opened Sequential
  import opened Sorting

  /** The rows of one namespace and key. */
  function KeyRows(rows: Rows, ns: string, key: string): set<string> {
    set id | id in rows && rows[id].namespace == ns && rows[id].key == key
  }

  /** The events of a set of rows, oldest first. */
  function EventsIn(log: Ledger, ids: set<string>): Ledger {
    if log == [] then []
    else
      var e := log[|log| - 1];
      EventsIn(log[..|log| - 1], ids) + (if e.parameterId in ids then [e] else [])
  }

  /** The events the JOIN selects. */
  function KeyEvents(rows: Rows, log: Ledger, ns: string, key: string): Ledger {
    EventsIn(log, KeyRows(rows, ns, key))
  }

  // ---------- ORDER BY occurred_at DESC ----------

  function Age(e: Event): int {
    -e.occurredAt
  }

  /** Newest first; of events at the same instant the one later in the ledger comes first. */
  function NewestFirst(events: Ledger): seq<Event> {
    Arrange(Age, events)
  }

  ghost predicate Descending(trail: seq<Event>) {
    forall i, j | 0 <= i < j < |trail| :: trail[i].occurredAt >= trail[j].occurredAt
  }

  lemma NewestFirstSorts(events: Ledger)
    ensures Descending(NewestFirst(events))
    ensures multiset(NewestFirst(events)) == multiset(events)
  {
    Arranged(Age, events);
    var trail := NewestFirst(events);
    hide Arrange;
    assert forall i, j | 0 <= i < j < |trail| :: Age(trail[i]) <= Age(trail[j]);
  }

  function Trail(rows: Rows, log: Ledger, ns: string, key: string): seq<Event> {
    NewestFirst(KeyEvents(rows, log, ns, key))
  }

  lemma {:induction false} EventsInAre(log: Ledger, ids: set<string>, e: Event)
    ensures multiset(EventsIn(log, ids))[e] == if e.parameterId in ids then multiset(log)[e] else 0
  {
    if log != [] {
      EventsInAre(log[..|log| - 1], ids, e);
      assert log == log[..|log| - 1] + [log[|log| - 1]];
    }
  }

  /** The trail is newest first and holds exactly the events of that namespace and key, each
      as often as the ledger does. */
  lemma TrailIsTheAudit(rows: Rows, log: Ledger, ns: string, key: string)
    ensures Descending(Trail(rows, log, ns, key))
    ensures forall e ::
              multiset(Trail(rows, log, ns, key))[e] ==
              if e.parameterId in rows && rows[e.parameterId].namespace == ns && rows[e.parameterId].key == key
              then multiset(log)[e] else 0
    ensures |Trail(rows, log, ns, key)| == |KeyEvents(rows, log, ns, key)|
  {
    NewestFirstSorts(KeyEvents(rows, log, ns, key));
    forall e {
      EventsInAre(log, KeyRows(rows, ns, key), e);
    }
    assert |multiset(Trail(rows, log, ns, key))| == |multiset(KeyEvents(rows, log, ns, key))|;
  }

  // ---------- LIMIT and OFFSET ----------

  function Min(a: int, b: int): int {
    if a < b then a else b
  }

  function Page(trail: seq<Event>, limit: nat, offset: nat): seq<Event> {
    trail[Min(offset, |trail|)..Min(offset + limit, |trail|)]
  }

  /** At most `limit` events of the trail, from position `offset` on, and none past its end. */
  lemma PageExactly(trail: seq<Event>, limit: nat, offset: nat)
    ensures
      var page := Page(trail, limit, offset);
      && |page| == (if offset >= |trail| then 0 else if limit <= |trail| - offset then limit else |trail| - offset)
      && forall k | 0 <= k < |page| :: page[k] == trail[offset + k]
  {
  }

  /** The pages at offsets `offset`, `offset + limit`, ... until one starts past the end. */
  function PagesFrom(trail: seq<Event>, limit: nat, offset: nat): seq<Event>
    requires limit > 0
    decreases |trail| - offset
  {
    if offset >= |trail| then [] else Page(trail, limit, offset) + PagesFrom(trail, limit, offset + limit)
  }

  lemma {:induction false} PagesContinue(trail: seq<Event>, limit: nat, offset: nat)
    requires limit > 0 && offset <= |trail|
    ensures PagesFrom(trail, limit, offset) == trail[offset..]
    decreases |trail| - offset
  {
    if offset < |trail| {
      if offset + limit <= |trail| {
        PagesContinue(trail, limit, offset + limit);
      }
      assert trail[offset..] == Page(trail, limit, offset) + trail[Min(offset + limit, |trail|)..];
    }
  }

  /** Paging through an unchanged ledger shows every event exactly once, in order. */
  lemma PagesAreTheTrail(rows: Rows, log: Ledger, ns: string, key: string, limit: nat)
    requires limit > 0
    ensures PagesFrom(Trail(rows, log, ns, key), limit, 0) == Trail(rows, log, ns, key)
    ensures |PagesFrom(Trail(rows, log, ns, key), limit, 0)| == |KeyEvents(rows, log, ns, key)|
  {
    PagesContinue(Trail(rows, log, ns, key), limit, 0);
    TrailIsTheAudit(rows, log, ns, key);
  }

  // ---------- the total ----------

  /** The events of the rows of a set, counted row by row. */
  ghost function RowByRow(log: Ledger, ids: set<string>): nat {
    if ids == {} then 0
    else var id :| id in ids; |EventsOf(log, id)| + RowByRow(log, ids - {id})
  }

  lemma {:induction false} OneRowLess(log: Ledger, ids: set<string>, id: string)
    requires id in ids
    ensures |EventsIn(log, ids)| == |EventsOf(log, id)| + |EventsIn(log, ids - {id})|
  {
    if log != [] {
      OneRowLess(log[..|log| - 1], ids, id);
    }
  }

  lemma NoRows(log: Ledger)
    ensures EventsIn(log, {}) == []
  {
  }

  lemma {:induction false} CountedTwice(log: Ledger, ids: set<string>)
    ensures |EventsIn(log, ids)| == RowByRow(log, ids)
  {
    if ids == {} {
      NoRows(log);
    } else {
      var id :| id in ids && RowByRow(log, ids) == |EventsOf(log, id)| + RowByRow(log, ids - {id});
      OneRowLess(log, ids, id);
      CountedTwice(log, ids - {id});
    }
  }

  function InState(rows: Rows, ids: set<string>, s: State): set<string> {
    set id | id in ids && id in rows && rows[id].state == s
  }

  lemma {:induction false} WeighRows(w: World, ids: set<string>)
    requires LedgerTells(w) && (forall id | id in w.rows :: AtRest(w.rows[id].state)) && ids <= w.rows.Keys
    ensures
      RowByRow(w.log, ids) ==
      4 * |InState(w.rows, ids, Canonical)| + 3 * |InState(w.rows, ids, Rejected)| + 5 * |InState(w.rows, ids, Revoked)|
  {
    hide LedgerTells, EventsOf;
    if ids != {} {
      var id :| id in ids && RowByRow(w.log, ids) == |EventsOf(w.log, id)| + RowByRow(w.log, ids - {id});
      WeighRows(w, ids - {id});
      RowIsTold(w, id);
      assert AtRest(w.rows[id].state);
      OneInState(w.rows, ids, id, Canonical);
      OneInState(w.rows, ids, id, Rejected);
      OneInState(w.rows, ids, id, Revoked);
    }
  }

  lemma RowIsTold(w: World, id: string)
    requires LedgerTells(w) && id in w.rows
    ensures |EventsOf(w.log, id)| == Steps(w.rows[id].state)
  {
    assert Told(w.log, id, w.rows[id].state);
  }

  lemma OneInState(rows: Rows, ids: set<string>, id: string, s: State)
    requires id in ids && id in rows
    ensures |InState(rows, ids, s)| == |InState(rows, ids - {id}, s)| + if rows[id].state == s then 1 else 0
  {
    var all, less := InState(rows, ids, s), InState(rows, ids - {id}, s);
    if rows[id].state == s {
      assert all == less + {id} && id !in less;
    } else {
      assert all == less;
    }
  }

  /** Between operations a key's audit total is four events for its canonical row, three for each
      rejected and five for each revoked one. */
  lemma AuditTotalCounts(ps: Parsers, ops: seq<Op>, ns: string, key: string)
    requires History(ps, ops)
    ensures
      var w := Exec(ps, ops);
      var ids := KeyRows(w.rows, ns, key);
      |KeyEvents(w.rows, w.log, ns, key)| ==
      4 * |InState(w.rows, ids, Canonical)| + 3 * |InState(w.rows, ids, Rejected)| + 5 * |InState(w.rows, ids, Revoked)|
  {
    var w := Exec(ps, ops);
    HistoriesAreQuiet(ps, ops);
    hide Exec, History, WorldInv;
    CountedTwice(w.log, KeyRows(w.rows, ns, key));
    WeighRows(w, KeyRows(w.rows, ns, key));
  }
}
