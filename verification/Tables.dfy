/** The two tables of internal/store/postgres.go and migrations/, as values.
    A call may be acknowledged, lost before it took effect, or take effect and
    lose its acknowledgement; the caller sees an error in the last two cases. */
module Tables {
  import opened Model

  type Rows = map<string, Parameter>
  type Ledger = seq<Event>

  datatype Fate = Acked | Lost | AckLost

  /** What the outside world does with one call: its fate, and the clock it sees. */
  datatype Call = Call(fate: Fate, now: int)

  // ---------- reads ----------

  predicate IsCanonicalFor(p: Parameter, ns: string, key: string) {
    p.namespace == ns && p.key == key && p.state == Canonical
  }

  /** The row `ORDER BY version DESC LIMIT 1` may return. */
  predicate IsTop(rows: Rows, id: string, ns: string, key: string) {
    && id in rows
    && IsCanonicalFor(rows[id], ns, key)
    && forall other | other in rows ::
         IsCanonicalFor(rows[other], ns, key) ==> rows[other].version <= rows[id].version
  }

  /** GetParameter: the canonical row of a key. */
  ghost function Lookup(rows: Rows, ns: string, key: string): Option<Parameter> {
    if id :| IsTop(rows, id, ns, key) then Some(rows[id]) else None
  }

  /** What the partial unique index on (namespace, key) WHERE state='CANONICAL' maintains. */
  ghost predicate UniqueCanonical(rows: Rows) {
    forall a, b |
      && a in rows && b in rows
      && rows[a].state == Canonical
      && IsCanonicalFor(rows[b], rows[a].namespace, rows[a].key) :: a == b
  }

  lemma LookupFinds(rows: Rows, id: string)
    requires UniqueCanonical(rows)
    requires id in rows && rows[id].state == Canonical
    ensures Lookup(rows, rows[id].namespace, rows[id].key) == Some(rows[id])
  {
    assert IsTop(rows, id, rows[id].namespace, rows[id].key);
  }

  lemma LookupMisses(rows: Rows, ns: string, key: string)
    requires UniqueCanonical(rows)
    requires Lookup(rows, ns, key).None?
    ensures forall id | id in rows :: !IsCanonicalFor(rows[id], ns, key)
  {
    forall id | id in rows ensures !IsCanonicalFor(rows[id], ns, key) {
      if IsCanonicalFor(rows[id], ns, key) {
        LookupFinds(rows, id);
      }
    }
  }

  // ---------- writes ----------

  /** The unique index admits the row in this state. */
  predicate IndexAdmits(rows: Rows, id: string, p: Parameter) {
    p.state == Canonical ==>
      forall other | other in rows :: other != id ==> !IsCanonicalFor(rows[other], p.namespace, p.key)
  }

  /** Primary key, foreign key and index of the INSERT. An empty id is not a uuid. */
  predicate InsertAdmits(rows: Rows, p: Parameter) {
    && p.id != "" && p.id !in rows
    && (p.prev == "" || p.prev in rows)
    && IndexAdmits(rows, p.id, p)
  }

  function Insert(rows: Rows, p: Parameter, c: Call): (r: (Rows, bool)) {
    if c.fate == Lost || !InsertAdmits(rows, p) then (rows, false)
    else (rows[p.id := p], c.fate == Acked)
  }

  function Moved(p: Parameter, s: State, now: int): Parameter {
    p.(state := s, updatedAt := now)
  }

  /** UpdateParameterState. Updating an absent id affects no row and is no error. */
  function Update(rows: Rows, id: string, s: State, c: Call): (r: (Rows, bool)) {
    if c.fate == Lost then (rows, false)
    else if id !in rows then (rows, c.fate == Acked)
    else if !IndexAdmits(rows, id, Moved(rows[id], s, c.now)) then (rows, false)
    else (rows[id := Moved(rows[id], s, c.now)], c.fate == Acked)
  }

  /** AppendEvent: the ledger's foreign key refuses an event of an unknown row. */
  function Append(rows: Rows, log: Ledger, e: Event, c: Call): (r: (Ledger, bool)) {
    if c.fate == Lost || e.parameterId !in rows then (log, false)
    else (log + [e], c.fate == Acked)
  }

  /** The index does its work: no write makes a second canonical row of a key. */
  lemma IndexKeeps(rows: Rows, id: string, p: Parameter)
    requires UniqueCanonical(rows) && IndexAdmits(rows, id, p)
    ensures UniqueCanonical(rows[id := p])
  {
    var rows' := rows[id := p];
    forall a, b |
      && a in rows' && b in rows'
      && rows'[a].state == Canonical
      && IsCanonicalFor(rows'[b], rows'[a].namespace, rows'[a].key)
      ensures a == b
    {
      assert a == id || rows'[a] == rows[a];
      assert b == id || rows'[b] == rows[b];
    }
  }

  lemma UpdateKeepsUnique(rows: Rows, id: string, s: State, c: Call)
    requires UniqueCanonical(rows)
    ensures UniqueCanonical(Update(rows, id, s, c).0)
  {
    if id in rows && IndexAdmits(rows, id, Moved(rows[id], s, c.now)) {
      IndexKeeps(rows, id, Moved(rows[id], s, c.now));
    }
  }

  lemma InsertKeepsUnique(rows: Rows, p: Parameter, c: Call)
    requires UniqueCanonical(rows)
    ensures UniqueCanonical(Insert(rows, p, c).0)
  {
    if InsertAdmits(rows, p) {
      IndexKeeps(rows, p.id, p);
    }
  }

  // ---------- projections of the ledger ----------

  /** All events of one row, oldest first. */
  function EventsOf(log: Ledger, id: string): Ledger {
    if log == [] then []
    else
      var e := log[|log| - 1];
      EventsOf(log[..|log| - 1], id) + (if e.parameterId == id then [e] else [])
  }

  /** Events only the submitting call writes for its own row. */
  predicate IsOwn(kind: EventKind) {
    kind != RevokedEvent && kind != SupersededEvent
  }

  /** The kinds of a row's own events, oldest first. */
  function OwnKinds(log: Ledger, id: string): seq<EventKind> {
    if log == [] then []
    else
      var e := log[|log| - 1];
      OwnKinds(log[..|log| - 1], id) + (if e.parameterId == id && IsOwn(e.kind) then [e.kind] else [])
  }

  function OwnEvents(log: Ledger, id: string): Ledger {
    if log == [] then []
    else
      var e := log[|log| - 1];
      OwnEvents(log[..|log| - 1], id) + (if e.parameterId == id && IsOwn(e.kind) then [e] else [])
  }

  lemma {:induction false} OwnEventsAre(log: Ledger, id: string)
    ensures |OwnEvents(log, id)| == |OwnKinds(log, id)|
    ensures forall i | 0 <= i < |OwnEvents(log, id)| :: OwnEvents(log, id)[i].kind == OwnKinds(log, id)[i]
    ensures forall e | e in OwnEvents(log, id) :: e in log && e.parameterId == id && IsOwn(e.kind)
  {
    if log != [] {
      OwnEventsAre(log[..|log| - 1], id);
    }
  }

  /** How far a row's own events have got; `Broken` once they leave the two legal orders. */
  datatype Stage = Blank | SubmittedOnly | UpToValidated | UpToConsensus | Complete | EndedRejected | Broken

  function NextStage(stage: Stage, kind: EventKind): Stage {
    match (stage, kind)
    case (Blank, SubmittedEvent) => SubmittedOnly
    case (SubmittedOnly, ValidatedEvent) => UpToValidated
    case (UpToValidated, ConsensusReachedEvent) => UpToConsensus
    case (UpToConsensus, PromotedEvent) => Complete
    case (UpToValidated, RejectedEvent) => EndedRejected
    case _ => Broken
  }

  function Progress(log: Ledger, id: string): Stage {
    if log == [] then Blank
    else
      var e := log[|log| - 1];
      var before := Progress(log[..|log| - 1], id);
      if e.parameterId == id && IsOwn(e.kind) then NextStage(before, e.kind) else before
  }

  /** The own events a stage stands for. */
  function Script(stage: Stage): seq<EventKind>
    requires stage != Broken
  {
    match stage
    case Blank => []
    case SubmittedOnly => [SubmittedEvent]
    case UpToValidated => [SubmittedEvent, ValidatedEvent]
    case UpToConsensus => [SubmittedEvent, ValidatedEvent, ConsensusReachedEvent]
    case Complete => [SubmittedEvent, ValidatedEvent, ConsensusReachedEvent, PromotedEvent]
    case EndedRejected => [SubmittedEvent, ValidatedEvent, RejectedEvent]
  }

  /** The legal orders of own events are paths from "". */
  lemma ScriptsConnect(kinds: seq<EventKind>)
    requires kinds <= Script(Complete) || kinds <= Script(EndedRejected)
    ensures kinds != [] ==> kinds[0] == SubmittedEvent
    ensures forall i | 0 < i < |kinds| ::
              Leaves(kinds[i]) == Enters(kinds[i - 1]) && Edge(Leaves(kinds[i]), Enters(kinds[i]))
  {
    var script := if kinds <= Script(Complete) then Script(Complete) else Script(EndedRejected);
    forall i | 0 < i < |kinds|
      ensures Leaves(kinds[i]) == Enters(kinds[i - 1]) && Edge(Leaves(kinds[i]), Enters(kinds[i]))
    {
      assert kinds[i] == script[i] && kinds[i - 1] == script[i - 1];
      assert i == 1 || i == 2 || i == 3;
    }
  }

  /** The stage is a faithful summary: it fixes the own events, their number and their order. */
  lemma {:induction false} ProgressTellsAll(log: Ledger, id: string)
    requires Progress(log, id) != Broken
    ensures OwnKinds(log, id) == Script(Progress(log, id))
  {
    if log != [] {
      ProgressTellsAll(log[..|log| - 1], id);
    }
  }

  lemma OneMore(log: Ledger, e: Event, id: string)
    ensures EventsOf(log + [e], id) == EventsOf(log, id) + (if e.parameterId == id then [e] else [])
    ensures OwnKinds(log + [e], id) ==
            OwnKinds(log, id) + (if e.parameterId == id && IsOwn(e.kind) then [e.kind] else [])
    ensures Progress(log + [e], id) ==
            if e.parameterId == id && IsOwn(e.kind) then NextStage(Progress(log, id), e.kind) else Progress(log, id)
  {
    assert (log + [e])[..|log|] == log;
  }

  lemma NoEvents(log: Ledger, id: string)
    requires forall e | e in log :: e.parameterId != id
    ensures Progress(log, id) == Blank && EventsOf(log, id) == []
  {
    if log != [] {
      NoEvents(log[..|log| - 1], id);
    }
  }
}
