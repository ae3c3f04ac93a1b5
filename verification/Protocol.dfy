/** The calls of internal/ledger/ledger.go and internal/consensus/quorum.go as
    threads: every call to the store, the cache or the channel is one atomic
    step, and nothing ties two steps together (internal/store/store.go:9-11). */
module Protocol {
  import opened Model
  import opened Tables
  import opened CacheKeys
  import Channels

  /** canonicalTTL, in seconds. */
  const TTL: int := 5 * 60

  /** A cached record and the first instant at which it is gone. */
  datatype Entry = Entry(record: Parameter, expires: int)

  datatype World = World(
    rows: Rows,
    log: Ledger,
    cache: map<string, Entry>,
    channel: seq<Event>)

  const EMPTY := World(map[], [], map[], [])

  /** Between the insert of a new row and its evaluation. */
  datatype Announcement = LogSubmitted | Supersede | LogSuperseded | Invalidate

  /** The transitions of Evaluate. Each is an UpdateParameterState and then an AppendEvent. */
  datatype Goal = Validate | Reject | Agree | Promote

  datatype Revocation = MarkRevoked | LogRevoked | Forget

  /** The call sites. */
  datatype Site =
    | SubmitLookup | Create | Announce(at: Announcement)
    | Mark(goal: Goal) | Note(goal: Goal)
    | Refresh | Fill | Broadcast
    | ReadCache | ReadStore | FillCache
    | RevokeLookup | Revoke(step: Revocation)

  datatype Error = NotFound | Io | Invalid

  /** A call in progress: where it is, and the locals it has read. */
  datatype Thread =
    | SubLookup(req: Request)
    | SubCreate(req: Request, version: int, prev: string)
    | SubAnnounce(at: Announcement, req: Request, p: Parameter)
    | SubMark(goal: Goal, p: Parameter)
    | SubNote(goal: Goal, p: Parameter)
    | SubRefresh(p: Parameter)
    | SubFill(p: Parameter, row: Parameter)
    | SubCast(p: Parameter, row: Parameter)
    | SubmitOk(p: Parameter, result: Parameter)
    | GetCache(ns: string, key: string)
    | GetStore(ns: string, key: string)
    | GetFill(ns: string, key: string, rec: Parameter)
    | GetOk(ns: string, key: string, rec: Parameter)
    | RevLookup(ns: string, key: string, actor: string, reason: string)
    | RevAct(step: Revocation, ns: string, key: string, actor: string, reason: string, rec: Parameter)
    | RevokeOk(ns: string, key: string, result: Parameter)
    | Failed(err: Error)

  predicate Initial(t: Thread) {
    t.SubLookup? || t.GetCache? || t.RevLookup?
  }

  predicate Finished(t: Thread) {
    t.SubmitOk? || t.GetOk? || t.RevokeOk? || t.Failed?
  }

  /** The call a running thread makes next. */
  function SiteOf(t: Thread): Site
    requires !Finished(t)
  {
    match t
    case SubLookup(_) => SubmitLookup
    case SubCreate(_, _, _) => Create
    case SubAnnounce(at, _, _) => Announce(at)
    case SubMark(goal, _) => Mark(goal)
    case SubNote(goal, _) => Note(goal)
    case SubRefresh(_) => Refresh
    case SubFill(_, _) => Fill
    case SubCast(_, _) => Broadcast
    case GetCache(_, _) => ReadCache
    case GetStore(_, _) => ReadStore
    case GetFill(_, _, _) => FillCache
    case RevLookup(_, _, _, _) => RevokeLookup
    case RevAct(step, _, _, _, _, _) => Revoke(step)
  }

  function GoalRank(goal: Goal): nat {
    match goal
    case Validate => 9
    case Reject => 7
    case Agree => 7
    case Promote => 5
  }

  /** Steps left at most. */
  function Rank(t: Thread): nat {
    match t
    case SubLookup(_) => 16
    case SubCreate(_, _, _) => 15
    case SubAnnounce(at, _, _) =>
      (match at
        case LogSubmitted => 14
        case Supersede => 13
        case LogSuperseded => 12
        case Invalidate => 11)
    case SubMark(goal, _) => GoalRank(goal) + 1
    case SubNote(goal, _) => GoalRank(goal)
    case SubRefresh(_) => 3
    case SubFill(_, _) => 2
    case SubCast(_, _) => 1
    case GetCache(_, _) => 3
    case GetStore(_, _) => 2
    case GetFill(_, _, _) => 1
    case RevLookup(_, _, _, _) => 4
    case RevAct(step, _, _, _, _, _) =>
      (match step
        case MarkRevoked => 3
        case LogRevoked => 2
        case Forget => 1)
    case _ => 0
  }

  // ---------- the records the code builds ----------

  function NewParameter(req: Request, version: int, prev: string, id: string, now: int): Parameter {
    Parameter(id, req.key, req.value, req.valueType, req.namespace, req.source, req.sourceRef,
              version, prev, Submitted, req.metadata, now, now)
  }

  function SubmittedEntry(req: Request, p: Parameter): (e: Event)
    ensures e.parameterId == p.id && e.kind == SubmittedEvent && Labelled(e)
  {
    Event(p.id, SubmittedEvent, Unset, Submitted, req.actor, "new submission",
          map["source" := req.source, "source_ref" := req.sourceRef], p.createdAt)
  }

  function SupersededEntry(p: Parameter): (e: Event)
    ensures e.parameterId == p.prev && e.kind == SupersededEvent && Labelled(e)
  {
    Event(p.prev, SupersededEvent, Canonical, Revoked, "system", "superseded by version " + p.id,
          map["new_version_id" := p.id], p.createdAt)
  }

  /** The state a transition leaves from. */
  function Source(goal: Goal): State {
    match goal
    case Validate => Submitted
    case Reject => Validating
    case Agree => Validating
    case Promote => ConsensusPending
  }

  function Target(goal: Goal): State {
    match goal
    case Validate => Validating
    case Reject => Rejected
    case Agree => ConsensusPending
    case Promote => Canonical
  }

  function KindOf(goal: Goal): EventKind {
    match goal
    case Validate => ValidatedEvent
    case Reject => RejectedEvent
    case Agree => ConsensusReachedEvent
    case Promote => PromotedEvent
  }

  function ReasonOf(goal: Goal): string {
    match goal
    case Reject => "invalid value"
    case Agree => "simple-quorum"
    case _ => ""
  }

  /** `SimpleQuorum.appendEvent`. */
  function QuorumEntry(p: Parameter, goal: Goal, now: int): (e: Event)
    ensures e.parameterId == p.id && e.kind == KindOf(goal) && Labelled(e)
  {
    Event(p.id, KindOf(goal), Source(goal), Target(goal), "system", ReasonOf(goal),
          map["protocol" := "simple-quorum"], now)
  }

  function RevokedEntry(p: Parameter, actor: string, reason: string, now: int): (e: Event)
    ensures e.parameterId == p.id && e.kind == RevokedEvent && Labelled(e)
  {
    Event(p.id, RevokedEvent, Canonical, Revoked, actor, reason, map[], now)
  }

  function BroadcastEntry(row: Parameter, now: int): Event {
    Event(row.id, PromotedEvent, Unset, row.state, "", "", map[], now)
  }

  /** The entries, written out. */
  lemma SubmittedEntryIs(req: Request, p: Parameter)
    ensures SubmittedEntry(req, p) ==
            Event(p.id, SubmittedEvent, Unset, Submitted, req.actor, "new submission",
                  map["source" := req.source, "source_ref" := req.sourceRef], p.createdAt)
  {
  }

  lemma SupersededEntryIs(p: Parameter)
    ensures SupersededEntry(p) ==
            Event(p.prev, SupersededEvent, Canonical, Revoked, "system", "superseded by version " + p.id,
                  map["new_version_id" := p.id], p.createdAt)
  {
  }

  lemma QuorumEntryIs(p: Parameter, goal: Goal, now: int)
    ensures
      QuorumEntry(p, goal, now) ==
      match goal
      case Validate =>
        Event(p.id, ValidatedEvent, Submitted, Validating, "system", "", map["protocol" := "simple-quorum"], now)
      case Reject =>
        Event(p.id, RejectedEvent, Validating, Rejected, "system", "invalid value",
              map["protocol" := "simple-quorum"], now)
      case Agree =>
        Event(p.id, ConsensusReachedEvent, Validating, ConsensusPending, "system", "simple-quorum",
              map["protocol" := "simple-quorum"], now)
      case Promote =>
        Event(p.id, PromotedEvent, ConsensusPending, Canonical, "system", "", map["protocol" := "simple-quorum"], now)
  {
  }

  lemma RevokedEntryIs(p: Parameter, actor: string, reason: string, now: int)
    ensures RevokedEntry(p, actor, reason, now) ==
            Event(p.id, RevokedEvent, Canonical, Revoked, actor, reason, map[], now)
  {
  }

  lemma BroadcastEntryIs(row: Parameter, now: int)
    ensures BroadcastEntry(row, now) == Event(row.id, PromotedEvent, Unset, row.state, "", "", map[], now)
  {
  }

  // ---------- cache calls ----------

  function CacheGet(cache: map<string, Entry>, ns: string, key: string, c: Call): Option<Parameter> {
    var k := CacheKey(ns, key);
    if c.fate == Acked && k in cache && c.now < cache[k].expires then Some(cache[k].record) else None
  }

  function CacheSet(cache: map<string, Entry>, p: Parameter, c: Call): map<string, Entry> {
    if c.fate == Lost then cache
    else cache[CacheKey(p.namespace, p.key) := Entry(p, c.now + TTL)]
  }

  function CacheDelete(cache: map<string, Entry>, ns: string, key: string, c: Call): map<string, Entry> {
    if c.fate == Lost then cache else cache - {CacheKey(ns, key)}
  }

  // ---------- one step ----------

  /** A call to the store, the cache or the channel. */
  datatype Effect =
    | Read
    | NewRow(p: Parameter)
    | SetState(id: string, s: State)
    | Log(e: Event)
    | Put(rec: Parameter)
    | Drop(ns: string, key: string)
    | Send(e: Event)

  /** The effect of one call, and whether it returned without error. */
  function Perform(w: World, effect: Effect, c: Call): (World, bool) {
    match effect
    case Read => (w, c.fate == Acked)
    case NewRow(p) => var (rows, ok) := Insert(w.rows, p, c); (w.(rows := rows), ok)
    case SetState(id, s) => var (rows, ok) := Update(w.rows, id, s, c); (w.(rows := rows), ok)
    case Log(e) => var (log, ok) := Append(w.rows, w.log, e, c); (w.(log := log), ok)
    case Put(rec) => (w.(cache := CacheSet(w.cache, rec, c)), c.fate == Acked)
    case Drop(ns, key) => (w.(cache := CacheDelete(w.cache, ns, key, c)), c.fate == Acked)
    case Send(e) => (w.(channel := Channels.TrySend(w.channel, e)), true)
  }

  /** The call a thread makes; `newId` is the uuid a Create step draws. */
  function CallOf(t: Thread, now: int, newId: string): Effect
    requires !Finished(t)
  {
    match t
    case SubLookup(_) => Read
    case SubCreate(req, version, prev) => NewRow(NewParameter(req, version, prev, newId, now))
    case SubAnnounce(at, req, p) => AnnounceCall(at, req, p)
    case SubMark(goal, p) => SetState(p.id, Target(goal))
    case SubNote(goal, p) => Log(QuorumEntry(p, goal, now))
    case SubRefresh(_) => Read
    case SubFill(_, row) => Put(row)
    case SubCast(_, row) => Send(BroadcastEntry(row, now))
    case GetCache(_, _) => Read
    case GetStore(_, _) => Read
    case GetFill(_, _, rec) => Put(rec)
    case RevLookup(_, _, _, _) => Read
    case RevAct(step, ns, key, actor, reason, rec) => RevokeCall(step, ns, key, actor, reason, rec, now)
  }

  function AnnounceCall(at: Announcement, req: Request, p: Parameter): Effect {
    match at
    case LogSubmitted => Log(SubmittedEntry(req, p))
    case Supersede => SetState(p.prev, Revoked)
    case LogSuperseded => Log(SupersededEntry(p))
    case Invalidate => Drop(req.namespace, req.key)
  }

  function RevokeCall(step: Revocation, ns: string, key: string, actor: string, reason: string, rec: Parameter,
                      now: int): Effect {
    match step
    case MarkRevoked => SetState(rec.id, Revoked)
    case LogRevoked => Log(RevokedEntry(rec, actor, reason, now))
    case Forget => Drop(ns, key)
  }

  /** Where the thread goes once the call has returned (`ok`: without error). An
      error the code drops (`_ =`) does not matter here either. */
  ghost function Next(ps: Parsers, w: World, t: Thread, c: Call, newId: string, ok: bool): Thread
    requires !Finished(t)
  {
    match t
    case SubLookup(req) =>
      if !ok then Failed(Io)
      else (match Lookup(w.rows, req.namespace, req.key)
        case Some(existing) => SubCreate(req, existing.version + 1, existing.id)
        case None => SubCreate(req, 1, ""))
    case SubCreate(req, version, prev) =>
      if ok then SubAnnounce(LogSubmitted, req, NewParameter(req, version, prev, newId, c.now)) else Failed(Io)
    case SubAnnounce(at, req, p) => AnnounceNext(at, req, p, ok)
    case SubMark(goal, p) =>
      // the state write of a rejection is `_ =`: its error is dropped
      if ok || goal == Reject then SubNote(goal, p) else Failed(Io)
    case SubNote(goal, p) => if ok || goal == Reject then NoteNext(ps, goal, p) else Failed(Io)
    case SubRefresh(p) =>
      // the final GetParameterByID: on an error Submit returns what it built
      if !ok || p.id !in w.rows then SubmitOk(p, p.(state := Canonical))
      else if w.rows[p.id].state == Canonical then SubFill(p, w.rows[p.id])
      else SubCast(p, w.rows[p.id])
    case SubFill(p, row) => SubCast(p, row)
    case SubCast(p, row) => SubmitOk(p, row)
    case GetCache(ns, key) =>
      (match CacheGet(w.cache, ns, key, c)
        case Some(rec) => GetOk(ns, key, rec)
        case None => GetStore(ns, key))
    case GetStore(ns, key) =>
      if !ok then Failed(Io)
      else (match Lookup(w.rows, ns, key)
        case Some(rec) => GetFill(ns, key, rec)
        case None => Failed(NotFound))
    case GetFill(ns, key, rec) => GetOk(ns, key, rec)
    case RevLookup(ns, key, actor, reason) =>
      if !ok then Failed(Io)
      else (match Lookup(w.rows, ns, key)
        case Some(rec) => RevAct(MarkRevoked, ns, key, actor, reason, rec)
        case None => Failed(NotFound))
    case RevAct(step, ns, key, actor, reason, rec) =>
      match step
      case MarkRevoked => if ok then RevAct(LogRevoked, ns, key, actor, reason, rec) else Failed(Io)
      case LogRevoked => if ok then RevAct(Forget, ns, key, actor, reason, rec) else Failed(Io)
      case Forget => RevokeOk(ns, key, rec.(state := Revoked))
  }

  function AnnounceNext(at: Announcement, req: Request, p: Parameter, ok: bool): Thread {
    match at
    case LogSubmitted =>
      if !ok then Failed(Io) else if p.prev != "" then SubAnnounce(Supersede, req, p) else SubMark(Validate, p)
    // the three calls that retire the old version are `_ =`: their errors are dropped
    case Supersede => SubAnnounce(LogSuperseded, req, p)
    case LogSuperseded => SubAnnounce(Invalidate, req, p)
    case Invalidate => SubMark(Validate, p)
  }

  function NoteNext(ps: Parsers, goal: Goal, p: Parameter): Thread {
    match goal
    case Validate => SubMark(if ValidParameter(ps, p) then Agree else Reject, p)
    case Reject => Failed(Invalid)
    case Agree => SubMark(Promote, p)
    case Promote => SubRefresh(p)
  }

  /** One atomic step: the thread makes its next call, with the fate and clock `c`. */
  ghost function Step(ps: Parsers, w: World, t: Thread, c: Call, newId: string): (r: (World, Thread))
    requires !Finished(t)
    ensures Rank(r.1) < Rank(t)
  {
    var (w', ok) := Perform(w, CallOf(t, c.now, newId), c);
    (w', Next(ps, w, t, c, newId, ok))
  }

  // ---------- a call that runs alone ----------

  /** Fate and clock of each call site: no site is visited twice by one operation. */
  type Env = Site -> Call

  /** The thread runs to its end with nothing in between. */
  ghost function Solo(ps: Parsers, w: World, t: Thread, env: Env, newId: string): (r: (World, Thread))
    ensures Finished(r.1)
    decreases Rank(t)
  {
    if Finished(t) then (w, t)
    else
      var (w', t') := Step(ps, w, t, env(SiteOf(t)), newId);
      Solo(ps, w', t', env, newId)
  }
}
