/** The classes of internal/store, internal/cache, internal/consensus and internal/ledger. The fate
    and clock of each call site are inputs; each method is proved to run its thread of `Protocol`. */
module Service {
  import opened Model
  import opened Tables
  import opened CacheKeys
  import opened Protocol
  import opened Alone
  import opened Sequential
  import opened Refinement
  import Audit
  import Channels

  /** internal/store/postgres.go. */
  class PostgresStore {
    var rows: Rows
    var ledger: Ledger

    /** The partial unique index holds. */
    ghost predicate Valid()
      reads this
    {
      UniqueCanonical(rows)
    }

    constructor ()
      ensures Valid() && rows == map[] && ledger == []
    {
      rows, ledger := map[], [];
    }

    method CreateParameter(p: Parameter, c: Call) returns (ok: bool)
      requires Valid()
      modifies this`rows
      ensures Valid()
      ensures (rows, ok) == Insert(old(rows), p, c)
      ensures
        var admitted := p.id != "" && p.id !in old(rows) && (p.prev == "" || p.prev in old(rows))
                        && (p.state == Canonical ==> forall id | id in old(rows) :: !IsCanonicalFor(old(rows)[id], p.namespace, p.key));
        && rows == (if admitted && c.fate != Lost then old(rows)[p.id := p] else old(rows))
        && (ok <==> admitted && c.fate == Acked)
    {
      InsertKeepsUnique(rows, p, c);
      if c.fate == Lost || !InsertAdmits(rows, p) {
        return false;
      }
      rows := rows[p.id := p];
      ok := c.fate == Acked;
    }

    method GetParameter(ns: string, key: string, c: Call) returns (r: Outcome)
      requires Valid()
      ensures
        r == if c.fate != Acked then Refused(Io)
             else match Lookup(rows, ns, key)
               case Some(p) => Returned(p)
               case None => Refused(NotFound)
    {
      if c.fate != Acked {
        return Refused(Io);
      }
      if id :| id in rows && IsTop(rows, id, ns, key) {
        LookupFinds(rows, id);
        r := Returned(rows[id]);
      } else {
        r := Refused(NotFound);
      }
    }

    method GetParameterByID(id: string, c: Call) returns (r: Outcome)
      ensures
        r == if c.fate != Acked then Refused(Io)
             else if id in rows then Returned(rows[id]) else Refused(NotFound)
    {
      if c.fate != Acked {
        return Refused(Io);
      }
      if id !in rows {
        return Refused(NotFound);
      }
      r := Returned(rows[id]);
    }

    method UpdateParameterState(id: string, s: State, c: Call) returns (ok: bool)
      requires Valid()
      modifies this`rows
      ensures Valid()
      ensures (rows, ok) == Update(old(rows), id, s, c)
    {
      UpdateKeepsUnique(rows, id, s, c);
      if c.fate == Lost {
        return false;
      }
      if id in rows {
        var row := Moved(rows[id], s, c.now);
        if !IndexAdmits(rows, id, row) {
          return false;
        }
        rows := rows[id := row];
      }
      ok := c.fate == Acked;
    }

    method AppendEvent(e: Event, c: Call) returns (ok: bool)
      modifies this`ledger
      ensures (ledger, ok) == Append(rows, old(ledger), e, c)
    {
      if c.fate == Lost || e.parameterId !in rows {
        return false;
      }
      ledger := ledger + [e];
      ok := c.fate == Acked;
    }

    /** Two queries, the count and the page; Postgres refuses a negative LIMIT or OFFSET. */
    method QueryAudit(ns: string, key: string, limit: int, offset: int, count: Call, query: Call)
      returns (ok: bool, events: seq<Event>, total: nat)
      ensures ok <==> count.fate == Acked && query.fate == Acked && limit >= 0 && offset >= 0
      ensures !ok ==> events == [] && total == 0
      ensures ok ==> total == |Audit.KeyEvents(rows, ledger, ns, key)|
      ensures ok ==> events == Audit.Page(Audit.Trail(rows, ledger, ns, key), limit, offset)
    {
      events, total := [], 0;
      if count.fate != Acked || query.fate != Acked || limit < 0 || offset < 0 {
        return false, [], 0;
      }
      total := |Audit.KeyEvents(rows, ledger, ns, key)|;
      var result := Audit.Trail(rows, ledger, ns, key);
      var next, end := Audit.Min(offset, |result|), Audit.Min(offset + limit, |result|);
      while next < end
        invariant Audit.Min(offset, |result|) <= next <= end
        invariant events == result[Audit.Min(offset, |result|)..next]
      {
        events := events + [result[next]];
        next := next + 1;
      }
      ok := true;
    }
  }

  /** internal/cache/redis.go. */
  class Cache {
    var entries: map<string, Entry>

    constructor ()
      ensures entries == map[]
    {
      entries := map[];
    }

    method GetCanonical(ns: string, key: string, c: Call) returns (r: Option<Parameter>)
      ensures r == CacheGet(entries, ns, key, c)
    {
      var k := CacheKey(ns, key);
      if c.fate != Acked || k !in entries || c.now >= entries[k].expires {
        return None;
      }
      r := Some(entries[k].record);
    }

    method SetCanonical(p: Parameter, c: Call) returns (ok: bool)
      modifies this
      ensures entries == CacheSet(old(entries), p, c) && ok == (c.fate == Acked)
    {
      if c.fate != Lost {
        entries := entries[CacheKey(p.namespace, p.key) := Entry(p, c.now + TTL)];
      }
      ok := c.fate == Acked;
    }

    method InvalidateCanonical(ns: string, key: string, c: Call) returns (ok: bool)
      modifies this
      ensures entries == CacheDelete(old(entries), ns, key, c) && ok == (c.fate == Acked)
    {
      if c.fate != Lost {
        entries := entries - {CacheKey(ns, key)};
      }
      ok := c.fate == Acked;
    }

    /** Redis drops an entry, at its expiry or before. */
    method Evict(entry: string)
      modifies this
      ensures entries == old(entries) - {entry}
    {
      entries := entries - {entry};
    }
  }

  /** The channel of internal/ledger/ledger.go. */
  class EventChannel {
    var buffer: seq<Event>

    constructor ()
      ensures buffer == []
    {
      buffer := [];
    }

    method TrySend(e: Event)
      modifies this
      ensures buffer == Channels.TrySend(old(buffer), e)
    {
      if |buffer| < Channels.CAPACITY {
        buffer := buffer + [e];
      }
    }

    /** A receive; on an empty channel the receiver would block. */
    method Receive() returns (e: Option<Event>)
      modifies this
      ensures old(buffer) == [] ==> e == None && buffer == []
      ensures old(buffer) != [] ==> e.Some? && [e.value] + buffer == old(buffer)
    {
      if buffer == [] {
        return None;
      }
      e := Some(buffer[0]);
      buffer := buffer[1..];
    }

    /** A send or a receive of somebody else; `h` is the channel's history so far. */
    method Perform(op: Channels.ChannelOp, ghost h: Channels.History)
      requires h.buffer == buffer
      modifies this
      ensures buffer == Channels.After(h, op).buffer
    {
      match op
      case Send(e) => TrySend(e);
      case Receive(_) => var _ := Receive();
    }
  }

  /** `validateValueType` of internal/consensus/validate.go: does it return nil? */
  predicate ValidateValueType(ps: Parsers, value: string, valueType: ValueType)
    ensures ValidateValueType(ps, value, valueType) <==> ValidValue(ps, value, valueType)
  {
    if valueType == TYPE_STRING then true
    else if valueType == TYPE_NUMBER then ps.number(value)
    else if valueType == TYPE_BOOL then !(value != "true" && value != "false")
    else if valueType == TYPE_JSON then ps.json(value)
    else if valueType == TYPE_TIMESTAMP then ps.timestamp(value)
    else if valueType == TYPE_SEMVER then |value| != 0
    else false
  }

  /** internal/consensus/quorum.go. */
  class SimpleQuorum {
    const store: PostgresStore
    const ps: Parsers

    constructor (store: PostgresStore, ps: Parsers)
      ensures this.store == store && this.ps == ps
    {
      this.store, this.ps := store, ps;
    }

    /** `appendEvent`. */
    method AppendEvent(p: Parameter, kind: EventKind, from: State, to: State, actor: string, reason: string, c: Call)
      returns (ok: bool)
      modifies store`ledger
      ensures
        (store.ledger, ok) ==
        Append(store.rows, old(store.ledger),
               Event(p.id, kind, from, to, actor, reason, map["protocol" := "simple-quorum"], c.now), c)
    {
      ok := store.AppendEvent(Event(p.id, kind, from, to, actor, reason, map["protocol" := "simple-quorum"], c.now), c);
    }

    /** One transition of Evaluate, whose errors are checked: the state write and its ledger entry. */
    method Transit(ghost goal: Goal, mark: Call, note: Call, p: Parameter, kind: EventKind, from: State, to: State,
                   reason: string, ghost env: Env, ghost cache: map<string, Entry>, ghost channel: seq<Event>)
      returns (ok: bool)
      requires store.Valid() && goal != Reject && mark == env(Mark(goal)) && note == env(Note(goal))
      requires kind == KindOf(goal) && from == Source(goal) && to == Target(goal) && reason == ReasonOf(goal)
      modifies store
      ensures store.Valid()
      ensures
        Solo(ps, World(old(store.rows), old(store.ledger), cache, channel), SubMark(goal, p), env, p.id) ==
        Solo(ps, World(store.rows, store.ledger, cache, channel),
             if ok then NoteNext(ps, goal, p) else Failed(Io), env, p.id)
    {
      hide Solo, Update, Append, QuorumEntry, NoteNext, UniqueCanonical;
      ghost var w0 := World(store.rows, store.ledger, cache, channel);
      Unfold(ps, w0, SubMark(goal, p), env, p.id);
      ok := store.UpdateParameterState(p.id, to, mark);
      if !ok {
        return;
      }
      ghost var w1 := World(store.rows, store.ledger, cache, channel);
      Unfold(ps, w1, SubNote(goal, p), env, p.id);
      QuorumEntryIs(p, goal, note.now);
      ok := AppendEvent(p, kind, from, to, "system", reason, note);
    }

    /** Runs the evaluation; `None` is no error, and then the final state is CANONICAL. */
    method Evaluate(p: Parameter, env: Env, ghost cache: map<string, Entry>, ghost channel: seq<Event>)
      returns (err: Option<Error>)
      requires store.Valid()
      modifies store
      ensures store.Valid()
      ensures
        Solo(ps, World(old(store.rows), old(store.ledger), cache, channel), SubMark(Validate, p), env, p.id) ==
        Solo(ps, World(store.rows, store.ledger, cache, channel),
             if err.None? then SubRefresh(p) else Failed(err.value), env, p.id)
    {
      hide Solo, Update, Append, QuorumEntry, UniqueCanonical, ValidValue;
      var ok := Transit(Validate, env(Mark(Validate)), env(Note(Validate)), p, ValidatedEvent, Submitted, Validating, "",
                        env, cache, channel);
      if !ok {
        return Some(Io);
      }
      if !ValidateValueType(ps, p.value, p.valueType) {
        ghost var w0 := World(store.rows, store.ledger, cache, channel);
        Unfold(ps, w0, SubMark(Reject, p), env, p.id);
        var _ := store.UpdateParameterState(p.id, Rejected, env(Mark(Reject)));
        ghost var w1 := World(store.rows, store.ledger, cache, channel);
        Unfold(ps, w1, SubNote(Reject, p), env, p.id);
        QuorumEntryIs(p, Reject, env(Note(Reject)).now);
        var _ := AppendEvent(p, RejectedEvent, Validating, Rejected, "system", "invalid value", env(Note(Reject)));
        return Some(Invalid);
      }
      ok := Transit(Agree, env(Mark(Agree)), env(Note(Agree)), p, ConsensusReachedEvent, Validating, ConsensusPending,
                    "simple-quorum", env, cache, channel);
      if !ok {
        return Some(Io);
      }
      ok := Transit(Promote, env(Mark(Promote)), env(Note(Promote)), p, PromotedEvent, ConsensusPending, Canonical, "",
                    env, cache, channel);
      if !ok {
        return Some(Io);
      }
      err := None;
    }
  }

  /** internal/ledger/ledger.go. */
  class LedgerService {
    const store: PostgresStore
    const cache: Cache
    const quorum: SimpleQuorum
    const events: EventChannel

    ghost predicate Valid()
      reads store
    {
      store.Valid() && quorum.store == store
    }

    ghost function Snapshot(): World
      reads store, cache, events
    {
      World(store.rows, store.ledger, cache.entries, events.buffer)
    }

    constructor (store: PostgresStore, cache: Cache, quorum: SimpleQuorum)
      requires store.Valid() && quorum.store == store
      ensures Valid() && this.store == store && this.cache == cache && this.quorum == quorum
      ensures fresh(events) && events.buffer == []
    {
      this.store, this.cache, this.quorum := store, cache, quorum;
      events := new EventChannel();
    }

    /** Submit runs the whole thread that starts at `SubLookup`, with the same failures and the
        same answer. */
    method Submit(req: Request, newId: string, env: Env) returns (r: Outcome)
      requires Valid()
      modifies store, cache, events
      ensures Valid()
      ensures
        var (w', t) := Solo(quorum.ps, old(Snapshot()), SubLookup(req), env, newId);
        Snapshot() == w' && r == OutcomeOf(t)
    {
      hide Solo, Lookup, Insert, Update, Append, SubmittedEntry, UniqueCanonical, CacheSet, Channels.TrySend,
        BroadcastEntry;
      ghost var ps := quorum.ps;
      Unfold(ps, Snapshot(), SubLookup(req), env, newId);
      var found := store.GetParameter(req.namespace, req.key, env(SubmitLookup));
      var version, prev := 1, "";
      match found {
        case Returned(existing) => version, prev := existing.version + 1, existing.id;
        case Refused(NotFound) =>
        case Refused(e) =>
          FinishedAlone(ps, Snapshot(), Failed(e), env, newId);
          return found;
      }
      var now := env(Create).now;
      var p := Parameter(newId, req.key, req.value, req.valueType, req.namespace, req.source, req.sourceRef,
                         version, prev, Submitted, req.metadata, now, now);
      Unfold(ps, Snapshot(), SubCreate(req, version, prev), env, newId);
      var ok := store.CreateParameter(p, env(Create));
      if !ok {
        FinishedAlone(ps, Snapshot(), Failed(Io), env, newId);
        return Refused(Io);
      }
      Unfold(ps, Snapshot(), SubAnnounce(LogSubmitted, req, p), env, newId);
      var submitted := Event(p.id, SubmittedEvent, Unset, Submitted, req.actor, "new submission",
                             map["source" := req.source, "source_ref" := req.sourceRef], now);
      SubmittedEntryIs(req, p);
      ok := store.AppendEvent(submitted, env(Announce(LogSubmitted)));
      if !ok {
        FinishedAlone(ps, Snapshot(), Failed(Io), env, newId);
        return Refused(Io);
      }
      if prev != "" {
        Retire(req, p, env);
      }
      var err := quorum.Evaluate(p, env, cache.entries, events.buffer);
      if err.Some? {
        FinishedAlone(ps, Snapshot(), Failed(err.value), env, newId);
        return Refused(err.value);
      }
      r := Conclude(p, env);
    }

    /** The block of Submit that supersedes the old version; its errors are dropped. */
    method Retire(req: Request, p: Parameter, env: Env)
      requires Valid()
      modifies store, cache
      ensures Valid()
      ensures
        Solo(quorum.ps, old(Snapshot()), SubAnnounce(Supersede, req, p), env, p.id) ==
        Solo(quorum.ps, Snapshot(), SubMark(Validate, p), env, p.id)
    {
      hide Solo, Update, Append, SupersededEntry, UniqueCanonical, CacheDelete;
      ghost var ps := quorum.ps;
      Unfold(ps, Snapshot(), SubAnnounce(Supersede, req, p), env, p.id);
      var _ := store.UpdateParameterState(p.prev, Revoked, env(Announce(Supersede)));
      Unfold(ps, Snapshot(), SubAnnounce(LogSuperseded, req, p), env, p.id);
      var superseded := Event(p.prev, SupersededEvent, Canonical, Revoked, "system", "superseded by version " + p.id,
                              map["new_version_id" := p.id], p.createdAt);
      SupersededEntryIs(p);
      var _ := store.AppendEvent(superseded, env(Announce(LogSuperseded)));
      Unfold(ps, Snapshot(), SubAnnounce(Invalidate, req, p), env, p.id);
      var _ := cache.InvalidateCanonical(req.namespace, req.key, env(Announce(Invalidate)));
    }

    /** The end of Submit: read the row back, cache it if it is canonical, broadcast it. */
    method Conclude(p: Parameter, env: Env) returns (r: Outcome)
      modifies cache, events
      ensures
        var (w', t) := Solo(quorum.ps, old(Snapshot()), SubRefresh(p), env, p.id);
        Snapshot() == w' && r == OutcomeOf(t)
    {
      hide Solo, CacheSet, Channels.TrySend, BroadcastEntry;
      ghost var ps := quorum.ps;
      Unfold(ps, Snapshot(), SubRefresh(p), env, p.id);
      var found := store.GetParameterByID(p.id, env(Refresh));
      if found.Refused? {
        var unread := p.(state := Canonical);
        FinishedAlone(ps, Snapshot(), SubmitOk(p, unread), env, p.id);
        return Returned(unread);
      }
      var row := found.rec;
      if row.state == Canonical {
        Unfold(ps, Snapshot(), SubFill(p, row), env, p.id);
        var _ := cache.SetCanonical(row, env(Fill));
      }
      Unfold(ps, Snapshot(), SubCast(p, row), env, p.id);
      BroadcastEntryIs(row, env(Broadcast).now);
      events.TrySend(Event(row.id, PromotedEvent, Unset, row.state, "", "", map[], env(Broadcast).now));
      FinishedAlone(ps, Snapshot(), SubmitOk(p, row), env, p.id);
      r := Returned(row);
    }

    method Get(ns: string, key: string, env: Env) returns (r: Outcome)
      requires Valid()
      modifies cache
      ensures Valid()
      ensures
        var (w', t) := Solo(quorum.ps, old(Snapshot()), GetCache(ns, key), env, "");
        Snapshot() == w' && r == OutcomeOf(t)
    {
      hide Solo, Lookup, CacheGet, CacheSet, UniqueCanonical;
      ghost var ps := quorum.ps;
      Unfold(ps, Snapshot(), GetCache(ns, key), env, "");
      var hit := cache.GetCanonical(ns, key, env(ReadCache));
      if hit.Some? {
        FinishedAlone(ps, Snapshot(), GetOk(ns, key, hit.value), env, "");
        return Returned(hit.value);
      }
      Unfold(ps, Snapshot(), GetStore(ns, key), env, "");
      r := store.GetParameter(ns, key, env(ReadStore));
      if r.Refused? {
        FinishedAlone(ps, Snapshot(), Failed(r.err), env, "");
        return;
      }
      Unfold(ps, Snapshot(), GetFill(ns, key, r.rec), env, "");
      var _ := cache.SetCanonical(r.rec, env(FillCache));
      FinishedAlone(ps, Snapshot(), GetOk(ns, key, r.rec), env, "");
    }

    method Revoke(ns: string, key: string, actor: string, reason: string, env: Env) returns (r: Outcome)
      requires Valid()
      modifies store, cache
      ensures Valid()
      ensures
        var (w', t) := Solo(quorum.ps, old(Snapshot()), RevLookup(ns, key, actor, reason), env, "");
        Snapshot() == w' && r == OutcomeOf(t)
    {
      hide Solo, Lookup, Update, Append, RevokedEntry, CacheDelete, UniqueCanonical;
      ghost var ps := quorum.ps;
      Unfold(ps, Snapshot(), RevLookup(ns, key, actor, reason), env, "");
      r := store.GetParameter(ns, key, env(RevokeLookup));
      if r.Refused? {
        FinishedAlone(ps, Snapshot(), Failed(r.err), env, "");
        return;
      }
      var p := r.rec;
      Unfold(ps, Snapshot(), RevAct(MarkRevoked, ns, key, actor, reason, p), env, "");
      var ok := store.UpdateParameterState(p.id, Revoked, env(Site.Revoke(MarkRevoked)));
      if !ok {
        FinishedAlone(ps, Snapshot(), Failed(Io), env, "");
        return Refused(Io);
      }
      Unfold(ps, Snapshot(), RevAct(LogRevoked, ns, key, actor, reason, p), env, "");
      var c := env(Site.Revoke(LogRevoked));
      RevokedEntryIs(p, actor, reason, c.now);
      ok := store.AppendEvent(Event(p.id, RevokedEvent, Canonical, Revoked, actor, reason, map[], c.now), c);
      if !ok {
        FinishedAlone(ps, Snapshot(), Failed(Io), env, "");
        return Refused(Io);
      }
      Unfold(ps, Snapshot(), RevAct(Forget, ns, key, actor, reason, p), env, "");
      var _ := cache.InvalidateCanonical(ns, key, env(Site.Revoke(Forget)));
      r := Returned(p.(state := Revoked));
      FinishedAlone(ps, Snapshot(), RevokeOk(ns, key, r.rec), env, "");
    }

    method Serve(op: Op) returns (answer: Outcome)
      requires Valid()
      modifies store, cache, events
      ensures Valid()
      ensures
        var (w', t) := Do(quorum.ps, old(Snapshot()), op);
        Snapshot() == w' && answer == OutcomeOf(t)
    {
      hide Solo;
      match op
      case Submit(req, id, env) => answer := Submit(req, id, env);
      case Get(ns, key, env) => answer := Get(ns, key, env);
      case Revoking(ns, key, actor, reason, env) => answer := Revoke(ns, key, actor, reason, env);
      case Expire(entry) =>
        cache.Evict(entry);
        answer := Refused(NotFound);
    }

    /** Serving a history on a new service: the state and every answer are those of `Sequential`, so that
        what is proved of histories holds of these objects. */
    method ServeAll(ops: seq<Op>) returns (answers: seq<Outcome>)
      requires Valid() && Snapshot() == EMPTY
      modifies store, cache, events
      ensures Valid() && Snapshot() == Exec(quorum.ps, ops)
      ensures |answers| == |ops|
      ensures forall i | 0 <= i < |ops| ::
                answers[i] == OutcomeOf(Do(quorum.ps, Exec(quorum.ps, ops[..i]), ops[i]).1)
    {
      hide Do, OutcomeOf, Exec;
      answers := [];
      var n := 0;
      NothingServedYet(quorum.ps);
      while n < |ops|
        invariant 0 <= n <= |ops| && |answers| == n
        invariant Valid() && Snapshot() == Exec(quorum.ps, ops[..n])
        invariant forall i | 0 <= i < n ::
                    answers[i] == OutcomeOf(Do(quorum.ps, Exec(quorum.ps, ops[..i]), ops[i]).1)
      {
        OneMoreServed(quorum.ps, ops, n);
        var answer := Serve(ops[n]);
        answers := answers + [answer];
        n := n + 1;
      }
      assert ops[..n] == ops;
    }

    /** A limit of zero or less means 50. */
    method QueryAudit(ns: string, key: string, limit: int, offset: int, count: Call, query: Call)
      returns (ok: bool, trail: seq<Event>, total: nat)
      ensures ok <==> count.fate == Acked && query.fate == Acked && offset >= 0
      ensures !ok ==> trail == [] && total == 0
      ensures ok ==> total == |Audit.Trail(store.rows, store.ledger, ns, key)|
      ensures ok ==>
        trail == Audit.Page(Audit.Trail(store.rows, store.ledger, ns, key), if limit <= 0 then 50 else limit, offset)
    {
      Audit.TrailIsTheAudit(store.rows, store.ledger, ns, key);
      var wanted := limit;
      if wanted <= 0 {
        wanted := 50;
      }
      ok, trail, total := store.QueryAudit(ns, key, wanted, offset, count, query);
    }
  }

  lemma NothingServedYet(ps: Parsers)
    ensures Exec(ps, []) == EMPTY
  {
  }

  lemma OneMoreServed(ps: Parsers, ops: seq<Op>, n: nat)
    requires n < |ops|
    ensures Exec(ps, ops[..n + 1]) == Do(ps, Exec(ps, ops[..n]), ops[n]).0
  {
    assert ops[..n + 1][..n] == ops[..n];
    hide Do;
  }

  // ---------- Watch ----------

  datatype Choice = Done | Take(sent: bool)

  /** One round of the loop in `Watch`: what other senders and watchers do to the channel first, and then
      whether the context ends or an event is taken, if there is one, and the stream takes it or fails. */
  datatype Turn = Turn(others: seq<Channels.ChannelOp>, choice: Choice)

  /** All that others do during some turns. */
  function Others(turns: seq<Turn>): seq<Channels.ChannelOp> {
    if turns == [] then [] else Others(turns[..|turns| - 1]) + turns[|turns| - 1].others
  }

  /** The operations that are not receives of this watcher. */
  function NotBy(me: nat, ops: seq<Channels.ChannelOp>): seq<Channels.ChannelOp> {
    if ops == [] then []
    else
      var op := ops[|ops| - 1];
      NotBy(me, ops[..|ops| - 1]) + (if op == Channels.Receive(me) then [] else [op])
  }

  lemma OneMoreNotBy(me: nat, ops: seq<Channels.ChannelOp>, op: Channels.ChannelOp)
    ensures NotBy(me, ops + [op]) == NotBy(me, ops) + (if op == Channels.Receive(me) then [] else [op])
  {
    assert (ops + [op])[..|ops|] == ops;
  }

  /** What others do between two rounds. */
  method Interfere(channel: EventChannel, me: nat, others: seq<Channels.ChannelOp>, ghost h: Channels.History,
                   ghost before: seq<Channels.ChannelOp>)
    returns (ghost after: seq<Channels.ChannelOp>)
    requires Channels.Receive(me) !in others && channel.buffer == Channels.From(h, before).buffer
    modifies channel
    ensures channel.buffer == Channels.From(h, after).buffer
    ensures NotBy(me, after) == NotBy(me, before) + others
    ensures Channels.StreamOf(Channels.From(h, after).streams, me) == Channels.StreamOf(Channels.From(h, before).streams, me)
  {
    after := before;
    var i := 0;
    hide Channels.From, NotBy;
    assert NotBy(me, before) + others[..0] == NotBy(me, before);
    while i < |others|
      invariant 0 <= i <= |others|
      invariant channel.buffer == Channels.From(h, after).buffer
      invariant NotBy(me, after) == NotBy(me, before) + others[..i]
      invariant Channels.StreamOf(Channels.From(h, after).streams, me) ==
                Channels.StreamOf(Channels.From(h, before).streams, me)
    {
      Channels.OneMoreOp(h, after, others[i]);
      OneMoreNotBy(me, after, others[i]);
      channel.Perform(others[i], Channels.From(h, after));
      after := after + [others[i]];
      assert others[..i + 1] == others[..i] + [others[i]];
      i := i + 1;
    }
    assert others[..i] == others;
  }

  /** internal/api/handler.go: the receive loop of one watcher, while others send and receive as they like, for
      as long as `turns` lasts. The events it takes off the channel, and nothing else, are its stream, in order;
      only an event whose send fails is lost, and that ends the loop. */
  method Watch(channel: EventChannel, me: nat, turns: seq<Turn>, ghost h: Channels.History)
    returns (stream: seq<Event>, lost: Option<Event>, ghost ops: seq<Channels.ChannelOp>, used: nat)
    requires channel.buffer == h.buffer
    requires forall turn | turn in turns :: Channels.Receive(me) !in turn.others
    modifies channel
    ensures channel.buffer == Channels.From(h, ops).buffer
    ensures used <= |turns| && NotBy(me, ops) == Others(turns[..used])
    ensures Channels.StreamOf(Channels.From(h, ops).streams, me) ==
            Channels.StreamOf(h.streams, me) + stream + (if lost.Some? then [lost.value] else [])
    ensures lost.Some? ==> used > 0 && turns[used - 1].choice == Take(false)
    ensures lost.None? ==> used == |turns| || (used > 0 && turns[used - 1].choice == Done)
  {
    stream, lost, ops, used := [], None, [], 0;
    hide Channels.From, Channels.After, NotBy, Others, Channels.StreamOf;
    NothingTakenYet(h, me, turns);
    while used < |turns|
      invariant 0 <= used <= |turns| && lost == None
      invariant channel.buffer == Channels.From(h, ops).buffer
      invariant NotBy(me, ops) == Others(turns[..used])
      invariant Channels.StreamOf(Channels.From(h, ops).streams, me) == Channels.StreamOf(h.streams, me) + stream
    {
      var turn := turns[used];
      OneMoreTurn(turns, used);
      ops := Interfere(channel, me, turn.others, h, ops);
      used := used + 1;
      if turn.choice == Done {
        return;
      }
      OneReceived(h, ops, me);
      ops := ops + [Channels.Receive(me)];
      var e := channel.Receive();
      if e.Some? {
        if !turn.choice.sent {
          lost := e;
          return;
        }
        stream := stream + [e.value];
      }
    }
  }

  lemma NothingTakenYet(h: Channels.History, me: nat, turns: seq<Turn>)
    ensures Channels.From(h, []) == h && NotBy(me, []) == Others(turns[..0]) == []
    ensures Channels.StreamOf(h.streams, me) == Channels.StreamOf(h.streams, me) + []
  {
  }

  lemma OneMoreTurn(turns: seq<Turn>, i: nat)
    requires i < |turns|
    ensures Others(turns[..i + 1]) == Others(turns[..i]) + turns[i].others
  {
    assert turns[..i + 1][..i] == turns[..i];
  }

  /** One receive of this watcher. */
  lemma OneReceived(h: Channels.History, ops: seq<Channels.ChannelOp>, me: nat)
    ensures
      var before, after := Channels.From(h, ops), Channels.From(h, ops + [Channels.Receive(me)]);
      && NotBy(me, ops + [Channels.Receive(me)]) == NotBy(me, ops)
      && (before.buffer == [] ==> after == before)
      && (before.buffer != [] ==>
            && after.buffer == before.buffer[1..]
            && Channels.StreamOf(after.streams, me) == Channels.StreamOf(before.streams, me) + [before.buffer[0]])
  {
    hide Channels.From;
    Channels.OneMoreOp(h, ops, Channels.Receive(me));
    OneMoreNotBy(me, ops, Channels.Receive(me));
  }
}
