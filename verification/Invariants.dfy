/** What every step keeps, by rely and guarantee: a step may do to the tables only
    what `Guarantee` allows, and what a thread knows survives every such step of others. */
module Invariants {
  import opened Model
  import opened Tables
  import opened CacheKeys
  import opened Protocol
  import Channels

  // ---------- what holds of the shared state ----------

  /** The state write before an entry of this kind is `_ =`: it may have failed unnoticed. */
  predicate Unchecked(kind: EventKind) {
    kind == RejectedEvent || kind == SupersededEvent
  }

  /** The row has got at least as far as an event of this kind can tell. */
  predicate Reached(kind: EventKind, s: State) {
    Later(if Unchecked(kind) then Leaves(kind) else Enters(kind), s)
  }

  /** The row's predecessor: the row it replaced, one version below, once canonical. */
  predicate Linked(rows: Rows, ns: string, key: string, version: int, prev: string) {
    if prev == "" then version == 1
    else
      && prev in rows
      && OnceCanonical(rows[prev].state)
      && rows[prev].namespace == ns && rows[prev].key == key
      && version == rows[prev].version + 1
  }

  predicate RowSound(ps: Parsers, rows: Rows, id: string)
    requires id in rows
  {
    var p := rows[id];
    && p.id == id && id != "" && p.state != Unset && p.version >= 1
    && Linked(rows, p.namespace, p.key, p.version, p.prev)
    && (p.state == ConsensusPending || OnceCanonical(p.state) ==> ValidParameter(ps, p))
    && (p.state == Rejected ==> !ValidParameter(ps, p))
  }

  /** The trigger keeps the predecessor of a row from asking for its own predecessor. */
  ghost predicate RowsSound(ps: Parsers, rows: Rows) {
    forall id {:trigger RowSound(ps, rows, id)} | id in rows :: RowSound(ps, rows, id)
  }

  predicate EventSound(ps: Parsers, rows: Rows, e: Event) {
    && e.parameterId in rows
    && Labelled(e)
    && Reached(e.kind, rows[e.parameterId].state)
    && (e.kind == RejectedEvent ==> !ValidParameter(ps, rows[e.parameterId]))
  }

  /** A record read while its row was canonical. */
  predicate Genuine(rows: Rows, rec: Parameter) {
    && rec.id in rows && SameFacts(rec, rows[rec.id])
    && rec.state == Canonical && OnceCanonical(rows[rec.id].state)
  }

  predicate EntrySound(rows: Rows, k: string, entry: Entry) {
    Genuine(rows, entry.record) && k == CacheKey(entry.record.namespace, entry.record.key)
  }

  ghost predicate WorldInv(ps: Parsers, w: World) {
    && RowsSound(ps, w.rows)
    && UniqueCanonical(w.rows)
    && (forall e | e in w.log :: EventSound(ps, w.rows, e))
    && (forall id :: Progress(w.log, id) != Broken)
    && (forall k | k in w.cache :: EntrySound(w.rows, k, w.cache[k]))
    && |w.channel| <= Channels.CAPACITY
  }

  // ---------- what a thread knows ----------

  /** The row this Submit wrote is still what it wrote, up to its state. */
  predicate Mine(rows: Rows, p: Parameter) {
    p.id in rows && SameFacts(p, rows[p.id])
  }

  /** A Submit whose row is not evaluated yet. */
  predicate AnnounceInv(w: World, at: Announcement, req: Request, p: Parameter) {
    && Mine(w.rows, p)
    && p.namespace == req.namespace && p.key == req.key
    && w.rows[p.id].state == Submitted
    && Progress(w.log, p.id) == (if at == LogSubmitted then Blank else SubmittedOnly)
    && (at != LogSubmitted ==> p.prev != "")
  }

  /** What the row's own events amount to before a transition is noted. */
  function StageBefore(goal: Goal): Stage {
    match goal
    case Validate => SubmittedOnly
    case Reject => UpToValidated
    case Agree => UpToValidated
    case Promote => UpToConsensus
  }

  /** `validateValueType` has decided which way the evaluation goes. */
  predicate Decided(ps: Parsers, goal: Goal, p: Parameter) {
    match goal
    case Validate => true
    case Reject => !ValidParameter(ps, p)
    case Agree => ValidParameter(ps, p)
    case Promote => ValidParameter(ps, p)
  }

  /** The states the row can be in once the transition's state write has returned. */
  predicate Marked(goal: Goal, s: State) {
    || s == Target(goal)
    || (goal == Promote && s == Revoked)
    || (goal == Reject && s == Validating)
  }

  predicate EvaluateInv(ps: Parsers, w: World, goal: Goal, p: Parameter) {
    && Mine(w.rows, p)
    && Progress(w.log, p.id) == StageBefore(goal)
    && Decided(ps, goal, p)
  }

  /** A Revoke that has found its row. */
  predicate RevInv(w: World, step: Revocation, ns: string, key: string, rec: Parameter) {
    && Genuine(w.rows, rec) && rec.namespace == ns && rec.key == key
    && (step != MarkRevoked ==> w.rows[rec.id].state == Revoked)
  }

  predicate ThreadInv(ps: Parsers, w: World, t: Thread) {
    match t
    case SubLookup(_) => true
    case SubCreate(req, version, prev) => Linked(w.rows, req.namespace, req.key, version, prev)
    case SubAnnounce(at, req, p) => AnnounceInv(w, at, req, p)
    case SubMark(goal, p) => EvaluateInv(ps, w, goal, p) && w.rows[p.id].state == Source(goal)
    case SubNote(goal, p) => EvaluateInv(ps, w, goal, p) && Marked(goal, w.rows[p.id].state)
    case SubRefresh(p) => Promoted(w, p)
    case SubFill(p, row) => Published(w, p, row) && Genuine(w.rows, row)
    case SubCast(p, row) => Published(w, p, row)
    case SubmitOk(p, result) => Published(w, p, result)
    case GetCache(_, _) => true
    case GetStore(_, _) => true
    case GetFill(ns, key, rec) => Genuine(w.rows, rec) && rec.namespace == ns && rec.key == key
    case GetOk(ns, key, rec) =>
      Genuine(w.rows, rec) && CacheKey(rec.namespace, rec.key) == CacheKey(ns, key)
    case RevLookup(_, _, _, _) => true
    case RevAct(step, ns, key, _, _, rec) => RevInv(w, step, ns, key, rec)
    case RevokeOk(ns, key, result) =>
      && result.id in w.rows && SameFacts(result, w.rows[result.id])
      && result.namespace == ns && result.key == key
      && result.state == Revoked == w.rows[result.id].state
    case Failed(_) => true
  }

  /** A Submit past promotion: its row and its four events. */
  predicate Promoted(w: World, p: Parameter) {
    Mine(w.rows, p) && OnceCanonical(w.rows[p.id].state) && Progress(w.log, p.id) == Complete
  }

  /** ... and the record it returns. */
  predicate Published(w: World, p: Parameter, result: Parameter) {
    && Promoted(w, p)
    && SameFacts(p, result) && OnceCanonical(result.state)
  }

  /** The row a thread alone writes, beyond revoking it. */
  function Owns(t: Thread): set<string> {
    match t
    case SubAnnounce(_, _, p) => {p.id}
    case SubMark(_, p) => {p.id}
    case SubNote(_, p) => {p.id}
    case SubRefresh(p) => {p.id}
    case SubFill(p, _) => {p.id}
    case SubCast(p, _) => {p.id}
    case SubmitOk(p, _) => {p.id}
    case _ => {}
  }

  // ---------- what a step may do ----------

  predicate Moves(a: Parameter, b: Parameter, owned: bool) {
    && SameFacts(a, b)
    && (a.state == b.state || Edge(a.state, b.state))
    && (owned || a == b || (OnceCanonical(a.state) && b.state == Revoked))
  }

  /** Nobody but the owner moves a row, except that anyone may revoke a canonical one;
      facts never change, the ledger only grows, and a row's own events come from its owner. */
  ghost predicate Guarantee(w: World, w': World, own: set<string>) {
    && (forall id | id in w.rows :: id in w'.rows && Moves(w.rows[id], w'.rows[id], id in own))
    && (forall id | id in w'.rows :: id in w.rows || (id in own && w'.rows[id].state == Submitted))
    && w.log <= w'.log && |w'.log| <= |w.log| + 1
    && (forall id | id !in own :: Progress(w'.log, id) == Progress(w.log, id))
  }

  lemma Reflexive(w: World, w': World)
    requires w'.rows == w.rows && w'.log == w.log
    ensures Guarantee(w, w', {})
  {
  }

  /** Events and records stay sound when rows move along edges. */
  lemma StaysSound(ps: Parsers, w: World, w': World, own: set<string>)
    requires Guarantee(w, w', own)
    ensures forall e :: EventSound(ps, w.rows, e) ==> EventSound(ps, w'.rows, e)
    ensures forall rec :: Genuine(w.rows, rec) ==> Genuine(w'.rows, rec)
    ensures forall ns, key, version, prev ::
              Linked(w.rows, ns, key, version, prev) ==> Linked(w'.rows, ns, key, version, prev)
  {
  }

  // ---------- the kinds of step ----------

  /** A change of the table keeps the rest of the world sound if it is guaranteed. */
  lemma TableChanges(ps: Parsers, w: World, w': World, own: set<string>)
    requires WorldInv(ps, w) && Guarantee(w, w', own)
    requires w' == w.(rows := w'.rows)
    requires RowsSound(ps, w'.rows) && UniqueCanonical(w'.rows)
    ensures WorldInv(ps, w')
  {
    StaysSound(ps, w, w', own);
    hide Guarantee, EventSound, Genuine, RowSound, UniqueCanonical;
  }

  lemma MoveGuaranteed(w: World, id: string, s: State, c: Call)
    requires id in w.rows
    requires Edge(w.rows[id].state, s) || (w.rows[id].state == s == Revoked)
    ensures Guarantee(w, w.(rows := Update(w.rows, id, s, c).0), if s == Revoked then {} else {id})
  {
  }

  lemma RowsAfterMove(ps: Parsers, rows: Rows, id: string, s: State, c: Call)
    requires id in rows && RowsSound(ps, rows)
    requires Edge(rows[id].state, s) || (rows[id].state == s == Revoked)
    requires s == ConsensusPending ==> ValidParameter(ps, rows[id])
    requires s == Rejected ==> !ValidParameter(ps, rows[id])
    ensures RowsSound(ps, Update(rows, id, s, c).0)
  {
    var rows' := Update(rows, id, s, c).0;
    forall i | i in rows' ensures RowSound(ps, rows', i) {
      assert RowSound(ps, rows, i) && RowSound(ps, rows, id);
    }
  }

  lemma MoveKeeps(ps: Parsers, w: World, id: string, s: State, c: Call)
    requires WorldInv(ps, w) && id in w.rows
    requires Edge(w.rows[id].state, s) || (w.rows[id].state == s == Revoked)
    requires s == ConsensusPending ==> ValidParameter(ps, w.rows[id])
    requires s == Rejected ==> !ValidParameter(ps, w.rows[id])
    ensures
      var w' := w.(rows := Update(w.rows, id, s, c).0);
      && WorldInv(ps, w')
      && Guarantee(w, w', if s == Revoked then {} else {id})
  {
    MoveGuaranteed(w, id, s, c);
    RowsAfterMove(ps, w.rows, id, s, c);
    UpdateKeepsUnique(w.rows, id, s, c);
    hide Guarantee, RowSound, UniqueCanonical;
    TableChanges(ps, w, w.(rows := Update(w.rows, id, s, c).0), if s == Revoked then {} else {id});
  }

  lemma InsertGuaranteed(w: World, p: Parameter, c: Call)
    requires p.state == Submitted
    ensures Guarantee(w, w.(rows := Insert(w.rows, p, c).0), {p.id} - w.rows.Keys)
  {
    hide Progress;
  }

  lemma RowsAfterInsert(ps: Parsers, rows: Rows, p: Parameter, c: Call)
    requires RowsSound(ps, rows)
    requires p.state == Submitted && Linked(rows, p.namespace, p.key, p.version, p.prev)
    ensures RowsSound(ps, Insert(rows, p, c).0)
  {
    var rows' := Insert(rows, p, c).0;
    if rows' != rows {
      assert p.id !in rows && p.id != "" && rows' == rows[p.id := p];
      hide Insert, InsertAdmits;
      forall i | i in rows' ensures RowSound(ps, rows', i) {
        if i != p.id {
          assert RowSound(ps, rows, i);
        } else if p.prev != "" {
          assert RowSound(ps, rows, p.prev);
        }
      }
    }
  }

  lemma InsertKeeps(ps: Parsers, w: World, p: Parameter, c: Call)
    requires WorldInv(ps, w)
    requires p.state == Submitted && Linked(w.rows, p.namespace, p.key, p.version, p.prev)
    ensures
      var (rows, ok) := Insert(w.rows, p, c);
      var w' := w.(rows := rows);
      && WorldInv(ps, w')
      && Guarantee(w, w', {p.id} - w.rows.Keys)
      && (ok ==> p.id !in w.rows && rows[p.id] == p && Progress(w.log, p.id) == Blank)
  {
    var w' := w.(rows := Insert(w.rows, p, c).0);
    var own := {p.id} - w.rows.Keys;
    InsertGuaranteed(w, p, c);
    RowsAfterInsert(ps, w.rows, p, c);
    InsertKeepsUnique(w.rows, p, c);
    if p.id !in w.rows {
      NoEvents(w.log, p.id);
    }
    hide Guarantee, RowSound, UniqueCanonical, EventSound, EntrySound, InsertAdmits;
    TableChanges(ps, w, w', own);
  }

  lemma AppendGuaranteed(w: World, e: Event, c: Call)
    ensures
      var log := Append(w.rows, w.log, e, c).0;
      && Guarantee(w, w.(log := log), if IsOwn(e.kind) then {e.parameterId} else {})
      && (forall id :: Progress(log, id) == Progress(w.log, id)
           || (IsOwn(e.kind) && e.parameterId == id && Progress(log, id) == NextStage(Progress(w.log, id), e.kind)))
  {
    forall id {
      OneMore(w.log, e, id);
    }
    hide Progress;
  }

  lemma AppendKeeps(ps: Parsers, w: World, e: Event, c: Call)
    requires WorldInv(ps, w)
    requires EventSound(ps, w.rows, e)
    requires IsOwn(e.kind) ==>
               NextStage(Progress(w.log, e.parameterId), e.kind) != Broken
    ensures
      var (log, ok) := Append(w.rows, w.log, e, c);
      var w' := w.(log := log);
      && WorldInv(ps, w')
      && Guarantee(w, w', if IsOwn(e.kind) then {e.parameterId} else {})
      && (ok && IsOwn(e.kind) ==>
            Progress(log, e.parameterId) == NextStage(Progress(w.log, e.parameterId), e.kind))
  {
    AppendGuaranteed(w, e, c);
    OneMore(w.log, e, e.parameterId);
    hide Guarantee, Progress, RowSound, UniqueCanonical, EventSound, EntrySound;
  }

  lemma CacheKeeps(ps: Parsers, w: World, rec: Parameter, c: Call)
    requires WorldInv(ps, w) && Genuine(w.rows, rec)
    ensures
      var w' := w.(cache := CacheSet(w.cache, rec, c));
      WorldInv(ps, w') && Guarantee(w, w', {})
  {
    var w' := w.(cache := CacheSet(w.cache, rec, c));
    Reflexive(w, w');
    hide Guarantee, Progress, RowSound, UniqueCanonical, EventSound;
  }

  lemma ForgetKeeps(ps: Parsers, w: World, gone: set<string>)
    requires WorldInv(ps, w)
    ensures
      var w' := w.(cache := w.cache - gone);
      WorldInv(ps, w') && Guarantee(w, w', {})
  {
    Reflexive(w, w.(cache := w.cache - gone));
    hide Guarantee, Progress, RowSound, UniqueCanonical, EventSound;
  }

  lemma SendKeeps(ps: Parsers, w: World, e: Event)
    requires WorldInv(ps, w)
    ensures
      var w' := w.(channel := Channels.TrySend(w.channel, e));
      WorldInv(ps, w') && Guarantee(w, w', {})
  {
    Reflexive(w, w.(channel := Channels.TrySend(w.channel, e)));
    hide Guarantee, Progress, RowSound, UniqueCanonical, EventSound;
  }

  lemma LookupGenuine(ps: Parsers, w: World, ns: string, key: string)
    requires WorldInv(ps, w)
    ensures
      match Lookup(w.rows, ns, key)
      case Some(rec) =>
        && rec.id in w.rows && w.rows[rec.id] == rec && rec.id != ""
        && Genuine(w.rows, rec) && rec.namespace == ns && rec.key == key
      case None => true
  {
    match Lookup(w.rows, ns, key)
    case Some(rec) =>
      var id :| IsTop(w.rows, id, ns, key) && w.rows[id] == rec;
      assert RowSound(ps, w.rows, id);
    case None =>
  }

  // ---------- every call of every thread ----------

  /** A call that may be made without breaking anything. */
  predicate CallSound(ps: Parsers, w: World, effect: Effect) {
    match effect
    case Read => true
    case NewRow(p) => p.state == Submitted && Linked(w.rows, p.namespace, p.key, p.version, p.prev)
    case SetState(id, s) =>
      && id in w.rows
      && (Edge(w.rows[id].state, s) || (w.rows[id].state == s == Revoked))
      && (s == ConsensusPending ==> ValidParameter(ps, w.rows[id]))
      && (s == Rejected ==> !ValidParameter(ps, w.rows[id]))
    case Log(e) =>
      && EventSound(ps, w.rows, e)
      && (IsOwn(e.kind) ==>
            NextStage(Progress(w.log, e.parameterId), e.kind) != Broken)
    case Put(rec) => Genuine(w.rows, rec)
    case Drop(_, _) => true
    case Send(_) => true
  }

  /** The row a call needs to own. */
  function Touches(w: World, effect: Effect): set<string> {
    match effect
    case NewRow(p) => {p.id} - w.rows.Keys
    case SetState(id, s) => if s == Revoked then {} else {id}
    case Log(e) => if IsOwn(e.kind) then {e.parameterId} else {}
    case _ => {}
  }

  lemma CallKeeps(ps: Parsers, w: World, effect: Effect, c: Call)
    requires WorldInv(ps, w) && CallSound(ps, w, effect)
    ensures var w' := Perform(w, effect, c).0; WorldInv(ps, w') && Guarantee(w, w', Touches(w, effect))
  {
    hide WorldInv, Guarantee;
    match effect
    case Read => Reflexive(w, w);
    case NewRow(p) => InsertKeeps(ps, w, p, c);
    case SetState(id, s) => MoveKeeps(ps, w, id, s, c);
    case Log(e) => AppendKeeps(ps, w, e, c);
    case Put(rec) => CacheKeeps(ps, w, rec, c);
    case Drop(ns, key) =>
      ForgetKeeps(ps, w, {CacheKey(ns, key)});
      ForgetKeeps(ps, w, {});
      assert w.(cache := w.cache - {}) == w;
    case Send(e) => SendKeeps(ps, w, e);
  }

  // ---------- every step of every thread ----------

  /** The call a thread makes is sound and touches only its own row, and leaves
      the thread knowing what its next call needs. */
  ghost predicate GoesOn(ps: Parsers, w: World, t: Thread, c: Call, newId: string)
    requires !Finished(t)
  {
    var effect := CallOf(t, c.now, newId);
    var (w', ok) := Perform(w, effect, c);
    var t' := Next(ps, w, t, c, newId, ok);
    && CallSound(ps, w, effect)
    && (forall id | id in Touches(w, effect) :: id in Owns(t) || id !in w.rows)
    && (forall id | id in Owns(t') :: id in Owns(t) || id !in w.rows)
    && ThreadInv(ps, w', t')
  }

  lemma SubmittedIsLogged(ps: Parsers, w: World, req: Request, p: Parameter, c: Call, newId: string)
    requires WorldInv(ps, w) && AnnounceInv(w, LogSubmitted, req, p)
    ensures GoesOn(ps, w, SubAnnounce(LogSubmitted, req, p), c, newId)
  {
    var e := SubmittedEntry(req, p);
    OneMore(w.log, e, p.id);
    hide WorldInv, Progress, SubmittedEntry, RowSound;
  }

  lemma OldVersionIsRevoked(ps: Parsers, w: World, req: Request, p: Parameter, c: Call, newId: string)
    requires WorldInv(ps, w) && AnnounceInv(w, Supersede, req, p)
    ensures GoesOn(ps, w, SubAnnounce(Supersede, req, p), c, newId)
  {
    assert RowSound(ps, w.rows, p.id);
    hide WorldInv, Progress, RowSound, IndexAdmits;
  }

  lemma SupersessionIsLogged(ps: Parsers, w: World, req: Request, p: Parameter, c: Call, newId: string)
    requires WorldInv(ps, w) && AnnounceInv(w, LogSuperseded, req, p)
    ensures GoesOn(ps, w, SubAnnounce(LogSuperseded, req, p), c, newId)
  {
    assert RowSound(ps, w.rows, p.id);
    hide WorldInv, Progress, SupersededEntry;
    var e := SupersededEntry(p);
    assert CallSound(ps, w, Log(e)) && Touches(w, Log(e)) == {};
    OneMore(w.log, e, p.id);
    hide RowSound, CallSound, Touches, SameFacts, Linked;
  }

  lemma OldVersionIsForgotten(ps: Parsers, w: World, req: Request, p: Parameter, c: Call, newId: string)
    requires WorldInv(ps, w) && AnnounceInv(w, Invalidate, req, p)
    ensures GoesOn(ps, w, SubAnnounce(Invalidate, req, p), c, newId)
  {
    hide WorldInv, Progress, CacheKey;
  }

  lemma AnnounceGoesOn(ps: Parsers, w: World, at: Announcement, req: Request, p: Parameter, c: Call, newId: string)
    requires WorldInv(ps, w) && AnnounceInv(w, at, req, p)
    ensures GoesOn(ps, w, SubAnnounce(at, req, p), c, newId)
  {
    hide WorldInv, GoesOn, AnnounceInv;
    match at
    case LogSubmitted => SubmittedIsLogged(ps, w, req, p, c, newId);
    case Supersede => OldVersionIsRevoked(ps, w, req, p, c, newId);
    case LogSuperseded => SupersessionIsLogged(ps, w, req, p, c, newId);
    case Invalidate => OldVersionIsForgotten(ps, w, req, p, c, newId);
  }

  lemma MarkGoesOn(ps: Parsers, w: World, t: Thread, c: Call, newId: string)
    requires t.SubMark? && WorldInv(ps, w) && ThreadInv(ps, w, t)
    ensures GoesOn(ps, w, t, c, newId)
  {
    hide WorldInv, Progress, IndexAdmits;
  }

  lemma NoteIsSound(ps: Parsers, w: World, goal: Goal, p: Parameter, now: int)
    requires ThreadInv(ps, w, SubNote(goal, p))
    ensures CallSound(ps, w, Log(QuorumEntry(p, goal, now)))
    ensures NextStage(Progress(w.log, p.id), KindOf(goal)) != Broken
  {
    hide Progress, QuorumEntry;
    match goal
    case Validate =>
    case Reject =>
    case Agree =>
    case Promote =>
  }

  lemma StageAfter(goal: Goal)
    ensures
      NextStage(StageBefore(goal), KindOf(goal)) ==
      match goal
      case Validate => UpToValidated
      case Reject => EndedRejected
      case Agree => UpToConsensus
      case Promote => Complete
  {
  }

  lemma NoteIsNoted(ps: Parsers, w: World, goal: Goal, p: Parameter, c: Call)
    requires ThreadInv(ps, w, SubNote(goal, p))
    ensures
      var (log, ok) := Append(w.rows, w.log, QuorumEntry(p, goal, c.now), c);
      ok ==> ThreadInv(ps, w.(log := log), NoteNext(ps, goal, p))
  {
    OneMore(w.log, QuorumEntry(p, goal, c.now), p.id);
    StageAfter(goal);
    assert IsOwn(KindOf(goal));
    hide Progress, QuorumEntry, SameFacts, NextStage, KindOf, ValidValue;
  }

  lemma NoteLeads(ps: Parsers, goal: Goal, p: Parameter)
    ensures Owns(NoteNext(ps, goal, p)) <= {p.id}
    ensures goal == Reject ==> NoteNext(ps, goal, p) == Failed(Invalid)
  {
    hide ValidParameter;
  }

  lemma NoteGoesOn(ps: Parsers, w: World, goal: Goal, p: Parameter, c: Call, newId: string)
    requires ThreadInv(ps, w, SubNote(goal, p))
    ensures GoesOn(ps, w, SubNote(goal, p), c, newId)
  {
    NoteIsSound(ps, w, goal, p, c.now);
    NoteIsNoted(ps, w, goal, p, c);
    NoteLeads(ps, goal, p);
    assert IsOwn(KindOf(goal));
    hide Progress, QuorumEntry, CallSound, NoteNext, Append, EvaluateInv, Marked, KindOf;
  }

  lemma SubmitEndsGoOn(ps: Parsers, w: World, t: Thread, c: Call, newId: string)
    requires (t.SubRefresh? || t.SubFill? || t.SubCast?) && WorldInv(ps, w) && ThreadInv(ps, w, t)
    ensures GoesOn(ps, w, t, c, newId)
  {
    hide WorldInv, Progress;
  }

  lemma SubmitStarts(ps: Parsers, w: World, req: Request, c: Call, newId: string)
    requires WorldInv(ps, w)
    ensures GoesOn(ps, w, SubLookup(req), c, newId)
  {
    LookupGenuine(ps, w, req.namespace, req.key);
    hide WorldInv, Progress, Lookup;
  }

  lemma NewRowIsSound(ps: Parsers, w: World, p: Parameter)
    requires p.state == Submitted && Linked(w.rows, p.namespace, p.key, p.version, p.prev)
    ensures CallSound(ps, w, NewRow(p))
    ensures forall id | id in Touches(w, NewRow(p)) :: id !in w.rows
  {
  }

  lemma NewRowIsMine(ps: Parsers, w: World, req: Request, p: Parameter, c: Call)
    requires WorldInv(ps, w)
    requires p.state == Submitted && Linked(w.rows, p.namespace, p.key, p.version, p.prev)
    requires p.namespace == req.namespace && p.key == req.key
    ensures
      var (rows, ok) := Insert(w.rows, p, c);
      ok ==> p.id !in w.rows && AnnounceInv(w.(rows := rows), LogSubmitted, req, p)
  {
    InsertKeeps(ps, w, p, c);
    hide WorldInv, Progress, Insert, Linked;
  }

  lemma RowIsCreated(ps: Parsers, w: World, req: Request, version: int, prev: string, c: Call, newId: string)
    requires WorldInv(ps, w) && ThreadInv(ps, w, SubCreate(req, version, prev))
    ensures GoesOn(ps, w, SubCreate(req, version, prev), c, newId)
  {
    hide WorldInv, Progress, InsertAdmits, SameFacts;
    var p := NewParameter(req, version, prev, newId, c.now);
    assert Linked(w.rows, p.namespace, p.key, p.version, p.prev);
    NewRowIsSound(ps, w, p);
    NewRowIsMine(ps, w, req, p, c);
    hide Insert, AnnounceInv, Linked, CallSound, Touches, NewParameter;
    var t := SubCreate(req, version, prev);
    var (w', ok) := Perform(w, NewRow(p), c);
    assert CallOf(t, c.now, newId) == NewRow(p);
    assert Next(ps, w, t, c, newId, ok) == if ok then SubAnnounce(LogSubmitted, req, p) else Failed(Io);
    hide CallOf, Next, Perform;
  }

  lemma GetReadsCache(ps: Parsers, w: World, ns: string, key: string, c: Call, newId: string)
    requires WorldInv(ps, w)
    ensures GoesOn(ps, w, GetCache(ns, key), c, newId)
  {
    var k := CacheKey(ns, key);
    assert k in w.cache ==> EntrySound(w.rows, k, w.cache[k]);
    hide WorldInv, Progress, CacheKey;
  }

  lemma GetReadsStore(ps: Parsers, w: World, ns: string, key: string, c: Call, newId: string)
    requires WorldInv(ps, w)
    ensures GoesOn(ps, w, GetStore(ns, key), c, newId)
  {
    LookupGenuine(ps, w, ns, key);
    hide WorldInv, Progress, Lookup;
  }

  lemma GetFillsCache(ps: Parsers, w: World, t: Thread, c: Call, newId: string)
    requires t.GetFill? && ThreadInv(ps, w, t)
    ensures GoesOn(ps, w, t, c, newId)
  {
    hide Progress, CacheKey;
  }

  lemma RevokeStarts(ps: Parsers, w: World, t: Thread, c: Call, newId: string)
    requires t.RevLookup? && WorldInv(ps, w)
    ensures GoesOn(ps, w, t, c, newId)
  {
    LookupGenuine(ps, w, t.ns, t.key);
    hide WorldInv, Progress, Lookup;
  }

  lemma RowIsRevoked(ps: Parsers, w: World, t: Thread, c: Call, newId: string)
    requires t.RevAct? && t.step == MarkRevoked && WorldInv(ps, w) && ThreadInv(ps, w, t)
    ensures GoesOn(ps, w, t, c, newId)
  {
    hide WorldInv, Progress, IndexAdmits;
  }

  lemma RevocationIsLogged(ps: Parsers, w: World, t: Thread, c: Call, newId: string)
    requires t.RevAct? && t.step != MarkRevoked && ThreadInv(ps, w, t)
    ensures GoesOn(ps, w, t, c, newId)
  {
    hide Progress, RevokedEntry, CacheKey;
  }

  lemma EveryThreadGoesOn(ps: Parsers, w: World, t: Thread, c: Call, newId: string)
    requires !Finished(t) && WorldInv(ps, w) && ThreadInv(ps, w, t)
    ensures GoesOn(ps, w, t, c, newId)
  {
    hide GoesOn, WorldInv;
    match t
    case SubLookup(req) => SubmitStarts(ps, w, req, c, newId);
    case SubCreate(req, version, prev) => RowIsCreated(ps, w, req, version, prev, c, newId);
    case SubAnnounce(at, req, p) => AnnounceGoesOn(ps, w, at, req, p, c, newId);
    case SubMark(_, _) => MarkGoesOn(ps, w, t, c, newId);
    case SubNote(goal, p) => NoteGoesOn(ps, w, goal, p, c, newId);
    case SubRefresh(_) => SubmitEndsGoOn(ps, w, t, c, newId);
    case SubFill(_, _) => SubmitEndsGoOn(ps, w, t, c, newId);
    case SubCast(_, _) => SubmitEndsGoOn(ps, w, t, c, newId);
    case GetCache(ns, key) => GetReadsCache(ps, w, ns, key, c, newId);
    case GetStore(ns, key) => GetReadsStore(ps, w, ns, key, c, newId);
    case GetFill(_, _, _) => GetFillsCache(ps, w, t, c, newId);
    case RevLookup(_, _, _, _) => RevokeStarts(ps, w, t, c, newId);
    case RevAct(step, _, _, _, _, _) =>
      if step == MarkRevoked {
        RowIsRevoked(ps, w, t, c, newId);
      } else {
        RevocationIsLogged(ps, w, t, c, newId);
      }
  }

  /** One step of one thread keeps the shared invariant and the thread's own. It does to
      the tables only what it may, to its own row or to one that did not exist before. */
  lemma EveryStepKeeps(ps: Parsers, w: World, t: Thread, c: Call, newId: string)
    requires !Finished(t) && WorldInv(ps, w) && ThreadInv(ps, w, t)
    ensures
      var (w', t') := Step(ps, w, t, c, newId);
      var own := Touches(w, CallOf(t, c.now, newId));
      && WorldInv(ps, w') && ThreadInv(ps, w', t')
      && Guarantee(w, w', own)
      && (forall id | id in own :: id in Owns(t) || id !in w.rows)
      && (forall id | id in Owns(t') :: id in Owns(t) || id !in w.rows)
  {
    EveryThreadGoesOn(ps, w, t, c, newId);
    CallKeeps(ps, w, CallOf(t, c.now, newId), c);
    hide WorldInv, ThreadInv, Guarantee, CallSound, Touches, Perform, CallOf, Next, Owns;
  }

  /** A row is undisturbed by the others, up to its revocation. */
  lemma MineStays(w: World, w': World, own: set<string>, p: Parameter)
    requires Mine(w.rows, p) && Guarantee(w, w', own) && p.id !in own
    ensures Mine(w'.rows, p) && Progress(w'.log, p.id) == Progress(w.log, p.id)
    ensures
      || w'.rows[p.id].state == w.rows[p.id].state
      || (OnceCanonical(w.rows[p.id].state) && w'.rows[p.id].state == Revoked)
  {
    assert Moves(w.rows[p.id], w'.rows[p.id], p.id in own);
    hide Progress;
  }

  lemma SubmitUndisturbed(ps: Parsers, w: World, w': World, own: set<string>, t: Thread)
    requires ThreadInv(ps, w, t) && Owns(t) != {}
    requires Guarantee(w, w', own) && own !! Owns(t)
    requires forall rec | Genuine(w.rows, rec) :: Genuine(w'.rows, rec)
    ensures ThreadInv(ps, w', t)
  {
    MineStays(w, w', own, t.p);
    hide Guarantee, Progress, Genuine, Mine;
  }

  lemma RevokeUndisturbed(ps: Parsers, w: World, w': World, own: set<string>, t: Thread)
    requires ThreadInv(ps, w, t) && (t.RevAct? || t.RevokeOk?)
    requires Guarantee(w, w', own)
    requires forall rec | Genuine(w.rows, rec) :: Genuine(w'.rows, rec)
    ensures ThreadInv(ps, w', t)
  {
    var id := if t.RevAct? then t.rec.id else t.result.id;
    hide Progress;
    assert id in w.rows && Moves(w.rows[id], w'.rows[id], id in own);
    hide Guarantee;
  }

  /** What a thread knows survives the steps of threads that do not own its row. */
  lemma Undisturbed(ps: Parsers, w: World, w': World, own: set<string>, t: Thread)
    requires ThreadInv(ps, w, t)
    requires Guarantee(w, w', own) && own !! Owns(t)
    ensures ThreadInv(ps, w', t)
  {
    StaysSound(ps, w, w', own);
    hide Guarantee, Progress, Genuine, Linked, EventSound, Mine;
    if t.RevAct? || t.RevokeOk? {
      RevokeUndisturbed(ps, w, w', own, t);
    } else if Owns(t) != {} {
      SubmitUndisturbed(ps, w, w', own, t);
    }
  }
}
