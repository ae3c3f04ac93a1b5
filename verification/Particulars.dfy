/** What operations leave behind, field by field: the record a Submit stores and returns, the entries of Submit and
    Revoke in the ledger and in the audit trail, and the events on the channel. */
module Particulars {
  import opened Model
  import opened Tables
  import opened Protocol
  import opened Invariants
  import opened Alone
  import opened Sequential
  import opened Refinement
  import opened Numbering
  import Audit
  import Channels

  /** The record says what the request said. */
  predicate Says(p: Parameter, req: Request) {
    && p.key == req.key && p.value == req.value && p.valueType == req.valueType && p.namespace == req.namespace
    && p.source == req.source && p.sourceRef == req.sourceRef && p.metadata == req.metadata
  }

  // ---------- the record ----------

  lemma ProposalSays(rows: Rows, req: Request, id: string, env: Env)
    ensures
      var p := Proposal(rows, req, id, env);
      && p.id == id && Says(p, req) && p.createdAt == p.updatedAt == env(Create).now && p.state == Submitted
      && match Lookup(rows, req.namespace, req.key)
         case Some(existing) => p.version == existing.version + 1 && p.prev == existing.id
         case None => p.version == 1 && p.prev == ""
  {
    hide Lookup;
  }

  /** After every history: the row of a Submit has the id that was drawn, says what the request said, and was created at the
      clock reading of its insert, whether the value is accepted or not; an accepted one is returned so. */
  lemma SubmitKeepsTheRequest(ps: Parsers, ops: seq<Op>, req: Request, id: string, env: Env)
    requires History(ps, ops + [Submit(req, id, env)])
    ensures
      var (w', t) := Do(ps, Exec(ps, ops), Submit(req, id, env));
      && id in w'.rows && w'.rows[id].id == id && Says(w'.rows[id], req) && w'.rows[id].createdAt == env(Create).now
      && (t.SubmitOk? ==>
            t.result.id == id && Says(t.result, req) && t.result.createdAt == env(Create).now && t.result.state == Canonical)
  {
    SubmitDecides(ps, ops, req, id, env);
    var w := Exec(ps, ops);
    OneMoreDone(ps, ops, Submit(req, id, env));
    HistoriesAreQuiet(ps, ops);
    QuietIsSound(ps, w);
    assert Fresh(w, id) && StoreAnswers(env);
    hide Exec, History, Quiet, WorldInv, Solo, StoreAnswers, Proposal, ValidValue, Lookup;
    SubmitRows(ps, w, req, env, id);
    ProposalSays(w.rows, req, id, env);
    LookupGenuine(ps, w, req.namespace, req.key);
  }

  /** After every history: exactly which values a Submit accepts, and what becomes of the others. */
  lemma SubmitAcceptsExactly(ps: Parsers, ops: seq<Op>, req: Request, id: string, env: Env)
    requires History(ps, ops + [Submit(req, id, env)])
    ensures
      var (w', t) := Do(ps, Exec(ps, ops), Submit(req, id, env));
      var accepted :=
        || req.valueType == "string"
        || (req.valueType == "number" && ps.number(req.value))
        || (req.valueType == "bool" && (req.value == "true" || req.value == "false"))
        || (req.valueType == "json" && ps.json(req.value))
        || (req.valueType == "timestamp" && ps.timestamp(req.value))
        || (req.valueType == "semver" && req.value != "");
      && id in w'.rows
      && (w'.rows[id].state == Canonical <==> accepted)
      && (w'.rows[id].state == Rejected <==> !accepted)
      && (t.SubmitOk? <==> accepted)
      && (t == Failed(Invalid) <==> !accepted)
      && (t.SubmitOk? ==> t.result == w'.rows[id])
  {
    assert ValidValue(ps, req.value, req.valueType) <==>
      || req.valueType == "string"
      || (req.valueType == "number" && ps.number(req.value))
      || (req.valueType == "bool" && (req.value == "true" || req.value == "false"))
      || (req.valueType == "json" && ps.json(req.value))
      || (req.valueType == "timestamp" && ps.timestamp(req.value))
      || (req.valueType == "semver" && req.value != "");
    hide ValidValue, Do, Exec, History;
    SubmitDecides(ps, ops, req, id, env);
  }

  // ---------- what the ledger should say, written out ----------

  /** The entries of a Submit that creates row id: its announcement, the end of the version it replaces, and its
      evaluation. */
  function SubmitEntries(replaced: Option<Parameter>, req: Request, id: string, env: Env, accepted: bool): seq<Event> {
    var now := env(Create).now;
    var quorum := map["protocol" := "simple-quorum"];
    [Event(id, SubmittedEvent, Unset, Submitted, req.actor, "new submission",
           map["source" := req.source, "source_ref" := req.sourceRef], now)]
    + (match replaced
       case None => []
       case Some(gone) =>
         [Event(gone.id, SupersededEvent, Canonical, Revoked, "system", "superseded by version " + id,
                map["new_version_id" := id], now)])
    + [Event(id, ValidatedEvent, Submitted, Validating, "system", "", quorum, env(Note(Validate)).now)]
    + (if accepted then
         [Event(id, ConsensusReachedEvent, Validating, ConsensusPending, "system", "simple-quorum", quorum,
                env(Note(Agree)).now),
          Event(id, PromotedEvent, ConsensusPending, Canonical, "system", "", quorum, env(Note(Promote)).now)]
       else
         [Event(id, RejectedEvent, Validating, Rejected, "system", "invalid value", quorum, env(Note(Reject)).now)])
  }

  // ---------- the entries of Submit ----------

  lemma AnnouncedLog(w: World, req: Request, p: Parameter, env: Env)
    requires p.prev != "" ==> p.prev in w.rows
    ensures
      Announced(w, req, p, env).log ==
      w.log
      + [Event(p.id, SubmittedEvent, Unset, Submitted, req.actor, "new submission",
               map["source" := req.source, "source_ref" := req.sourceRef], p.createdAt)]
      + (if p.prev == "" then []
         else [Event(p.prev, SupersededEvent, Canonical, Revoked, "system", "superseded by version " + p.id,
                     map["new_version_id" := p.id], p.createdAt)])
  {
    SubmittedEntryIs(req, p);
    SupersededEntryIs(p);
    hide SubmittedEntry, SupersededEntry, CacheDelete;
  }


  lemma PromotingLog(w: World, p: Parameter, env: Env)
    requires p.id in w.rows
    ensures
      Promoting(w, p, env).log ==
      w.log
      + [Event(p.id, ValidatedEvent, Submitted, Validating, "system", "", map["protocol" := "simple-quorum"],
               env(Note(Validate)).now),
         Event(p.id, ConsensusReachedEvent, Validating, ConsensusPending, "system", "simple-quorum",
               map["protocol" := "simple-quorum"], env(Note(Agree)).now),
         Event(p.id, PromotedEvent, ConsensusPending, Canonical, "system", "", map["protocol" := "simple-quorum"],
               env(Note(Promote)).now)]
  {
    QuorumEntryIs(p, Validate, env(Note(Validate)).now);
    QuorumEntryIs(p, Agree, env(Note(Agree)).now);
    QuorumEntryIs(p, Promote, env(Note(Promote)).now);
    hide QuorumEntry;
  }

  lemma RejectingLog(w: World, p: Parameter, env: Env)
    requires p.id in w.rows
    ensures
      Rejecting(w, p, env).log ==
      w.log
      + [Event(p.id, ValidatedEvent, Submitted, Validating, "system", "", map["protocol" := "simple-quorum"],
               env(Note(Validate)).now),
         Event(p.id, RejectedEvent, Validating, Rejected, "system", "invalid value",
               map["protocol" := "simple-quorum"], env(Note(Reject)).now)]
  {
    QuorumEntryIs(p, Validate, env(Note(Validate)).now);
    QuorumEntryIs(p, Reject, env(Note(Reject)).now);
    hide QuorumEntry;
  }

  lemma SubmitLog(ps: Parsers, w: World, req: Request, env: Env, id: string)
    requires WorldInv(ps, w) && Fresh(w, id) && StoreAnswers(env)
    ensures
      Solo(ps, w, SubLookup(req), env, id).0.log ==
      w.log + SubmitEntries(Lookup(w.rows, req.namespace, req.key), req, id, env, ValidValue(ps, req.value, req.valueType))
  {
    hide WorldInv, StoreAnswers, Solo, Lookup, Announced, Promoting, Rejecting, ValidValue, Proposal, CacheSet,
      BroadcastEntry, Channels.TrySend;
    ProposalSays(w.rows, req, id, env);
    LookupGenuine(ps, w, req.namespace, req.key);
    var p := Proposal(w.rows, req, id, env);
    var w1 := Announced(w, req, p, env);
    AnnouncedLog(w, req, p, env);
    if ValidValue(ps, req.value, req.valueType) {
      ValidSubmitAlone(ps, w, req, env, id);
      PromotingLog(w1, p, env);
    } else {
      InvalidSubmitAlone(ps, w, req, env, id);
      RejectingLog(w1, p, env);
    }
    hide Genuine;
  }

  /** After every history a Submit adds these entries to the ledger, and no others. */
  lemma SubmitAddsItsEntries(ps: Parsers, ops: seq<Op>, req: Request, id: string, env: Env)
    requires History(ps, ops + [Submit(req, id, env)])
    ensures
      var w := Exec(ps, ops);
      var (w', t) := Do(ps, w, Submit(req, id, env));
      w'.log == w.log + SubmitEntries(Lookup(w.rows, req.namespace, req.key), req, id, env, t.SubmitOk?)
  {
    var w := Exec(ps, ops);
    OneMoreDone(ps, ops, Submit(req, id, env));
    HistoriesAreQuiet(ps, ops);
    QuietIsSound(ps, w);
    SubmitDecides(ps, ops, req, id, env);
    assert Fresh(w, id) && StoreAnswers(env);
    hide Exec, History, Quiet, WorldInv, Solo, StoreAnswers, ValidValue, Lookup, SubmitEntries;
    SubmitLog(ps, w, req, env, id);
  }

  // ---------- the entry of Revoke ----------

  /** After every history a successful Revoke adds one entry, with the actor and the reason it was given, and any other
      adds none. */
  lemma RevokeAddsItsEntry(ps: Parsers, ops: seq<Op>, ns: string, key: string, actor: string, reason: string, env: Env)
    requires History(ps, ops + [Revoking(ns, key, actor, reason, env)])
    ensures
      var w := Exec(ps, ops);
      var (w', t) := Do(ps, w, Revoking(ns, key, actor, reason, env));
      match Lookup(w.rows, ns, key)
      case None => t == Failed(NotFound) && w'.log == w.log
      case Some(row) =>
        && t == RevokeOk(ns, key, row.(state := Revoked))
        && w'.log ==
             w.log + [Event(row.id, RevokedEvent, Canonical, Revoked, actor, reason, map[], env(Revoke(LogRevoked)).now)]
  {
    var w := Exec(ps, ops);
    OneMoreDone(ps, ops, Revoking(ns, key, actor, reason, env));
    HistoriesAreQuiet(ps, ops);
    QuietIsSound(ps, w);
    assert StoreAnswers(env);
    hide Exec, History, Quiet, WorldInv, Solo, StoreAnswers, Lookup, CacheDelete, RevokedEntry;
    LookupGenuine(ps, w, ns, key);
    RevokeAlone(ps, w, ns, key, actor, reason, env, "");
    match Lookup(w.rows, ns, key)
    case None =>
    case Some(row) => RevokedEntryIs(row, actor, reason, env(Revoke(LogRevoked)).now);
  }

  // ---------- the audit trail ----------

  /** Entries for rows of one key are added to that key's trail and to no other. */
  lemma TrailGrows(rows: Rows, log: Ledger, rows': Rows, more: Ledger, ns: string, key: string, ns': string, key': string)
    requires KeepsFacts(rows, rows') && (forall e | e in log :: e.parameterId in rows)
    requires forall e | e in more ::
               e.parameterId in rows' && rows'[e.parameterId].namespace == ns && rows'[e.parameterId].key == key
    ensures
      multiset(Audit.Trail(rows', log + more, ns', key')) ==
      multiset(Audit.Trail(rows, log, ns', key')) + (if (ns', key') == (ns, key) then multiset(more) else multiset{})
  {
    hide Audit.Trail, Audit.KeyEvents;
    Audit.TrailIsTheAudit(rows, log, ns', key');
    Audit.TrailIsTheAudit(rows', log + more, ns', key');
    var before, after := multiset(Audit.Trail(rows, log, ns', key')), multiset(Audit.Trail(rows', log + more, ns', key'));
    assert multiset(log + more) == multiset(log) + multiset(more);
    forall e ensures after[e] == (before + (if (ns', key') == (ns, key) then multiset(more) else multiset{}))[e] {
      assert e in log <==> multiset(log)[e] > 0;
      assert e in more <==> multiset(more)[e] > 0;
      if e.parameterId in rows {
        assert SameFacts(rows[e.parameterId], rows'[e.parameterId]);
      }
    }
  }

  lemma EventsHaveRows(ps: Parsers, w: World)
    requires WorldInv(ps, w)
    ensures forall e | e in w.log :: e.parameterId in w.rows
  {
    forall e | e in w.log ensures e.parameterId in w.rows {
      assert EventSound(ps, w.rows, e);
    }
  }

  lemma SubmitEntriesAreOfTheKey(ps: Parsers, w: World, rows': Rows, req: Request, id: string, env: Env, accepted: bool)
    requires WorldInv(ps, w) && KeepsFacts(w.rows, rows')
    requires id in rows' && rows'[id].namespace == req.namespace && rows'[id].key == req.key
    ensures
      forall e | e in SubmitEntries(Lookup(w.rows, req.namespace, req.key), req, id, env, accepted) ::
        && e.parameterId in rows'
        && rows'[e.parameterId].namespace == req.namespace && rows'[e.parameterId].key == req.key
  {
    hide WorldInv, Lookup;
    LookupGenuine(ps, w, req.namespace, req.key);
  }

  /** After every history a Submit adds its entries to the trail of its key, and changes no other trail. */
  lemma SubmitShowsInTheTrail(ps: Parsers, ops: seq<Op>, req: Request, id: string, env: Env, ns: string, key: string)
    requires History(ps, ops + [Submit(req, id, env)])
    ensures
      var w := Exec(ps, ops);
      var (w', t) := Do(ps, w, Submit(req, id, env));
      multiset(Audit.Trail(w'.rows, w'.log, ns, key)) ==
      multiset(Audit.Trail(w.rows, w.log, ns, key)) +
      (if (ns, key) == (req.namespace, req.key)
       then multiset(SubmitEntries(Lookup(w.rows, ns, key), req, id, env, t.SubmitOk?)) else multiset{})
  {
    var w, op := Exec(ps, ops), Submit(req, id, env);
    var (w', t) := Do(ps, w, op);
    OneMoreDone(ps, ops, op);
    hide Exec, History, Quiet, WorldInv, Do, Proper, Lookup, SubmitEntries, KeepsFacts;
    HistoriesAreQuiet(ps, ops);
    QuietIsSound(ps, w);
    EventsHaveRows(ps, w);
    SubmitAddsItsEntries(ps, ops, req, id, env);
    OpFacts(ps, w, op);
    var entries := SubmitEntries(Lookup(w.rows, req.namespace, req.key), req, id, env, t.SubmitOk?);
    SubmitEntriesAreOfTheKey(ps, w, w'.rows, req, id, env, t.SubmitOk?);
    TrailGrows(w.rows, w.log, w'.rows, entries, req.namespace, req.key, ns, key);
  }

  /** After every history a Revoke adds its one entry to the trail of its key, and changes no other trail. */
  lemma RevokeShowsInTheTrail(ps: Parsers, ops: seq<Op>, ns: string, key: string, actor: string, reason: string, env: Env,
                              ns': string, key': string)
    requires History(ps, ops + [Revoking(ns, key, actor, reason, env)])
    ensures
      var w := Exec(ps, ops);
      var (w', t) := Do(ps, w, Revoking(ns, key, actor, reason, env));
      multiset(Audit.Trail(w'.rows, w'.log, ns', key')) ==
      multiset(Audit.Trail(w.rows, w.log, ns', key')) +
      (match Lookup(w.rows, ns, key)
       case Some(row) =>
         if (ns', key') == (ns, key)
         then multiset{Event(row.id, RevokedEvent, Canonical, Revoked, actor, reason, map[], env(Revoke(LogRevoked)).now)}
         else multiset{}
       case None => multiset{})
  {
    var w, op := Exec(ps, ops), Revoking(ns, key, actor, reason, env);
    var (w', t) := Do(ps, w, op);
    OneMoreDone(ps, ops, op);
    hide Exec, History, Quiet, WorldInv, Do, Proper, Lookup, Audit.Trail;
    HistoriesAreQuiet(ps, ops);
    QuietIsSound(ps, w);
    EventsHaveRows(ps, w);
    RevokeAddsItsEntry(ps, ops, ns, key, actor, reason, env);
    OpFacts(ps, w, op);
    LookupGenuine(ps, w, ns, key);
    match Lookup(w.rows, ns, key)
    case None =>
      assert w'.log == w.log + [];
      TrailGrows(w.rows, w.log, w'.rows, [], ns, key, ns', key');
    case Some(row) =>
      var e := Event(row.id, RevokedEvent, Canonical, Revoked, actor, reason, map[], env(Revoke(LogRevoked)).now);
      TrailGrows(w.rows, w.log, w'.rows, [e], ns, key, ns', key');
  }

  // ---------- the channel ----------

  lemma SubmitSends(ps: Parsers, w: World, req: Request, env: Env, id: string)
    requires WorldInv(ps, w) && Fresh(w, id) && StoreAnswers(env)
    ensures
      var (w', t) := Solo(ps, w, SubLookup(req), env, id);
      w'.channel ==
      if t.SubmitOk? && |w.channel| < 256
      then w.channel + [Event(id, PromotedEvent, Unset, Canonical, "", "", map[], env(Broadcast).now)]
      else w.channel
  {
    hide WorldInv, Solo, StoreAnswers, Lookup, CacheSet, BroadcastEntry, Announced, Promoting, Rejecting, ValidValue, Proposal;
    ProposalSays(w.rows, req, id, env);
    var p := Proposal(w.rows, req, id, env);
    EvaluationIsSilent(w, req, p, env);
    if ValidValue(ps, req.value, req.valueType) {
      ValidSubmitAlone(ps, w, req, env, id);
      BroadcastEntryIs(PromotedRow(p, env), env(Broadcast).now);
    } else {
      InvalidSubmitAlone(ps, w, req, env, id);
    }
  }

  lemma OthersSendNothing(ps: Parsers, w: World, op: Op)
    requires WorldInv(ps, w) && Proper(w, op) && !op.Submit?
    ensures Do(ps, w, op).0.channel == w.channel
  {
    hide WorldInv, Solo, StoreAnswers, Lookup, CacheDelete, CacheSet, CacheGet, RevokedEntry;
    match op
    case Get(ns, key, env) => GetAlone(ps, w, ns, key, env, "");
    case Revoking(ns, key, actor, reason, env) => RevokeAlone(ps, w, ns, key, actor, reason, env, "");
    case Expire(_) =>
  }

  /** After every history an accepted Submit offers the channel one event, which names its row as CANONICAL; nothing
      else does. */
  lemma SubmitBroadcasts(ps: Parsers, ops: seq<Op>, op: Op)
    requires History(ps, ops + [op])
    ensures
      var w := Exec(ps, ops);
      var (w', t) := Do(ps, w, op);
      w'.channel ==
      if op.Submit? && t.SubmitOk? && |w.channel| < 256
      then w.channel + [Event(op.id, PromotedEvent, Unset, Canonical, "", "", map[], op.env(Broadcast).now)]
      else w.channel
  {
    var w := Exec(ps, ops);
    OneMoreDone(ps, ops, op);
    hide Exec, History, Quiet, WorldInv, Solo, StoreAnswers;
    HistoriesAreQuiet(ps, ops);
    QuietIsSound(ps, w);
    if op.Submit? {
      SubmitSends(ps, w, op.req, op.env, op.id);
    } else {
      OthersSendNothing(ps, w, op);
    }
  }

  lemma EvaluationIsSilent(w: World, req: Request, p: Parameter, env: Env)
    ensures
      var w1 := Announced(w, req, p, env);
      && w1.channel == w.channel
      && (p.id in w1.rows ==> Promoting(w1, p, env).channel == Rejecting(w1, p, env).channel == w.channel)
  {
    hide QuorumEntry, SubmittedEntry, SupersededEntry, CacheDelete;
  }
}
