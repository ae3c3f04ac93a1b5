/** Runs in which a REJECTED or a SUPERSEDED entry tells of a move that its row has not made. */
module Misinformation {
  import opened Model
  import opened Tables
  import opened Protocol
  import opened Invariants
  import opened Alone
  import opened Interleavings
  import opened Sequential
  import opened Overlap

  /** About to write a state whose failure nobody checks. */
  predicate WritesUnchecked(w: World, t: Thread) {
    || (t.SubMark? && t.goal == Reject)
    || (t.SubAnnounce? && t.at == Supersede && t.p.prev in w.rows && w.rows[t.p.prev].state == Canonical)
  }

  lemma LostThenKept(ps: Parsers, w: World, t: Thread, lost: Call, kept: Call, newId: string)
    requires ThreadInv(ps, w, t) && WritesUnchecked(w, t) && lost.fate == Lost && kept.fate == Acked
    ensures
      var (w1, t1) := Step(ps, w, t, lost, newId);
      && w1 == w && !Finished(t1)
      && var w2 := Step(ps, w1, t1, kept, newId).0;
      && w2.rows == w.rows && |w2.log| == |w.log| + 1
      && var e := w2.log[|w.log|];
      && Unchecked(e.kind) && e.parameterId in w.rows
      && w.rows[e.parameterId].state == e.from != e.to
      && e.kind == (if t.SubMark? then RejectedEvent else SupersededEvent)
      && e.parameterId == (if t.SubMark? then t.p.id else t.p.prev)
      && SiteOf(t1) != SiteOf(t)
  {
    hide Progress;
    if t.SubMark? {
      assert Step(ps, w, t, lost, newId) == (w, SubNote(Reject, t.p));
    } else {
      assert Step(ps, w, t, lost, newId) == (w, SubAnnounce(LogSuperseded, t.req, t.p));
    }
  }

  /** From any point before an unchecked state write: lose the write, keep the entry, and the row is still where
      the entry says it left from. */
  lemma UncheckedEntryMisinforms(ps: Parsers, tr: seq<System>, acts: seq<Action>, tid: nat, lost: Call, kept: Call,
                                 newId: string)
    requires Run(ps, tr, acts) && tid in Last(tr).threads && WritesUnchecked(Last(tr).w, Last(tr).threads[tid])
    requires lost.fate == Lost && kept.fate == Acked
    ensures
      var s := Last(tr);
      var s1 := Apply(ps, s, Advance(tid, lost, newId));
      && Possible(s1, Advance(tid, kept, newId))
      && var s2 := Apply(ps, s1, Advance(tid, kept, newId));
      && Run(ps, tr + [s1] + [s2], acts + [Advance(tid, lost, newId)] + [Advance(tid, kept, newId)])
      && |s2.w.log| == |s.w.log| + 1
      && var e := s2.w.log[|s.w.log|];
      && Unchecked(e.kind) && e.parameterId in s2.w.rows
      && s2.w.rows[e.parameterId].state == e.from != e.to
      && var t := s.threads[tid];
      && e.kind == (if t.SubMark? then RejectedEvent else SupersededEvent)
      && e.parameterId == (if t.SubMark? then t.p.id else t.p.prev)
  {
    assert tr != [] && Last(tr) == tr[|acts|];
    InvariantHolds(ps, tr, acts, |acts|);
    var s := Last(tr);
    assert ThreadInv(ps, s.w, s.threads[tid]);
    hide Run, Step, ThreadInv, SystemInv;
    LostThenKept(ps, s.w, s.threads[tid], lost, kept, newId);
    var s1 := Apply(ps, s, Advance(tid, lost, newId));
    Extend(ps, tr, acts, Advance(tid, lost, newId));
    Extend(ps, tr + [s1], acts + [Advance(tid, lost, newId)], Advance(tid, kept, newId));
    hide WritesUnchecked;
  }

  // ---------- runs that reach those points ----------

  /** Only the call at this site is lost. */
  ghost predicate LosesOnly(env: Env, lost: Site) {
    env(lost).fate == Lost && (forall site | site != lost :: env(site).fate == Acked)
  }

  lemma LookStep(ps: Parsers, w: World, req: Request, c: Call)
    requires c.fate == Acked
    ensures
      Step(ps, w, SubLookup(req), c, "") ==
      (w, match Lookup(w.rows, req.namespace, req.key)
          case Some(existing) => SubCreate(req, existing.version + 1, existing.id)
          case None => SubCreate(req, 1, ""))
  {
    hide Lookup;
  }

  lemma CreateStep(ps: Parsers, w: World, req: Request, version: int, prev: string, c: Call, id: string)
    requires c.fate == Acked && Fresh(w, id) && (prev != "" ==> prev in w.rows)
    ensures
      var p := NewParameter(req, version, prev, id, c.now);
      Step(ps, w, SubCreate(req, version, prev), c, id) ==
      (w.(rows := w.rows[id := p]), SubAnnounce(LogSubmitted, req, p))
  {
  }

  lemma LogStep(ps: Parsers, w: World, req: Request, p: Parameter, c: Call)
    requires c.fate == Acked && p.id in w.rows
    ensures
      var (w', t') := Step(ps, w, SubAnnounce(LogSubmitted, req, p), c, "");
      && w'.rows == w.rows
      && t' == if p.prev != "" then SubAnnounce(Supersede, req, p) else SubMark(Validate, p)
  {
    hide SubmittedEntry;
  }

  /** A new Submit looks. */
  lemma Looks(ps: Parsers, tr: seq<System>, acts: seq<Action>, req: Request, env: Env)
    returns (tr': seq<System>, acts': seq<Action>, tid: nat)
    requires Run(ps, tr, acts) && env(SubmitLookup).fate == Acked
    ensures Run(ps, tr', acts') && tr' != [] && Serves(tr, acts, tr', acts', tid, SubLookup(req), env)
    ensures tid in Last(tr').threads && Last(tr').w == Last(tr).w
    ensures
      Last(tr').threads[tid] ==
      match Lookup(Last(tr).w.rows, req.namespace, req.key)
      case Some(existing) => SubCreate(req, existing.version + 1, existing.id)
      case None => SubCreate(req, 1, "")
  {
    assert tr != [];
    var s := Last(tr);
    hide Run, Step, Lookup, Onward;
    tid := FreeThread(s);
    var started := System(s.w, s.threads[tid := SubLookup(req)]);
    tr', acts' := Goes(ps, tr, acts, Spawn(tid, SubLookup(req)), started);
    LookStep(ps, s.w, req, env(SubmitLookup));
    tr', acts' := Advances(ps, tr', acts', tid, env, "");
  }

  /** It creates its row, and logs it. */
  lemma CreatesAndLogs(ps: Parsers, tr: seq<System>, acts: seq<Action>, tid: nat, id: string, env: Env)
    returns (tr': seq<System>, acts': seq<Action>, p: Parameter)
    requires Run(ps, tr, acts) && tid in Last(tr).threads && Last(tr).threads[tid].SubCreate?
    requires Fresh(Last(tr).w, id) && env(Create).fate == env(Announce(LogSubmitted)).fate == Acked
    requires var prev := Last(tr).threads[tid].prev; prev != "" ==> prev in Last(tr).w.rows
    ensures Run(ps, tr', acts') && tr' != [] && Onward(tr, acts, tr', acts', tid, env) && tid in Last(tr').threads
    ensures
      var SubCreate(req, version, prev) := Last(tr).threads[tid];
      && p == NewParameter(req, version, prev, id, env(Create).now)
      && Last(tr').w.rows == Last(tr).w.rows[id := p]
      && Last(tr').threads[tid] == if prev != "" then SubAnnounce(Supersede, req, p) else SubMark(Validate, p)
  {
    assert tr != [];
    var s := Last(tr);
    var SubCreate(req, version, prev) := s.threads[tid];
    hide Run, Step, Onward;
    p := NewParameter(req, version, prev, id, env(Create).now);
    CreateStep(ps, s.w, req, version, prev, env(Create), id);
    var mid, midActs := Advances(ps, tr, acts, tid, env, id);
    LogStep(ps, Last(mid).w, req, p, env(Announce(LogSubmitted)));
    tr', acts' := Advances(ps, mid, midActs, tid, env, "");
    OnwardTwice(tr, acts, mid, midActs, tr', acts', tid, env);
  }

  /** From every reachable state a Submit can get as far as its row's announcement, with nothing in between. */
  lemma Announces(ps: Parsers, tr: seq<System>, acts: seq<Action>, req: Request, id: string, env: Env)
    returns (tr': seq<System>, acts': seq<Action>, tid: nat, p: Parameter)
    requires Run(ps, tr, acts) && Fresh(Last(tr).w, id)
    requires env(SubmitLookup).fate == env(Create).fate == env(Announce(LogSubmitted)).fate == Acked
    ensures Run(ps, tr', acts') && tr' != [] && Serves(tr, acts, tr', acts', tid, SubLookup(req), env)
    ensures tid in Last(tr').threads
    ensures p.id == id && p.value == req.value && p.valueType == req.valueType && p.state == Submitted
    ensures Last(tr').w.rows == Last(tr).w.rows[id := p]
    ensures
      match Lookup(Last(tr).w.rows, req.namespace, req.key)
      case Some(existing) =>
        && p.prev == existing.id && p.prev in Last(tr).w.rows && Last(tr).w.rows[p.prev].state == Canonical
        && Last(tr').threads[tid] == SubAnnounce(Supersede, req, p)
      case None => Last(tr').threads[tid] == SubMark(Validate, p)
  {
    assert tr != [] && Last(tr) == tr[|acts|];
    InvariantHolds(ps, tr, acts, |acts|);
    hide Run, SystemInv, WorldInv, Lookup, Onward;
    SoundWorld(ps, Last(tr));
    LookupGenuine(ps, Last(tr).w, req.namespace, req.key);
    var mid, midActs;
    mid, midActs, tid := Looks(ps, tr, acts, req, env);
    tr', acts', p := CreatesAndLogs(ps, mid, midActs, tid, id, env);
    ServesOn(tr, acts, mid, midActs, tr', acts', tid, SubLookup(req), env);
  }

  lemma ServesOn(tr: seq<System>, acts: seq<Action>, tr': seq<System>, acts': seq<Action>,
                 tr'': seq<System>, acts'': seq<Action>, tid: nat, t: Thread, env: Env)
    requires tr != [] && Serves(tr, acts, tr', acts', tid, t, env) && Onward(tr', acts', tr'', acts'', tid, env)
    ensures Serves(tr, acts, tr'', acts'', tid, t, env)
  {
    hide Onward;
    var started := System(Last(tr).w, Last(tr).threads[tid := t]);
    OnwardTwice(tr + [started], acts + [Spawn(tid, t)], tr', acts', tr'', acts'', tid, env);
  }

  lemma SupersedeSteps(ps: Parsers, w: World, req: Request, p: Parameter, c: Call, c': Call)
    requires c.fate == c'.fate == Acked && p.prev in w.rows && p.prev != p.id
    ensures
      var w1 := w.(rows := w.rows[p.prev := Moved(w.rows[p.prev], Revoked, c.now)]);
      && Step(ps, w, SubAnnounce(Supersede, req, p), c, "") == (w1, SubAnnounce(LogSuperseded, req, p))
      && var (w2, t2) := Step(ps, w1, SubAnnounce(LogSuperseded, req, p), c', "");
      && w2.rows == w1.rows && t2 == SubAnnounce(Invalidate, req, p)
  {
    hide SupersededEntry;
  }

  lemma InvalidateStep(ps: Parsers, w: World, req: Request, p: Parameter, c: Call)
    ensures
      var (w', t') := Step(ps, w, SubAnnounce(Invalidate, req, p), c, "");
      w'.rows == w.rows && t' == SubMark(Validate, p)
  {
    hide CacheDelete;
  }

  lemma ValidateSteps(ps: Parsers, w: World, p: Parameter, c: Call, c': Call)
    requires c.fate == c'.fate == Acked && p.id in w.rows && !ValidParameter(ps, p)
    ensures
      var w1 := w.(rows := w.rows[p.id := Moved(w.rows[p.id], Validating, c.now)]);
      && Step(ps, w, SubMark(Validate, p), c, "") == (w1, SubNote(Validate, p))
      && var (w2, t2) := Step(ps, w1, SubNote(Validate, p), c', "");
      && w2.rows == w1.rows && t2 == SubMark(Reject, p)
  {
    hide QuorumEntry, ValidParameter;
  }

  /** It retires the version it replaces, and logs that. */
  lemma SupersedesAndLogs(ps: Parsers, tr: seq<System>, acts: seq<Action>, tid: nat, req: Request, p: Parameter, env: Env)
    returns (tr': seq<System>, acts': seq<Action>)
    requires Run(ps, tr, acts) && env(Announce(Supersede)).fate == env(Announce(LogSuperseded)).fate == Acked
    requires tid in Last(tr).threads && Last(tr).threads[tid] == SubAnnounce(Supersede, req, p)
    requires p.prev in Last(tr).w.rows && p.id in Last(tr).w.rows && p.prev != p.id
    ensures Run(ps, tr', acts') && tr' != [] && Onward(tr, acts, tr', acts', tid, env)
    ensures tid in Last(tr').threads && Last(tr').threads[tid] == SubAnnounce(Invalidate, req, p)
    ensures p.id in Last(tr').w.rows
  {
    assert tr != [];
    hide Run, Step, Onward;
    SupersedeSteps(ps, Last(tr).w, req, p, env(Announce(Supersede)), env(Announce(LogSuperseded)));
    var mid, midActs := Advances(ps, tr, acts, tid, env, "");
    tr', acts' := Advances(ps, mid, midActs, tid, env, "");
    OnwardTwice(tr, acts, mid, midActs, tr', acts', tid, env);
  }

  lemma Invalidates(ps: Parsers, tr: seq<System>, acts: seq<Action>, tid: nat, req: Request, p: Parameter, env: Env)
    returns (tr': seq<System>, acts': seq<Action>)
    requires Run(ps, tr, acts) && p.id in Last(tr).w.rows
    requires tid in Last(tr).threads && Last(tr).threads[tid] == SubAnnounce(Invalidate, req, p)
    ensures Run(ps, tr', acts') && tr' != [] && Onward(tr, acts, tr', acts', tid, env)
    ensures tid in Last(tr').threads && Last(tr').threads[tid] == SubMark(Validate, p) && p.id in Last(tr').w.rows
  {
    assert tr != [];
    hide Run, Step, Onward;
    InvalidateStep(ps, Last(tr).w, req, p, env(Announce(Invalidate)));
    tr', acts' := Advances(ps, tr, acts, tid, env, "");
  }

  /** It fails validation. */
  lemma FailsValidation(ps: Parsers, tr: seq<System>, acts: seq<Action>, tid: nat, p: Parameter, env: Env)
    returns (tr': seq<System>, acts': seq<Action>)
    requires Run(ps, tr, acts) && !ValidParameter(ps, p) && p.id in Last(tr).w.rows
    requires env(Mark(Validate)).fate == env(Note(Validate)).fate == Acked
    requires tid in Last(tr).threads && Last(tr).threads[tid] == SubMark(Validate, p)
    ensures Run(ps, tr', acts') && tr' != [] && Onward(tr, acts, tr', acts', tid, env)
    ensures tid in Last(tr').threads && Last(tr').threads[tid] == SubMark(Reject, p)
  {
    assert tr != [];
    hide Run, Step, ValidParameter, Onward;
    ValidateSteps(ps, Last(tr).w, p, env(Mark(Validate)), env(Note(Validate)));
    var mid, midActs := Advances(ps, tr, acts, tid, env, "");
    tr', acts' := Advances(ps, mid, midActs, tid, env, "");
    OnwardTwice(tr, acts, mid, midActs, tr', acts', tid, env);
  }

  /** From every reachable state an invalid Submit can get as far as the state write of its rejection. */
  lemma ReachesRejection(ps: Parsers, tr: seq<System>, acts: seq<Action>, req: Request, id: string, env: Env)
    returns (tr': seq<System>, acts': seq<Action>, tid: nat)
    requires Run(ps, tr, acts) && Fresh(Last(tr).w, id) && LosesOnly(env, Mark(Reject))
    requires !ValidValue(ps, req.value, req.valueType)
    ensures Run(ps, tr', acts') && tr' != [] && Serves(tr, acts, tr', acts', tid, SubLookup(req), env)
    ensures tid in Last(tr').threads
    ensures
      var t := Last(tr').threads[tid];
      t.SubMark? && t.goal == Reject && t.p.id == id
  {
    assert tr != [];
    hide Run, Lookup, ValidValue, Serves, Onward;
    var mid, midActs, p;
    mid, midActs, tid, p := Announces(ps, tr, acts, req, id, env);
    if Lookup(Last(tr).w.rows, req.namespace, req.key).Some? {
      var next, nextActs := SupersedesAndLogs(ps, mid, midActs, tid, req, p, env);
      ServesOn(tr, acts, mid, midActs, next, nextActs, tid, SubLookup(req), env);
      mid, midActs := Invalidates(ps, next, nextActs, tid, req, p, env);
      ServesOn(tr, acts, next, nextActs, mid, midActs, tid, SubLookup(req), env);
    }
    tr', acts' := FailsValidation(ps, mid, midActs, tid, p, env);
    ServesOn(tr, acts, mid, midActs, tr', acts', tid, SubLookup(req), env);
  }

  /** The last entry of the ledger is one of this kind for this row, and the row is not where it says. */
  ghost predicate Misinformed(s: System, kind: EventKind, id: string) {
    && s.w.log != []
    && var e := s.w.log[|s.w.log| - 1];
    && e.kind == kind && e.parameterId == id && id in s.w.rows && s.w.rows[id].state == e.from != e.to
  }

  /** Lose the thread's unchecked state write and keep its entry. */
  lemma LosesThenKeeps(ps: Parsers, tr: seq<System>, acts: seq<Action>, tid: nat, env: Env)
    returns (tr': seq<System>, acts': seq<Action>)
    requires Run(ps, tr, acts) && tid in Last(tr).threads && WritesUnchecked(Last(tr).w, Last(tr).threads[tid])
    requires LosesOnly(env, SiteOf(Last(tr).threads[tid]))
    ensures Run(ps, tr', acts') && tr' != [] && Onward(tr, acts, tr', acts', tid, env)
    ensures
      var t := Last(tr).threads[tid];
      if t.SubMark? then Misinformed(Last(tr'), RejectedEvent, t.p.id)
      else Misinformed(Last(tr'), SupersededEvent, t.p.prev)
  {
    assert tr != [] && Last(tr) == tr[|acts|];
    InvariantHolds(ps, tr, acts, |acts|);
    var s := Last(tr);
    var t := s.threads[tid];
    hide Run, Step, Onward;
    assert ThreadInv(ps, s.w, t);
    hide SystemInv, ThreadInv;
    var t1 := Step(ps, s.w, t, env(SiteOf(t)), "").1;
    assert SiteOf(t1) != SiteOf(t) && env(SiteOf(t1)).fate == Acked by {
      LostThenKept(ps, s.w, t, env(SiteOf(t)), Call(Acked, 0), "");
    }
    LostThenKept(ps, s.w, t, env(SiteOf(t)), env(SiteOf(t1)), "");
    var mid, midActs := Advances(ps, tr, acts, tid, env, "");
    tr', acts' := Advances(ps, mid, midActs, tid, env, "");
    OnwardTwice(tr, acts, mid, midActs, tr', acts', tid, env);
  }

  /** From every reachable state an invalid Submit whose one lost call is the state write of its rejection, with
      nothing else in between, leaves a REJECTED entry for its row, which is still VALIDATING. */
  lemma RejectedMisinforms(ps: Parsers, tr: seq<System>, acts: seq<Action>, req: Request, id: string, env: Env)
    returns (tr': seq<System>, acts': seq<Action>, tid: nat)
    requires Run(ps, tr, acts) && Fresh(Last(tr).w, id) && !ValidValue(ps, req.value, req.valueType)
    requires LosesOnly(env, Mark(Reject))
    ensures Run(ps, tr', acts') && tr' != [] && Serves(tr, acts, tr', acts', tid, SubLookup(req), env)
    ensures Misinformed(Last(tr'), RejectedEvent, id)
  {
    assert tr != [];
    hide Run, Misinformed, ValidValue, Serves, Onward, LosesOnly;
    var mid, midActs;
    mid, midActs, tid := ReachesRejection(ps, tr, acts, req, id, env);
    tr', acts' := LosesThenKeeps(ps, mid, midActs, tid, env);
    ServesOn(tr, acts, mid, midActs, tr', acts', tid, SubLookup(req), env);
  }

  /** From every reachable state in which a key has a canonical row, a Submit of the key whose one lost call is
      the state write that supersedes it, with nothing else in between, leaves a SUPERSEDED entry for that row,
      which is still CANONICAL. */
  lemma SupersededMisinforms(ps: Parsers, tr: seq<System>, acts: seq<Action>, req: Request, id: string, env: Env)
    returns (tr': seq<System>, acts': seq<Action>, tid: nat)
    requires Run(ps, tr, acts) && Fresh(Last(tr).w, id) && Lookup(Last(tr).w.rows, req.namespace, req.key).Some?
    requires LosesOnly(env, Announce(Supersede))
    ensures Run(ps, tr', acts') && tr' != [] && Serves(tr, acts, tr', acts', tid, SubLookup(req), env)
    ensures Misinformed(Last(tr'), SupersededEvent, Lookup(Last(tr).w.rows, req.namespace, req.key).value.id)
  {
    assert tr != [];
    hide Run, Misinformed, Lookup, Serves, Onward;
    var mid, midActs, p;
    mid, midActs, tid, p := Announces(ps, tr, acts, req, id, env);
    tr', acts' := LosesThenKeeps(ps, mid, midActs, tid, env);
    ServesOn(tr, acts, mid, midActs, tr', acts', tid, SubLookup(req), env);
  }

  function Losing(lost: Site): Env {
    site => Call(if site == lost then Lost else Acked, 0)
  }

  /** Such a run from the start: one Submit of an unknown value type. */
  lemma RejectedMisinformsFromTheStart(ps: Parsers) returns (tr: seq<System>, acts: seq<Action>, tid: nat)
    ensures Run(ps, tr, acts) && tr != []
    ensures Serves([BOOT], [], tr, acts, tid, SubLookup(Sample("", "").(valueType := "")), Losing(Mark(Reject)))
    ensures Misinformed(Last(tr), RejectedEvent, "1")
  {
    var unknown := Sample("", "").(valueType := "");
    hide Run, Misinformed, Serves, LosesOnly, Losing;
    LosingLosesOnly(Mark(Reject));
    StartsRun(ps);
    NoSuchType(ps, unknown);
    tr, acts, tid := RejectedMisinforms(ps, [BOOT], [], unknown, "1", Losing(Mark(Reject)));
  }

  /** A Submit that succeeds, from the start. */
  lemma PublishedFromTheStart(ps: Parsers, req: Request)
    returns (tr: seq<System>, acts: seq<Action>, tid: nat)
    requires ValidValue(ps, req.value, req.valueType)
    ensures Run(ps, tr, acts) && tr != [] && Serves([BOOT], [], tr, acts, tid, SubLookup(req), PERFECT)
    ensures tid in Last(tr).threads && Last(tr).threads[tid].SubmitOk? && Last(tr).w.rows.Keys == {"1"}
    ensures Lookup(Last(tr).w.rows, req.namespace, req.key).Some?
    ensures Lookup(Last(tr).w.rows, req.namespace, req.key).value.id == "1"
  {
    assert StoreAnswers(PERFECT);
    hide Run, Solo, Lookup, ValidValue, StoreAnswers, Serves, WorldInv;
    StartsRun(ps);
    WinnerIsCanonical(ps, req, PERFECT, "1");
    tr, acts, tid := CallIsARun(ps, [BOOT], [], SubLookup(req), PERFECT, "1");
    WorldOf(ps, tr, acts);
    CanonicalIsFound(ps, Last(tr).w, "1");
  }

  /** Such a run from the start: two Submits of one key, the first of which succeeds. */
  lemma SupersededMisinformsFromTheStart(ps: Parsers)
    returns (published: seq<System>, publishedActs: seq<Action>, first: nat, tr: seq<System>, acts: seq<Action>, second: nat)
    ensures published != [] && Serves([BOOT], [], published, publishedActs, first, SubLookup(Sample("", "")), PERFECT)
    ensures first in Last(published).threads && Last(published).threads[first].SubmitOk?
    ensures Run(ps, tr, acts) && tr != []
    ensures Serves(published, publishedActs, tr, acts, second, SubLookup(Sample("", "")), Losing(Announce(Supersede)))
    ensures Misinformed(Last(tr), SupersededEvent, "1")
  {
    hide Run, Lookup, Misinformed, Serves, LosesOnly, Losing, Sample, ValidValue;
    SampleIsValid(ps);
    LosingLosesOnly(Announce(Supersede));
    published, publishedActs, first := PublishedFromTheStart(ps, Sample("", ""));
    tr, acts, second :=
      SupersededMisinforms(ps, published, publishedActs, Sample("", ""), "2", Losing(Announce(Supersede)));
  }

  lemma LosingLosesOnly(lost: Site)
    ensures LosesOnly(Losing(lost), lost)
  {
  }

  lemma SampleIsValid(ps: Parsers)
    ensures ValidValue(ps, Sample("", "").value, Sample("", "").valueType)
  {
  }

  lemma NoSuchType(ps: Parsers, req: Request)
    requires req.valueType == ""
    ensures !ValidValue(ps, req.value, req.valueType)
  {
  }

  lemma CanonicalIsFound(ps: Parsers, w: World, id: string)
    requires WorldInv(ps, w) && id in w.rows && w.rows[id].state == Canonical
    ensures Lookup(w.rows, w.rows[id].namespace, w.rows[id].key).Some?
    ensures Lookup(w.rows, w.rows[id].namespace, w.rows[id].key).value.id == id
  {
    LookupFinds(w.rows, id);
    assert RowSound(ps, w.rows, id);
  }
}
