/** Two places where the code does not reach what it intends, and `Protocol` follows the intention.

    The not-found test of Submit (internal/ledger/ledger.go:41) gives `errors.As` the address of a struct that
    is not itself an error (only its address is, internal/store/store.go:46): it panics before it looks.

    The queries that read one row (internal/store/postgres.go:41 and 54) say COALESCE(previous_version_id,'')
    of a UUID column: '' is no uuid, so Postgres refuses the query whatever the table holds. */
module AsWritten {
  import opened Model
  import opened Tables
  import opened Protocol
  import opened Interleavings

  /** Which of the two are in place. */
  datatype Defects = Defects(target: bool, coalesce: bool)

  predicate ReadsRow(t: Thread) {
    t.SubLookup? || t.SubRefresh? || t.GetStore? || t.RevLookup?
  }

  /** A query that is refused fails like one that is lost. */
  function Suffered(d: Defects, t: Thread, c: Call): Call {
    if d.coalesce && ReadsRow(t) then c.(fate := Lost) else c
  }

  /** `None`: the call panics, and its goroutine ends having changed nothing. */
  ghost function StepWith(d: Defects, ps: Parsers, w: World, t: Thread, c: Call, newId: string): Option<(World, Thread)>
    requires !Finished(t)
  {
    var c' := Suffered(d, t, c);
    if d.target && t.SubLookup? && (c'.fate != Acked || Lookup(w.rows, t.req.namespace, t.req.key).None?) then None
    else Some(Step(ps, w, t, c', newId))
  }

  /** One action of a system with the defects: a panic removes the thread. */
  ghost function ApplyWith(d: Defects, ps: Parsers, s: System, a: Action): System
    requires Possible(s, a)
  {
    if a.Advance? then
      match StepWith(d, ps, s.w, s.threads[a.tid], a.c, a.newId)
      case None => s.(threads := s.threads - {a.tid})
      case Some((w, t)) => System(w, s.threads[a.tid := t])
    else Apply(ps, s, a)
  }

  ghost predicate RunWith(d: Defects, ps: Parsers, tr: seq<System>, acts: seq<Action>) {
    && |tr| == |acts| + 1
    && tr[0] == BOOT
    && forall i | 0 <= i < |acts| :: Possible(tr[i], acts[i]) && tr[i + 1] == ApplyWith(d, ps, tr[i], acts[i])
  }

  /** Step by step, exactly where the code differs from its intention. */
  lemma IntentionDiffersExactly(d: Defects, ps: Parsers, w: World, t: Thread, c: Call, newId: string)
    requires !Finished(t)
    ensures
      StepWith(d, ps, w, t, c, newId) != Some(Step(ps, w, t, c, newId)) <==>
      || (d.target && t.SubLookup?
          && (d.coalesce || c.fate != Acked
              || forall id | id in w.rows :: !IsTop(w.rows, id, t.req.namespace, t.req.key)))
      || (d.coalesce && c.fate == Acked
          && (t.SubLookup? || t.GetStore? || t.RevLookup? || (t.SubRefresh? && t.p.id in w.rows)))
  {
    assert t.SubLookup? ==>
        (Lookup(w.rows, t.req.namespace, t.req.key).None? <==>
         forall id | id in w.rows :: !IsTop(w.rows, id, t.req.namespace, t.req.key));
    hide Lookup;
  }

  predicate Started(d: Defects, t: Thread) {
    || t.SubLookup? || t.GetCache? || t.GetStore? || t.RevLookup?
    || (t.Failed? && (d.coalesce ==> t.err == Io))
  }

  ghost predicate Nothing(d: Defects, s: System) {
    && s.w.rows == map[] && s.w.log == [] && s.w.cache == map[]
    && forall tid | tid in s.threads :: Started(d, s.threads[tid])
  }

  lemma NothingStays(d: Defects, ps: Parsers, s: System, a: Action)
    requires (d.target || d.coalesce) && Nothing(d, s) && Possible(s, a)
    ensures Nothing(d, ApplyWith(d, ps, s, a))
  {
    if a.Advance? {
      var t := s.threads[a.tid];
      assert Started(d, t);
      var c := Suffered(d, t, a.c);
      if StepWith(d, ps, s.w, t, a.c, a.newId).Some? {
        assert Started(d, Step(ps, s.w, t, c, a.newId).1);
      }
    }
  }

  /** With either defect, whatever is submitted and whatever fails, nothing is ever stored, logged or cached, and
      no call succeeds. The panic alone is enough: the first version of a key would have to follow a lookup
      that finds nothing. With the refused query a missing key is not even reported as not found. */
  lemma {:induction false} NothingIsEverStored(d: Defects, ps: Parsers, tr: seq<System>, acts: seq<Action>, n: nat)
    requires (d.target || d.coalesce) && RunWith(d, ps, tr, acts) && n < |tr|
    ensures Nothing(d, tr[n])
    ensures forall tid | tid in tr[n].threads && Finished(tr[n].threads[tid]) ::
              tr[n].threads[tid].Failed? && (d.coalesce ==> tr[n].threads[tid].err == Io)
    decreases n
  {
    if n > 0 {
      NothingIsEverStored(d, ps, tr, acts, n - 1);
      hide Nothing, Possible, ApplyWith;
      NothingStays(d, ps, tr[n - 1], acts[n - 1]);
      FailuresOnly(d, tr[n]);
    }
  }

  lemma FailuresOnly(d: Defects, s: System)
    requires Nothing(d, s)
    ensures forall tid | tid in s.threads && Finished(s.threads[tid]) ::
              s.threads[tid].Failed? && (d.coalesce ==> s.threads[tid].err == Io)
  {
  }

  /** Without them the code does what it intends: its runs are the runs of `Interleavings`. */
  lemma MendedRuns(ps: Parsers, tr: seq<System>, acts: seq<Action>)
    ensures RunWith(Defects(false, false), ps, tr, acts) <==> Run(ps, tr, acts)
  {
    forall s, a | Possible(s, a) ensures ApplyWith(Defects(false, false), ps, s, a) == Apply(ps, s, a) {
      hide Step;
    }
    hide Possible, Apply, ApplyWith;
  }
}
