/** What acceptance of a golden suite means, beyond any single check. */
module SuiteFacts {
  import opened Model
  import opened Lists
  import opened GoldenSuite

  // ---------- counting cases ----------

  /** Accepted and excluded ids are disjoint, and together they are exactly as many as the
      source has cases. */
  lemma CasesPartitionTheSource(lib: Library, m: Manifest, g: Gates, c: CaseSet, gateBytes: Bytes, caseBytes: Bytes)
    requires ManifestWellFormed(lib, m, gateBytes, caseBytes) && CasesWellFormed(lib, m, g, c)
    ensures
      var accepted, excluded := Elements(Map(CaseId, c.cases)), Elements(Map(ExcludedId, m.excluded));
      accepted !! excluded && |accepted + excluded| == m.source.caseCount
  {
    var ids, gone := Map(CaseId, c.cases), Map(ExcludedId, m.excluded);
    DistinctCounts(ids);
    DistinctCounts(gone);
    forall id | id in Elements(ids) ensures id !in Elements(gone) {
      var i :| 0 <= i < |ids| && ids[i] == id;
      assert c.cases[i] in c.cases;
      CaseBasics(lib, m, c.cases[i]);
    }
    assert |Elements(ids) + Elements(gone)| == |Elements(ids)| + |Elements(gone)|;
  }

  /** No accepted case cites a blocked document, and only refusals and hand-offs cite none. */
  lemma EvidenceIsPermitted(lib: Library, m: Manifest, g: Gates, c: CaseSet, item: Case)
    requires CasesWellFormed(lib, m, g, c) && item in c.cases
    ensures Elements(item.evidence) !! Elements(m.blocked)
    ensures item.evidence == [] <==> item.evidenceRequired == Some(false)
    ensures item.evidence == [] ==> item.category == "scope_refusal" || item.category == "human_handoff"
  {
    assert CaseWellFormed(lib, m, item);
  }

  // ---------- the metric table ----------

  /** For any required table: the accepted metrics are a permutation of it. */
  lemma MetricsAreTheTable(required: map<string, string>, metrics: seq<MetricGate>)
    requires MetricsWellFormed(required, metrics)
    ensures |metrics| == |required|
    ensures multiset(Map(MetricKey, metrics)) == multiset(required.Keys)
    ensures forall metric | metric in metrics :: metric.comparator == required[metric.key]
  {
    var keys := Map(MetricKey, metrics);
    DistinctCounts(keys);
    DistinctIsMultiplicity(keys);
    assert |required.Keys| == |required|;
    forall k ensures multiset(keys)[k] == multiset(required.Keys)[k] {
      assert k in keys <==> k in Elements(keys);
    }
  }

  /** The metrics of an accepted directory are these six, each once. */
  lemma SixMetrics(lib: Library, manifest: Option<Manifest>, gates: Option<Decoded<Gates>>, cases: Option<Decoded<CaseSet>>)
    requires DirAccepted(lib, manifest, gates, cases)
    ensures multiset(Map(MetricKey, gates.value.value.metrics)) ==
            multiset{"overall_pass_rate", "accuracy_average", "scope_adherence_average", "unsupported_claim_rate",
                     "financial_boundary_violation_rate", "stale_or_unauthorized_evidence_rate"}
  {
    assert MetricsWellFormed(REQUIRED_METRICS, gates.value.value.metrics);
    hide *;
    MetricsAreTheTable(REQUIRED_METRICS, gates.value.value.metrics);
    SixKeys();
  }

  lemma SixKeys()
    ensures multiset(REQUIRED_METRICS.Keys) ==
            multiset{"overall_pass_rate", "accuracy_average", "scope_adherence_average", "unsupported_claim_rate",
                     "financial_boundary_violation_rate", "stale_or_unauthorized_evidence_rate"}
  {
    assert REQUIRED_METRICS.Keys ==
           {"overall_pass_rate", "accuracy_average", "scope_adherence_average", "unsupported_claim_rate",
            "financial_boundary_violation_rate", "stale_or_unauthorized_evidence_rate"};
  }

  // ---------- order does not matter ----------

  lemma CleanPermuted(a: seq<string>, b: seq<string>)
    requires multiset(a) == multiset(b)
    ensures Clean(a) <==> Clean(b)
  {
    DistinctPermuted(a, b);
  }

  lemma ManifestPermuted(lib: Library, m: Manifest, m': Manifest, gateBytes: Bytes, caseBytes: Bytes)
    requires m' == m.(blocked := m'.blocked, excluded := m'.excluded)
    requires multiset(m.blocked) == multiset(m'.blocked) && multiset(m.excluded) == multiset(m'.excluded)
    ensures ManifestWellFormed(lib, m, gateBytes, caseBytes) <==> ManifestWellFormed(lib, m', gateBytes, caseBytes)
  {
    hide ManifestHeader, Map, Distinct;
    assert ManifestHeader(lib, m, gateBytes, caseBytes) <==> ManifestHeader(lib, m', gateBytes, caseBytes) by {
      HeaderIgnoresLists(lib, m, m', gateBytes, caseBytes);
    }
    DistinctPermuted(m.blocked, m'.blocked);
    DistinctPermuted(m.excluded, m'.excluded);
    MapPermuted(ExcludedId, m.excluded, m'.excluded);
    CleanPermuted(Map(ExcludedId, m.excluded), Map(ExcludedId, m'.excluded));
  }

  lemma HeaderIgnoresLists(lib: Library, m: Manifest, m': Manifest, gateBytes: Bytes, caseBytes: Bytes)
    requires m' == m.(blocked := m'.blocked, excluded := m'.excluded)
    ensures ManifestHeader(lib, m, gateBytes, caseBytes) <==> ManifestHeader(lib, m', gateBytes, caseBytes)
  {
  }

  lemma MetricsPermuted(required: map<string, string>, a: seq<MetricGate>, b: seq<MetricGate>)
    requires multiset(a) == multiset(b)
    ensures MetricsWellFormed(required, a) <==> MetricsWellFormed(required, b)
  {
    hide Map, Distinct, MetricWellFormed;
    DistinctPermuted(a, b);
    MapPermuted(MetricKey, a, b);
    DistinctPermuted(Map(MetricKey, a), Map(MetricKey, b));
    assert Elements(Map(MetricKey, a)) == Elements(Map(MetricKey, b));
  }

  lemma GatesPermuted(lib: Library, required: map<string, string>, m: Manifest, m': Manifest, g: Gates, g': Gates)
    requires m' == m.(blocked := m'.blocked, excluded := m'.excluded)
    requires g' == g.(metrics := g'.metrics) && multiset(g.metrics) == multiset(g'.metrics)
    ensures GatesWellFormed(lib, required, m, g) <==> GatesWellFormed(lib, required, m', g')
  {
    MetricsPermuted(required, g.metrics, g'.metrics);
    hide MetricsWellFormed, MappedTo;
  }

  lemma CasePermuted(lib: Library, m: Manifest, m': Manifest, c: Case)
    requires m' == m.(blocked := m'.blocked, excluded := m'.excluded)
    requires multiset(m.blocked) == multiset(m'.blocked) && multiset(m.excluded) == multiset(m'.excluded)
    ensures CaseWellFormed(lib, m, c) <==> CaseWellFormed(lib, m', c)
  {
    hide Map, Clean, AllowedCategory, AllowedDimension, EvidenceOptional, Distinct;
    DistinctPermuted(m.blocked, m'.blocked);
    MapPermuted(ExcludedId, m.excluded, m'.excluded);
    DistinctPermuted(Map(ExcludedId, m.excluded), Map(ExcludedId, m'.excluded));
  }

  lemma CasesPermuted(lib: Library, m: Manifest, m': Manifest, g: Gates, g': Gates, c: CaseSet, c': CaseSet)
    requires m' == m.(blocked := m'.blocked, excluded := m'.excluded)
    requires multiset(m.blocked) == multiset(m'.blocked) && multiset(m.excluded) == multiset(m'.excluded)
    requires g' == g.(metrics := g'.metrics)
    requires c' == c.(cases := c'.cases) && multiset(c.cases) == multiset(c'.cases)
    ensures CasesWellFormed(lib, m, g, c) <==> CasesWellFormed(lib, m', g', c')
  {
    hide CaseWellFormed, Map, Distinct;
    DistinctPermuted(c.cases, c'.cases);
    MapPermuted(CaseId, c.cases, c'.cases);
    DistinctPermuted(Map(CaseId, c.cases), Map(CaseId, c'.cases));
    MapPermuted(CaseInput, c.cases, c'.cases);
    MapPermuted(lib.normalize, Map(CaseInput, c.cases), Map(CaseInput, c'.cases));
    DistinctPermuted(Map(lib.normalize, Map(CaseInput, c.cases)), Map(lib.normalize, Map(CaseInput, c'.cases)));
    forall item {
      CasePermuted(lib, m, m', item);
    }
  }

  /** Pinning the artifacts' own bytes is all that the digests do. */
  lemma Repinned(lib: Library, required: map<string, string>, m: Manifest, m': Manifest, g: Gates, c: CaseSet,
                 gateBytes: Bytes, caseBytes: Bytes, gateBytes': Bytes, caseBytes': Bytes)
    requires m' == m.(accepted := m'.accepted)
    requires m'.accepted == m.accepted.(qualityGateSha256 := lib.digest(gateBytes'), caseSetSha256 := lib.digest(caseBytes'))
    requires m.accepted.qualityGateSha256 == lib.digest(gateBytes) && m.accepted.caseSetSha256 == lib.digest(caseBytes)
    ensures SuiteWellFormed(lib, required, m, g, c, gateBytes, caseBytes) <==>
            SuiteWellFormed(lib, required, m', g, c, gateBytes', caseBytes')
  {
    hide Clean, Distinct, Map, MetricsWellFormed, MappedTo;
    hide AllowedCategory, AllowedDimension, EvidenceOptional, SourceWellFormed;
    assert forall item :: CaseWellFormed(lib, m, item) <==> CaseWellFormed(lib, m', item);
    hide CaseWellFormed;
  }

  lemma ListsPermuted(lib: Library, required: map<string, string>, m: Manifest, m': Manifest, g: Gates, g': Gates,
                      c: CaseSet, c': CaseSet, gateBytes: Bytes, caseBytes: Bytes)
    requires m' == m.(blocked := m'.blocked, excluded := m'.excluded)
    requires g' == g.(metrics := g'.metrics) && c' == c.(cases := c'.cases)
    requires multiset(m.blocked) == multiset(m'.blocked) && multiset(m.excluded) == multiset(m'.excluded)
    requires multiset(g.metrics) == multiset(g'.metrics) && multiset(c.cases) == multiset(c'.cases)
    ensures SuiteWellFormed(lib, required, m, g, c, gateBytes, caseBytes) <==>
            SuiteWellFormed(lib, required, m', g', c', gateBytes, caseBytes)
  {
    hide ManifestWellFormed, GatesWellFormed, CasesWellFormed;
    ManifestPermuted(lib, m, m', gateBytes, caseBytes);
    GatesPermuted(lib, required, m, m', g, g');
    CasesPermuted(lib, m, m', g, g', c, c');
  }

  /** The second suite is the first with its cases, metrics, blocked ids and excluded cases reordered: the two
      artifact files have other bytes, and each manifest pins the bytes of its own files. */
  ghost predicate Reordered(lib: Library, m: Manifest, m': Manifest, g: Decoded<Gates>, g': Decoded<Gates>,
                            c: Decoded<CaseSet>, c': Decoded<CaseSet>) {
    && m' == m.(blocked := m'.blocked, excluded := m'.excluded, accepted := m'.accepted)
    && m.accepted.qualityGateSha256 == lib.digest(g.bytes) && m.accepted.caseSetSha256 == lib.digest(c.bytes)
    && m'.accepted ==
         m.accepted.(qualityGateSha256 := lib.digest(g'.bytes), caseSetSha256 := lib.digest(c'.bytes))
    && g'.value == g.value.(metrics := g'.value.metrics) && c'.value == c.value.(cases := c'.value.cases)
    && multiset(m.blocked) == multiset(m'.blocked) && multiset(m.excluded) == multiset(m'.excluded)
    && multiset(g.value.metrics) == multiset(g'.value.metrics)
    && multiset(c.value.cases) == multiset(c'.value.cases)
  }

  /** Acceptance does not depend on the order of cases, metrics, blocked ids or excluded cases. */
  lemma OrderDoesNotMatter(lib: Library, required: map<string, string>, m: Manifest, m': Manifest,
                           g: Decoded<Gates>, g': Decoded<Gates>, c: Decoded<CaseSet>, c': Decoded<CaseSet>)
    requires Reordered(lib, m, m', g, g', c, c')
    ensures SuiteWellFormed(lib, required, m, g.value, c.value, g.bytes, c.bytes) <==>
            SuiteWellFormed(lib, required, m', g'.value, c'.value, g'.bytes, c'.bytes)
  {
    hide SuiteWellFormed;
    var permuted := m.(blocked := m'.blocked, excluded := m'.excluded);
    ListsPermuted(lib, required, m, permuted, g.value, g'.value, c.value, c'.value, g.bytes, c.bytes);
    Repinned(lib, required, permuted, m', g'.value, c'.value, g.bytes, c.bytes, g'.bytes, c'.bytes);
  }

  /** ... so `ValidateDir` accepts both directories or neither. */
  lemma DirOrderDoesNotMatter(lib: Library, m: Manifest, m': Manifest, g: Decoded<Gates>, g': Decoded<Gates>,
                              c: Decoded<CaseSet>, c': Decoded<CaseSet>)
    requires Reordered(lib, m, m', g, g', c, c')
    ensures DirAccepted(lib, Some(m), Some(g), Some(c)) <==> DirAccepted(lib, Some(m'), Some(g'), Some(c'))
  {
    OrderDoesNotMatter(lib, REQUIRED_METRICS, m, m', g, g', c, c');
    hide SuiteWellFormed;
  }

  // ---------- an altered file ----------

  /** Files of other bytes are refused with the same manifest, whatever they contain, unless they have the same digests. */
  lemma AlteredFilesAreRefused(lib: Library, manifest: Option<Manifest>, g: Decoded<Gates>, g': Decoded<Gates>,
                               c: Decoded<CaseSet>, c': Decoded<CaseSet>)
    requires DirAccepted(lib, manifest, Some(g), Some(c))
    requires lib.digest(g'.bytes) != lib.digest(g.bytes) || lib.digest(c'.bytes) != lib.digest(c.bytes)
    ensures !DirAccepted(lib, manifest, Some(g'), Some(c'))
  {
    hide GatesWellFormed, CasesWellFormed, Clean, Distinct, Map, SourceWellFormed;
  }
}
