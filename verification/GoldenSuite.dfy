/** internal/goldensuite/contract.go: the three validators against one quantified predicate. */
module GoldenSuite {
  import opened Model
  import opened Lists

  type Bytes = seq<bv8>

  datatype Source = Source(
    repository: string, commitSha: string, qualityGateSha256: string, caseSetSha256: string, caseCount: int)

  datatype Artifacts = Artifacts(
    qualityGateFile: string, qualityGateSha256: string, caseSetFile: string, caseSetSha256: string, caseCount: int)

  datatype ExcludedCase = ExcludedCase(id: string, reason: string)

  datatype Manifest = Manifest(
    schemaVersion: string, suiteId: string, packageId: string, status: string, authority: string,
    intendedExecutor: string, mode: string, proposedAt: string, canonicalRef: string,
    source: Source, accepted: Artifacts,
    blocked: seq<string>, excluded: seq<ExcludedCase>,
    trustAnchor: string, rolloutAuthorized: bool, effectiveOnlyOnMain: bool)

  datatype MetricGate = MetricGate(key: string, comparator: string, threshold: real)

  datatype MetricMapping = MetricMapping(source: string, availability: string)

  datatype Mapping = Mapping(
    contractVersion: string, status: string, publicKey: Option<string>, metrics: map<string, MetricMapping>)

  datatype Gates = Gates(
    schemaVersion: string, packageId: string, status: string, authority: string,
    intendedExecutor: string, executionStatus: string, mode: string,
    blocksPublicRollout: bool, approvalRequired: bool,
    minimumCases: int, minimumRuns: int,
    metrics: seq<MetricGate>, mapping: Mapping, requirements: seq<string>)

  datatype Case = Case(
    id: string, locale: string, category: string, input: string, expectedBehavior: string,
    forbidden: seq<string>, evidence: seq<string>, evidenceRequired: Option<bool>,
    dimensions: seq<string>, status: string, owner: string)

  datatype CaseSet = CaseSet(
    schemaVersion: string, packageId: string, status: string, truthOwner: string,
    intendedExecutor: string, executionStatus: string, cases: seq<Case>)

  datatype Summary = Summary(
    suiteId: string, packageId: string, caseCount: int, gateStatus: string, caseStatus: string,
    trustAnchor: string, rolloutAuthorized: bool)

  /** Library calls: date and URL parsing, SHA-256, ToLower(TrimSpace(s)), base64 decoding. */
  datatype Library = Library(
    isDate: string -> bool,
    isPackageUrl: string -> bool,
    digest: Bytes -> string,
    normalize: string -> string,
    decodedLength: string -> Option<nat>)

  const PACKAGE_ID := "rbx-rag-public-assistant"

  const REQUIRED_METRICS: map<string, string> := map[
    "overall_pass_rate" := "gte",
    "accuracy_average" := "gte",
    "scope_adherence_average" := "gte",
    "unsupported_claim_rate" := "lte",
    "financial_boundary_violation_rate" := "lte",
    "stale_or_unauthorized_evidence_rate" := "lte"]

  const ALLOWED_CATEGORIES: set<string> := {
    "scope_refusal", "grounded_product_fact", "financial_boundary",
    "product_boundary", "unsupported_claim_refusal", "human_handoff"}

  const EVIDENCE_OPTIONAL_CATEGORIES: set<string> := {"scope_refusal", "human_handoff"}

  const ALLOWED_RUBRIC_DIMENSIONS: set<string> := {"accuracy", "cta", "scope_adherence", "tone"}

  predicate AllowedCategory(c: string) {
    || c == "scope_refusal" || c == "grounded_product_fact" || c == "financial_boundary"
    || c == "product_boundary" || c == "unsupported_claim_refusal" || c == "human_handoff"
  }

  predicate EvidenceOptional(c: string) {
    c == "scope_refusal" || c == "human_handoff"
  }

  predicate AllowedDimension(d: string) {
    d == "accuracy" || d == "cta" || d == "scope_adherence" || d == "tone"
  }

  // ---------- what is well formed ----------

  function ExcludedId(e: ExcludedCase): string { e.id }
  function CaseId(c: Case): string { c.id }
  function CaseInput(c: Case): string { c.input }
  function MetricKey(m: MetricGate): string { m.key }

  /** Distinct and without the empty string. */
  ghost predicate Clean(s: seq<string>) {
    Distinct(s) && "" !in s
  }

  predicate LowerHex(s: string, length: nat) {
    |s| == length && length % 2 == 0 && forall c | c in s :: '0' <= c <= '9' || 'a' <= c <= 'f'
  }

  predicate SourceWellFormed(lib: Library, s: Source) {
    && lib.isPackageUrl(s.repository)
    && LowerHex(s.commitSha, 40)
    && LowerHex(s.qualityGateSha256, 64) && LowerHex(s.caseSetSha256, 64)
    && s.caseCount > 0
  }

  predicate ManifestHeader(lib: Library, m: Manifest, gateBytes: Bytes, caseBytes: Bytes) {
    && m.schemaVersion == "1.0" && m.suiteId != "" && m.packageId == "rbx-rag-public-assistant"
    && m.status == "accepted" && m.authority == "truthmetal"
    && m.intendedExecutor == "verentir" && m.mode == "shadow"
    && m.effectiveOnlyOnMain && !m.rolloutAuthorized
    && lib.isDate(m.proposedAt) && m.canonicalRef == "refs/heads/main"
    && SourceWellFormed(lib, m.source)
    && m.accepted.qualityGateSha256 == lib.digest(gateBytes)
    && m.accepted.caseSetSha256 == lib.digest(caseBytes)
    && m.accepted.caseCount > 0
    && (m.trustAnchor == "pending" || m.trustAnchor == "accepted")
  }

  ghost predicate ManifestWellFormed(lib: Library, m: Manifest, gateBytes: Bytes, caseBytes: Bytes) {
    && ManifestHeader(lib, m, gateBytes, caseBytes)
    && m.blocked != [] && Clean(m.blocked)
    && Clean(Map(ExcludedId, m.excluded))
    && (forall e | e in m.excluded :: e.reason != "")
    && m.source.caseCount == m.accepted.caseCount + |m.excluded|
  }

  predicate GatesHeader(m: Manifest, g: Gates) {
    && g.schemaVersion == "1.0" && g.packageId == m.packageId
    && g.status == "accepted" && g.authority == "truthmetal"
    && g.intendedExecutor == "verentir" && g.executionStatus == "adapter-available"
    && g.mode == "shadow" && g.blocksPublicRollout && g.approvalRequired
    && 0 < g.minimumCases <= m.accepted.caseCount
    && g.minimumRuns > 0 && g.requirements != []
  }

  predicate MetricWellFormed(required: map<string, string>, metric: MetricGate) {
    metric.key in required && metric.comparator == required[metric.key] && 0.0 <= metric.threshold <= 1.0
  }

  /** The metrics are distinct, well formed, and cover the required table. */
  ghost predicate MetricsWellFormed(required: map<string, string>, metrics: seq<MetricGate>) {
    && (forall metric | metric in metrics :: MetricWellFormed(required, metric))
    && Distinct(Map(MetricKey, metrics))
    && Elements(Map(MetricKey, metrics)) == required.Keys
  }

  predicate MappedTo(key: string, mapping: MetricMapping) {
    mapping.availability == "available" && mapping.source == "rag_quality_report.metrics." + key
  }

  /** A key is published exactly when the trust anchor is accepted, and it has 32 bytes. */
  predicate SigningWellFormed(lib: Library, m: Manifest, g: Gates) {
    if m.trustAnchor == "pending" then g.mapping.publicKey == None
    else g.mapping.publicKey.Some? && lib.decodedLength(g.mapping.publicKey.value) == Some(32)
  }

  /** The metrics are the required table, key for key; so is the mapping. */
  ghost predicate GatesWellFormed(lib: Library, required: map<string, string>, m: Manifest, g: Gates) {
    && GatesHeader(m, g)
    && MetricsWellFormed(required, g.metrics)
    && g.mapping.contractVersion == "1" && g.mapping.status == "available"
    && g.mapping.metrics.Keys == required.Keys
    && (forall key | key in g.mapping.metrics :: MappedTo(key, g.mapping.metrics[key]))
    && SigningWellFormed(lib, m, g)
  }

  predicate CasesHeader(m: Manifest, g: Gates, c: CaseSet) {
    && c.schemaVersion == "1.0" && c.packageId == m.packageId
    && c.status == "accepted" && c.truthOwner == "truthmetal"
    && c.intendedExecutor == "verentir" && c.executionStatus == "adapter-available"
    && |c.cases| == m.accepted.caseCount && |c.cases| >= g.minimumCases
  }

  /** One accepted case, apart from its relation to the other cases. */
  ghost predicate CaseWellFormed(lib: Library, m: Manifest, c: Case) {
    && c.id != "" && c.id !in Map(ExcludedId, m.excluded)
    && lib.normalize(c.input) != ""
    && c.locale != "" && c.expectedBehavior != ""
    && c.forbidden != [] && Clean(c.forbidden)
    && AllowedCategory(c.category)
    && c.status == "accepted" && c.owner == "truthmetal"
    && c.evidenceRequired.Some?
    && (if c.evidenceRequired.value then c.evidence != [] else c.evidence == [] && EvidenceOptional(c.category))
    && Clean(c.evidence) && (forall d | d in c.evidence :: d !in m.blocked)
    && c.dimensions != [] && Clean(c.dimensions) && (forall d | d in c.dimensions :: AllowedDimension(d))
  }

  /** The cases are well formed, and distinct in their ids and normalised inputs. */
  ghost predicate AllCasesWellFormed(lib: Library, m: Manifest, cases: seq<Case>) {
    && Distinct(Map(CaseId, cases))
    && Distinct(Map(lib.normalize, Map(CaseInput, cases)))
    && forall item | item in cases :: CaseWellFormed(lib, m, item)
  }

  ghost predicate CasesWellFormed(lib: Library, m: Manifest, g: Gates, c: CaseSet) {
    CasesHeader(m, g, c) && AllCasesWellFormed(lib, m, c.cases)
  }

  ghost predicate SuiteWellFormed(lib: Library, required: map<string, string>, m: Manifest, g: Gates, c: CaseSet,
                                  gateBytes: Bytes, caseBytes: Bytes) {
    && ManifestWellFormed(lib, m, gateBytes, caseBytes)
    && GatesWellFormed(lib, required, m, g)
    && CasesWellFormed(lib, m, g, c)
  }

  // ---------- the validators ----------

  /** Growing a prefix by one element. */
  lemma OneMoreElement<T>(s: seq<T>, i: nat)
    requires i < |s|
    ensures s[..i + 1] == s[..i] + [s[i]]
    ensures Elements(s[..i + 1]) == Elements(s[..i]) + {s[i]}
    ensures Distinct(s[..i + 1]) <==> Distinct(s[..i]) && s[i] !in Elements(s[..i])
  {
    assert s[..i + 1] == s[..i] + [s[i]];
    if Distinct(s[..i + 1]) {
      assert forall j | 0 <= j < i :: s[..i + 1][j] == s[j] != s[..i + 1][i] == s[i];
      assert forall j, k | 0 <= j < k < i :: s[..i][j] == s[..i + 1][j] && s[..i][k] == s[..i + 1][k];
    }
  }

  /** What repeats in a prefix repeats in the whole. */
  lemma RepeatsInPrefix<T>(s: seq<T>, i: nat)
    requires i < |s|
    ensures s[i] in Elements(s[..i]) ==> !Distinct(s)
  {
    if s[i] in Elements(s[..i]) {
      var j :| 0 <= j < i && s[..i][j] == s[i];
      assert s[j] == s[i];
    }
  }

  method HasDuplicates(values: seq<string>) returns (duplicates: bool)
    ensures duplicates <==> !Clean(values)
  {
    var seen: set<string> := {};
    var i := 0;
    while i < |values|
      invariant 0 <= i <= |values|
      invariant seen == Elements(values[..i])
      invariant Clean(values[..i])
    {
      OneMoreElement(values, i);
      if values[i] == "" || values[i] in seen {
        RepeatsInPrefix(values, i);
        return true;
      }
      seen := seen + {values[i]};
      i := i + 1;
    }
    assert values[..|values|] == values;
    return false;
  }

  function Lower(c: char): char {
    if 'A' <= c <= 'Z' then c - 'A' + 'a' else c
  }

  predicate HexDigit(c: char) {
    '0' <= c <= '9' || 'a' <= c <= 'f' || 'A' <= c <= 'F'
  }

  /** `isLowerHex`: of the right length, unchanged by lower-casing, and hexadecimal. */
  predicate IsLowerHex(value: string, length: nat)
    ensures IsLowerHex(value, length) <==> LowerHex(value, length)
  {
    && |value| == length && (forall c | c in value :: c == Lower(c))
    && |value| % 2 == 0 && (forall c | c in value :: HexDigit(c))
  }

  method ValidateSource(lib: Library, s: Source) returns (ok: bool)
    ensures ok <==> SourceWellFormed(lib, s)
  {
    if !lib.isPackageUrl(s.repository) {
      return false;
    }
    if !IsLowerHex(s.commitSha, 40) {
      return false;
    }
    if !IsLowerHex(s.qualityGateSha256, 64) || !IsLowerHex(s.caseSetSha256, 64) {
      return false;
    }
    if s.caseCount <= 0 {
      return false;
    }
    return true;
  }

  /** The checks of `validateManifest` before its loops. */
  method ValidateManifestHeader(lib: Library, m: Manifest, gateBytes: Bytes, caseBytes: Bytes) returns (ok: bool)
    ensures ok && (m.trustAnchor == "pending" || m.trustAnchor == "accepted") <==>
            ManifestHeader(lib, m, gateBytes, caseBytes)
  {
    if m.schemaVersion != "1.0" {
      return false;
    }
    if m.suiteId == "" {
      return false;
    }
    if m.packageId != PACKAGE_ID {
      return false;
    }
    if m.status != "accepted" || m.authority != "truthmetal" {
      return false;
    }
    if m.intendedExecutor != "verentir" || m.mode != "shadow" {
      return false;
    }
    if !m.effectiveOnlyOnMain {
      return false;
    }
    if m.rolloutAuthorized {
      return false;
    }
    if !lib.isDate(m.proposedAt) {
      return false;
    }
    if m.canonicalRef != "refs/heads/main" {
      return false;
    }
    var source := ValidateSource(lib, m.source);
    if !source {
      return false;
    }
    if m.accepted.qualityGateSha256 != lib.digest(gateBytes) {
      return false;
    }
    if m.accepted.caseSetSha256 != lib.digest(caseBytes) {
      return false;
    }
    if m.accepted.caseCount <= 0 {
      return false;
    }
    return true;
  }

  method ValidateManifest(lib: Library, m: Manifest, gateBytes: Bytes, caseBytes: Bytes) returns (ok: bool)
    ensures ok <==> ManifestWellFormed(lib, m, gateBytes, caseBytes)
    ensures ok ==>
      && m.schemaVersion == "1.0" && m.suiteId != "" && m.packageId == "rbx-rag-public-assistant"
      && m.status == "accepted" && m.authority == "truthmetal"
      && m.intendedExecutor == "verentir" && m.mode == "shadow"
      && m.effectiveOnlyOnMain && !m.rolloutAuthorized && m.canonicalRef == "refs/heads/main"
      && lib.isDate(m.proposedAt) && lib.isPackageUrl(m.source.repository)
      && |m.source.commitSha| == 40 && |m.source.qualityGateSha256| == |m.source.caseSetSha256| == 64
      && (forall c | c in m.source.commitSha + m.source.qualityGateSha256 + m.source.caseSetSha256 ::
            '0' <= c <= '9' || 'a' <= c <= 'f')
      && m.accepted.qualityGateSha256 == lib.digest(gateBytes)
      && m.accepted.caseSetSha256 == lib.digest(caseBytes)
      && m.source.caseCount >= m.accepted.caseCount > 0
      && (m.trustAnchor == "pending" || m.trustAnchor == "accepted")
  {
    var header := ValidateManifestHeader(lib, m, gateBytes, caseBytes);
    if !header {
      return false;
    }
    if |m.blocked| == 0 {
      return false;
    }
    if m.source.caseCount != m.accepted.caseCount + |m.excluded| {
      return false;
    }
    var blocked: set<string> := {};
    var n := 0;
    while n < |m.blocked|
      invariant 0 <= n <= |m.blocked|
      invariant blocked == Elements(m.blocked[..n])
      invariant Clean(m.blocked[..n])
    {
      OneMoreElement(m.blocked, n);
      if m.blocked[n] == "" || m.blocked[n] in blocked {
        RepeatsInPrefix(m.blocked, n);
        return false;
      }
      blocked := blocked + {m.blocked[n]};
      n := n + 1;
    }
    assert m.blocked[..|m.blocked|] == m.blocked;
    var excluded: set<string> := {};
    ghost var ids := Map(ExcludedId, m.excluded);
    var i := 0;
    while i < |m.excluded|
      invariant 0 <= i <= |m.excluded|
      invariant excluded == Elements(ids[..i])
      invariant Clean(ids[..i])
      invariant forall j | 0 <= j < i :: m.excluded[j].reason != ""
    {
      var item := m.excluded[i];
      OneMoreElement(ids, i);
      if item.id == "" || item.reason == "" || item.id in excluded {
        RepeatsInPrefix(ids, i);
        assert ids[i] == item.id && item in m.excluded;
        return false;
      }
      excluded := excluded + {item.id};
      i := i + 1;
    }
    assert ids[..|ids|] == ids;
    if m.trustAnchor != "pending" && m.trustAnchor != "accepted" {
      return false;
    }
    return true;
  }

  /** After i metrics nothing was wrong, and `seen` holds their keys. */
  ghost predicate MetricsSoFar(required: map<string, string>, metrics: seq<MetricGate>, i: nat, seen: set<string>)
    requires i <= |metrics|
  {
    var keys := Map(MetricKey, metrics);
    && seen == Elements(keys[..i]) && seen <= required.Keys && Distinct(keys[..i])
    && forall j | 0 <= j < i :: MetricWellFormed(required, metrics[j])
  }

  lemma OneMoreMetric(required: map<string, string>, metrics: seq<MetricGate>, i: nat, seen: set<string>)
    requires i < |metrics| && MetricsSoFar(required, metrics, i, seen)
    ensures
      if MetricWellFormed(required, metrics[i]) && metrics[i].key !in seen
      then MetricsSoFar(required, metrics, i + 1, seen + {metrics[i].key})
      else !MetricsWellFormed(required, metrics)
  {
    var keys := Map(MetricKey, metrics);
    assert keys[i] == metrics[i].key && metrics[i] in metrics;
    OneMoreElement(keys, i);
    RepeatsInPrefix(keys, i);
    hide Map, Distinct, MetricWellFormed;
  }

  lemma AllMetrics(required: map<string, string>, metrics: seq<MetricGate>, seen: set<string>)
    requires MetricsSoFar(required, metrics, |metrics|, seen)
    ensures MetricsWellFormed(required, metrics) <==> |seen| == |required|
  {
    var keys := Map(MetricKey, metrics);
    assert keys[..|metrics|] == keys;
    CountDecides(seen, required);
    hide Map, Distinct, MetricWellFormed;
  }

  /** The loop over the metrics and the count after it. */
  method ValidateMetrics(required: map<string, string>, metrics: seq<MetricGate>) returns (ok: bool)
    ensures ok <==> MetricsWellFormed(required, metrics)
  {
    var seen: set<string> := {};
    var i := 0;
    assert MetricsSoFar(required, metrics, 0, {});
    hide MetricsSoFar, MetricsWellFormed;
    while i < |metrics|
      invariant 0 <= i <= |metrics|
      invariant MetricsSoFar(required, metrics, i, seen)
    {
      var metric := metrics[i];
      OneMoreMetric(required, metrics, i, seen);
      if metric.key !in required || metric.key in seen {
        return false;
      }
      if metric.comparator != required[metric.key] || metric.threshold < 0.0 || metric.threshold > 1.0 {
        return false;
      }
      seen := seen + {metric.key};
      i := i + 1;
    }
    AllMetrics(required, metrics, seen);
    return |seen| == |required|;
  }

  /** The pigeonhole behind the count: distinct required keys as many as required are all of them. */
  lemma CountDecides(seen: set<string>, required: map<string, string>)
    requires seen <= required.Keys
    ensures |seen| == |required| <==> seen == required.Keys
  {
    assert |required.Keys| == |required|;
    if |seen| == |required| {
      SubsetOfEqualSize(seen, required.Keys);
    }
  }

  /** The checks of `validateQualityGates` before its loops. */
  method ValidateGatesHeader(m: Manifest, g: Gates) returns (ok: bool)
    ensures ok <==> GatesHeader(m, g)
  {
    if g.schemaVersion != "1.0" || g.packageId != m.packageId {
      return false;
    }
    if g.status != "accepted" || g.authority != "truthmetal" {
      return false;
    }
    if g.intendedExecutor != "verentir" || g.executionStatus != "adapter-available" {
      return false;
    }
    if g.mode != "shadow" || !g.blocksPublicRollout || !g.approvalRequired {
      return false;
    }
    if g.minimumCases <= 0 || g.minimumCases > m.accepted.caseCount {
      return false;
    }
    if g.minimumRuns <= 0 {
      return false;
    }
    if |g.requirements| == 0 {
      return false;
    }
    return true;
  }

  /** `required` is the table of required metrics; the checks hold for any table. */
  method ValidateQualityGates(lib: Library, required: map<string, string>, m: Manifest, g: Gates) returns (ok: bool)
    ensures ok <==> GatesWellFormed(lib, required, m, g)
    ensures ok ==>
      && g.schemaVersion == "1.0" && g.packageId == m.packageId
      && g.status == "accepted" && g.authority == "truthmetal"
      && g.intendedExecutor == "verentir" && g.executionStatus == "adapter-available"
      && g.mode == "shadow" && g.blocksPublicRollout && g.approvalRequired
      && 0 < g.minimumCases <= m.accepted.caseCount && g.minimumRuns > 0 && g.requirements != []
      && g.mapping.contractVersion == "1" && g.mapping.status == "available"
      && (forall key | key in required ::
            && key in g.mapping.metrics && g.mapping.metrics[key].availability == "available"
            && g.mapping.metrics[key].source == "rag_quality_report.metrics." + key)
      && (forall metric | metric in g.metrics ::
            && metric.key in required && metric.comparator == required[metric.key]
            && 0.0 <= metric.threshold <= 1.0)
      && (m.trustAnchor == "pending" ==> g.mapping.publicKey == None)
      && (m.trustAnchor != "pending" ==>
            g.mapping.publicKey.Some? && lib.decodedLength(g.mapping.publicKey.value) == Some(32))
  {
    var header := ValidateGatesHeader(m, g);
    if !header {
      return false;
    }
    var covered := ValidateMetrics(required, g.metrics);
    if !covered || g.mapping.contractVersion != "1" || g.mapping.status != "available" {
      return false;
    }
    covered := ValidateMapping(required, g.mapping.metrics);
    if !covered {
      return false;
    }
    if m.trustAnchor == "pending" {
      return g.mapping.publicKey == None;
    }
    if g.mapping.publicKey == None {
      return false;
    }
    return lib.decodedLength(g.mapping.publicKey.value) == Some(32);
  }

  /** The range over the required table: equal size, and every required key mapped. */
  method ValidateMapping(required: map<string, string>, metrics: map<string, MetricMapping>) returns (ok: bool)
    ensures ok <==>
      metrics.Keys == required.Keys && forall key | key in metrics :: MappedTo(key, metrics[key])
  {
    if |metrics| != |required| {
      assert |metrics.Keys| != |required.Keys|;
      return false;
    }
    var left := required.Keys;
    while left != {}
      invariant left <= required.Keys
      invariant forall key | key in required.Keys - left :: key in metrics && MappedTo(key, metrics[key])
      decreases left
    {
      var key :| key in left;
      if key !in metrics || metrics[key].availability != "available" ||
         metrics[key].source != "rag_quality_report.metrics." + key
      {
        return false;
      }
      left := left - {key};
    }
    assert required.Keys <= metrics.Keys && |required.Keys| == |metrics.Keys|;
    SubsetOfEqualSize(required.Keys, metrics.Keys);
    return true;
  }

  lemma CaseBasics(lib: Library, m: Manifest, c: Case)
    requires CaseWellFormed(lib, m, c)
    ensures c.id != "" && c.id !in Map(ExcludedId, m.excluded) && lib.normalize(c.input) != ""
  {
  }

  /** After i cases nothing was wrong, and `ids` and `inputs` hold their ids and normalised inputs. */
  ghost predicate CasesSoFar(lib: Library, m: Manifest, cases: seq<Case>, i: nat, ids: set<string>, inputs: set<string>)
    requires i <= |cases|
  {
    var allIds, allInputs := Map(CaseId, cases), Map(lib.normalize, Map(CaseInput, cases));
    && ids == Elements(allIds[..i]) && Distinct(allIds[..i])
    && inputs == Elements(allInputs[..i]) && Distinct(allInputs[..i])
    && forall j | 0 <= j < i :: CaseWellFormed(lib, m, cases[j])
  }

  lemma OneMoreCase(lib: Library, m: Manifest, cases: seq<Case>, i: nat, ids: set<string>, inputs: set<string>)
    requires i < |cases| && CasesSoFar(lib, m, cases, i, ids, inputs)
    ensures
      var item := cases[i];
      if CaseWellFormed(lib, m, item) && item.id !in ids && lib.normalize(item.input) !in inputs
      then CasesSoFar(lib, m, cases, i + 1, ids + {item.id}, inputs + {lib.normalize(item.input)})
      else !AllCasesWellFormed(lib, m, cases)
  {
    hide CaseWellFormed, Map, Distinct, Elements;
    var allIds, allInputs := Map(CaseId, cases), Map(lib.normalize, Map(CaseInput, cases));
    assert cases[i] in cases && allIds[i] == cases[i].id && allInputs[i] == lib.normalize(cases[i].input);
    OneMoreElement(allIds, i);
    OneMoreElement(allInputs, i);
    RepeatsInPrefix(allIds, i);
    RepeatsInPrefix(allInputs, i);
  }

  lemma AllCases(lib: Library, m: Manifest, cases: seq<Case>, ids: set<string>, inputs: set<string>)
    requires CasesSoFar(lib, m, cases, |cases|, ids, inputs)
    ensures AllCasesWellFormed(lib, m, cases)
  {
    var allIds, allInputs := Map(CaseId, cases), Map(lib.normalize, Map(CaseInput, cases));
    assert allIds[..|cases|] == allIds && allInputs[..|cases|] == allInputs;
    hide CaseWellFormed, Map, Distinct;
  }

  /** The checks of `validateCaseSet` before its loops. */
  method ValidateCasesHeader(m: Manifest, g: Gates, c: CaseSet) returns (ok: bool)
    ensures ok <==> CasesHeader(m, g, c)
  {
    if c.schemaVersion != "1.0" || c.packageId != m.packageId {
      return false;
    }
    if c.status != "accepted" || c.truthOwner != "truthmetal" {
      return false;
    }
    if c.intendedExecutor != "verentir" || c.executionStatus != "adapter-available" {
      return false;
    }
    if |c.cases| != m.accepted.caseCount || |c.cases| < g.minimumCases {
      return false;
    }
    return true;
  }

  method ValidateCaseSet(lib: Library, m: Manifest, g: Gates, c: CaseSet) returns (ok: bool)
    ensures ok <==> CasesWellFormed(lib, m, g, c)
    ensures ok ==>
      && c.schemaVersion == "1.0" && c.packageId == m.packageId
      && c.status == "accepted" && c.truthOwner == "truthmetal"
      && c.intendedExecutor == "verentir" && c.executionStatus == "adapter-available"
      && |c.cases| == m.accepted.caseCount && |c.cases| >= g.minimumCases
  {
    var header := ValidateCasesHeader(m, g, c);
    if !header {
      return false;
    }
    var blocked := Elements(m.blocked);
    var excluded := Elements(Map(ExcludedId, m.excluded));
    var ids: set<string>, inputs: set<string> := {}, {};
    var i := 0;
    assert CasesSoFar(lib, m, c.cases, 0, {}, {});
    hide CaseWellFormed, CasesHeader, CasesSoFar, AllCasesWellFormed;
    while i < |c.cases|
      invariant 0 <= i <= |c.cases|
      invariant CasesSoFar(lib, m, c.cases, i, ids, inputs)
    {
      var item := c.cases[i];
      OneMoreCase(lib, m, c.cases, i, ids, inputs);
      if CaseWellFormed(lib, m, item) {
        CaseBasics(lib, m, item);
      }
      if item.id == "" || item.id in ids || item.id in excluded {
        return false;
      }
      ids := ids + {item.id};
      var input := lib.normalize(item.input);
      if input == "" || input in inputs {
        return false;
      }
      inputs := inputs + {input};
      var fine := ValidateCase(lib, m, item, blocked);
      if !fine {
        return false;
      }
      i := i + 1;
    }
    AllCases(lib, m, c.cases, ids, inputs);
    return true;
  }

  /** The body of the case loop that looks at one case alone. */
  method ValidateCase(lib: Library, m: Manifest, c: Case, blocked: set<string>) returns (ok: bool)
    requires blocked == Elements(m.blocked)
    requires c.id != "" && c.id !in Map(ExcludedId, m.excluded) && lib.normalize(c.input) != ""
    ensures ok <==> CaseWellFormed(lib, m, c)
  {
    if c.locale == "" || c.expectedBehavior == "" || |c.forbidden| == 0 {
      return false;
    }
    var repeats := HasDuplicates(c.forbidden);
    if repeats || c.category !in ALLOWED_CATEGORIES || c.status != "accepted" || c.owner != "truthmetal" {
      return false;
    }
    if c.evidenceRequired == None {
      return false;
    }
    var required := c.evidenceRequired.value;
    if !required && c.category !in EVIDENCE_OPTIONAL_CATEGORIES {
      return false;
    }
    if required && |c.evidence| == 0 {
      return false;
    }
    if !required && |c.evidence| != 0 {
      return false;
    }
    var i := 0;
    while i < |c.evidence|
      invariant 0 <= i <= |c.evidence|
      invariant forall j | 0 <= j < i :: c.evidence[j] != "" && c.evidence[j] !in m.blocked
    {
      if c.evidence[i] == "" || c.evidence[i] in blocked {
        assert c.evidence[i] in c.evidence;
        return false;
      }
      i := i + 1;
    }
    repeats := HasDuplicates(c.evidence);
    if repeats || |c.dimensions| == 0 {
      return false;
    }
    repeats := HasDuplicates(c.dimensions);
    if repeats {
      return false;
    }
    i := 0;
    while i < |c.dimensions|
      invariant 0 <= i <= |c.dimensions|
      invariant forall j | 0 <= j < i :: AllowedDimension(c.dimensions[j])
    {
      if c.dimensions[i] !in ALLOWED_RUBRIC_DIMENSIONS {
        assert c.dimensions[i] in c.dimensions;
        return false;
      }
      i := i + 1;
    }
    return true;
  }

  /** A decoded file: its bytes and its contents. */
  datatype Decoded<T> = Decoded(bytes: Bytes, value: T)

  /** The suite is accepted when all three files decode, the file names are pinned, and the suite is well formed. */
  ghost predicate DirAccepted(lib: Library, manifest: Option<Manifest>, gates: Option<Decoded<Gates>>,
                              cases: Option<Decoded<CaseSet>>) {
    && manifest.Some? && gates.Some? && cases.Some?
    && manifest.value.accepted.qualityGateFile == "quality-gates.json"
    && manifest.value.accepted.caseSetFile == "cases.json"
    && SuiteWellFormed(lib, REQUIRED_METRICS, manifest.value, gates.value.value, cases.value.value,
                       gates.value.bytes, cases.value.bytes)
  }

  /** `ValidateDir`, given what `decodeFile` makes of the three files. */
  method ValidateDir(lib: Library, manifest: Option<Manifest>, gates: Option<Decoded<Gates>>, cases: Option<Decoded<CaseSet>>)
    returns (r: Option<Summary>)
    ensures r.Some? <==> DirAccepted(lib, manifest, gates, cases)
    ensures r.Some? ==>
      var m, g, c := manifest.value, gates.value, cases.value;
      && m.accepted.qualityGateFile == "quality-gates.json" && m.accepted.caseSetFile == "cases.json"
      && m.accepted.qualityGateSha256 == lib.digest(g.bytes) && m.accepted.caseSetSha256 == lib.digest(c.bytes)
      && m.schemaVersion == g.value.schemaVersion == c.value.schemaVersion == "1.0"
      && m.packageId == g.value.packageId == c.value.packageId == "rbx-rag-public-assistant"
      && m.status == g.value.status == c.value.status == "accepted"
      && m.authority == g.value.authority == c.value.truthOwner == "truthmetal"
      && m.intendedExecutor == g.value.intendedExecutor == c.value.intendedExecutor == "verentir"
      && g.value.executionStatus == c.value.executionStatus == "adapter-available"
      && m.mode == g.value.mode == "shadow" && m.canonicalRef == "refs/heads/main"
    ensures r.Some? ==>
      forall metric | metric in gates.value.value.metrics ::
        || (metric.comparator == "gte"
            && (metric.key == "overall_pass_rate" || metric.key == "accuracy_average"
                || metric.key == "scope_adherence_average"))
        || (metric.comparator == "lte"
            && (metric.key == "unsupported_claim_rate" || metric.key == "financial_boundary_violation_rate"
                || metric.key == "stale_or_unauthorized_evidence_rate"))
    ensures r.Some? ==>
      && r.value.caseCount == manifest.value.accepted.caseCount > 0
      && r.value.gateStatus == r.value.caseStatus == "accepted"
      && r.value.packageId == "rbx-rag-public-assistant" && r.value.suiteId == manifest.value.suiteId
      && r.value.trustAnchor == manifest.value.trustAnchor
      && !r.value.rolloutAuthorized
  {
    if manifest == None {
      return None;
    }
    var m := manifest.value;
    if m.accepted.qualityGateFile != "quality-gates.json" || m.accepted.caseSetFile != "cases.json" {
      return None;
    }
    if gates == None || cases == None {
      return None;
    }
    var Decoded(gateBytes, g) := gates.value;
    var Decoded(caseBytes, c) := cases.value;
    var ok := ValidateManifest(lib, m, gateBytes, caseBytes);
    if !ok {
      return None;
    }
    ok := ValidateQualityGates(lib, REQUIRED_METRICS, m, g);
    if !ok {
      return None;
    }
    ok := ValidateCaseSet(lib, m, g, c);
    if !ok {
      return None;
    }
    r := Some(Summary(m.suiteId, m.packageId, |c.cases|, g.status, c.status, m.trustAnchor, m.rolloutAuthorized));
  }
}
