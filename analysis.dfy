// The compliance-analysis endpoints: a rule checked against the code
// chunks nearest to it, a full scan queued for the worker, a scan's results,
// and the multi-agent scan's start and approval. The embedding service, the
// LLM completion and its JSON decoding, pgvector's distance and the
// pipeline's services are parameters.

module Analysis {
  import opened Common
  import opened Database
  import opened Schemas
  import opened JobQueue
  import opened Ordering
  import PipelineAgents
  import opened ComplianceScanner
  import Llm

  // ------------------------------------------------------------ severity threshold

  /** `severity_order` */
  function Rank(s: Severity): nat {
    match s
    case Low => 0
    case Medium => 1
    case High => 2
    case Critical => 3
  }

  /** `severity_order.get(name, 0)`: a word that names no severity ranks
      with `"low"`. */
  function SeverityRank(name: string): (rank: nat)
    ensures ParseSeverity(name).Some? ==> rank == Rank(ParseSeverity(name).value)
    ensures ParseSeverity(name).None? ==> rank == 0 == Rank(Low)
    ensures rank <= 3
  {
    match ParseSeverity(name)
    case Some(s) => Rank(s)
    case None => 0
  }

  /** Whether a violation of severity `s` is kept under the request's
      threshold. */
  predicate PassesThreshold(s: Severity, threshold: Option<Severity>) {
    threshold.None? || SeverityRank(SeverityName(s)) >= SeverityRank(SeverityName(threshold.value))
  }

  /** The ranks order the severities strictly, so the threshold keeps
      exactly the severities at or above it: every severity passes `"low"`,
      only `"critical"` passes `"critical"`, and a stricter threshold keeps
      no more. */
  lemma ThresholdOrder(s: Severity, t: Severity, u: Severity)
    ensures PassesThreshold(s, None) && PassesThreshold(s, Some(Low))
    ensures PassesThreshold(s, Some(Critical)) <==> s == Critical
    ensures PassesThreshold(s, Some(t)) <==> Rank(s) >= Rank(t)
    ensures Rank(t) == Rank(u) ==> t == u
    ensures Rank(u) <= Rank(t) && PassesThreshold(s, Some(t)) ==> PassesThreshold(s, Some(u))
  {
    SeverityRoundTrip(s);
    SeverityRoundTrip(t);
    SeverityRoundTrip(Low);
    SeverityRoundTrip(Critical);
  }

  // ------------------------------------------------------------ similarity

  /** `1.0 - chunk.get("distance", 1.0)` as written: the key is always
      present, and for a chunk stored without an embedding its value is
      NULL, so the subtraction raises. */
  function SimilarityAsWritten(distance: Option<real>): (r: Result<real>)
    ensures distance.Some? <==> r.Ok?
    ensures r.Ok? ==> r.value + distance.value == 1.0
  {
    match distance
    case Some(d) => Ok(1.0 - d)
    case None => Err(TypeError("unsupported operand type(s) for -: 'float' and 'NoneType'"))
  }

  /** The similarity the default of 1.0 evidently intends: a chunk with no
      distance is not similar at all. */
  function Similarity(distance: Option<real>): (r: real)
    ensures distance.Some? ==> r + distance.value == 1.0
    ensures distance.None? ==> r == 0.0
  {
    match distance
    case Some(d) => 1.0 - d
    case None => 0.0
  }

  /** As written, one stored chunk without an embedding among the nearest
      makes the whole request fail; corrected, it scores 0. */
  lemma NullDistanceRaisesAsWritten(c: CodeChunkRow, distance: CodeChunkRow -> real)
    requires c.embedding.None?
    ensures SimilarityAsWritten(DistanceColumn(c, distance)).Err?
    ensures SimilarityAsWritten(DistanceColumn(c, distance)).error.TypeError?
    ensures Similarity(DistanceColumn(c, distance)) == 0.0
  {
  }

  /** Where the query returns a distance, both agree. */
  lemma SimilarityAgrees(distance: Option<real>)
    requires distance.Some?
    ensures SimilarityAsWritten(distance) == Ok(Similarity(distance))
  {
  }

  // ------------------------------------------------------------ violation responses

  /** A `ViolationResponse`; `created_at` is not modelled. */
  datatype ViolationResponse = ViolationResponse(
    violationId: string, ruleId: string, verdict: Verdict, severity: Severity, severityScore: real,
    explanation: string, evidence: Option<string>, remediation: Option<string>,
    filePath: string, startLine: int, endLine: int)

  /** An `Optional[str]` read with `.get`: absent or null is None, a string
      is itself, anything else fails validation (the outer None). */
  function OptionalText(fields: map<string, Json>, key: string): (r: Option<Option<string>>)
    ensures r == Some(None) <==> key !in fields || fields[key] == JNull
    ensures r.Some? && r.value.Some? <==> key in fields && fields[key].JStr?
    ensures r.Some? && r.value.Some? ==> fields[key] == JStr(r.value.value)
  {
    match Get(fields, key, JNull)
    case JNull => Some(None)
    case JStr(s) => Some(Some(s))
    case _ => None
  }

  /** Whether the analysis is a record whose verdict is `"non_compliant"`
      or `"partial"`. */
  predicate Flagged(analysis: Json) {
    && analysis.JObject? && "verdict" in analysis.fields
    && (analysis.fields["verdict"] == JStr(VerdictName(NonCompliant))
        || analysis.fields["verdict"] == JStr(VerdictName(Partial)))
  }

  /** The `ViolationResponse` built from an analysis of chunk `c`, or None
      when the analysis does not validate. */
  function FromAnalysis(c: CodeChunkRow, fields: map<string, Json>): (r: Option<ViolationResponse>)
    ensures r.Some? <==>
      && "verdict" in fields && fields["verdict"].JStr? && ParseVerdict(fields["verdict"].s).Some?
      && "severity" in fields && fields["severity"].JStr? && ParseSeverity(fields["severity"].s).Some?
      && "severity_score" in fields && fields["severity_score"].JNum?
      && "explanation" in fields && fields["explanation"].JStr?
      && OptionalText(fields, "evidence").Some? && OptionalText(fields, "remediation").Some?
    ensures r.Some? ==>
      && fields["verdict"] == JStr(VerdictName(r.value.verdict))
      && fields["severity"] == JStr(SeverityName(r.value.severity))
      && fields["severity_score"] == JNum(r.value.severityScore)
      && fields["explanation"] == JStr(r.value.explanation)
      && r.value.evidence == OptionalText(fields, "evidence").value
      && r.value.remediation == OptionalText(fields, "remediation").value
      && r.value.violationId == c.chunkHash && r.value.ruleId == "custom_rule"
      && r.value.filePath == c.filePath && r.value.startLine == c.startLine && r.value.endLine == c.endLine
  {
    var verdict := Get(fields, "verdict", JNull);
    var severity := Get(fields, "severity", JNull);
    var score := Get(fields, "severity_score", JNull);
    var explanation := Get(fields, "explanation", JNull);
    var evidence := OptionalText(fields, "evidence");
    var remediation := OptionalText(fields, "remediation");
    if !verdict.JStr? || !severity.JStr? || !score.JNum? || !explanation.JStr? || evidence.None? || remediation.None? then None
    else match (ParseVerdict(verdict.s), ParseSeverity(severity.s))
      case (Some(v), Some(s)) =>
        Some(ViolationResponse(c.chunkHash, "custom_rule", v, s, score.n, explanation.s, evidence.value, remediation.value,
                               c.filePath, c.startLine, c.endLine))
      case _ => None
  }

  /** `analyze_compliance` on chunk `c`: the completion, read as JSON or
      as the fallback record; a provider error propagates. */
  function AnalysisOf(ruleText: string, c: CodeChunkRow, complete: (string, CodeChunkRow) -> Result<string>,
                      decode: string -> Option<Json>): (r: Result<Json>)
    ensures complete(ruleText, c).Err? <==> r.Err?
    ensures r.Ok? ==> r.value == Llm.AnalyzeCompliance(complete(ruleText, c).value, decode(complete(ruleText, c).value))
  {
    match complete(ruleText, c)
    case Err(e) => Err(e)
    case Ok(reply) => Ok(Llm.AnalyzeCompliance(reply, decode(reply)))
  }

  /** What the loop adds for chunk `c`: a violation when the analysis
      succeeds, is flagged, validates and reaches the threshold; nothing
      when any of these fails (the `except` and the `continue`). */
  function ChunkViolation(ruleText: string, c: CodeChunkRow, complete: (string, CodeChunkRow) -> Result<string>,
                          decode: string -> Option<Json>, threshold: Option<Severity>): (r: Option<ViolationResponse>)
    ensures var a := AnalysisOf(ruleText, c, complete, decode);
      r.Some? <==> a.Ok? && Flagged(a.value) && FromAnalysis(c, a.value.fields).Some?
                   && PassesThreshold(FromAnalysis(c, a.value.fields).value.severity, threshold)
    ensures r.Some? ==> r == FromAnalysis(c, AnalysisOf(ruleText, c, complete, decode).value.fields)
    ensures r.Some? ==> (r.value.verdict == NonCompliant || r.value.verdict == Partial) && PassesThreshold(r.value.severity, threshold)
  {
    match AnalysisOf(ruleText, c, complete, decode)
    case Err(_) => None
    case Ok(a) =>
      if !Flagged(a) then None
      else match FromAnalysis(c, a.fields)
        case None => None
        case Some(v) => if PassesThreshold(v.severity, threshold) then Some(v) else None
  }

  /** A reply that is not JSON becomes the `"unknown"` fallback, which is
      never a violation. */
  lemma UnreadableReplyIsNoViolation(ruleText: string, c: CodeChunkRow, complete: (string, CodeChunkRow) -> Result<string>,
                                     decode: string -> Option<Json>, threshold: Option<Severity>)
    requires complete(ruleText, c).Ok? && decode(complete(ruleText, c).value).None?
    ensures ChunkViolation(ruleText, c, complete, decode, threshold).None?
  {
    var a := AnalysisOf(ruleText, c, complete, decode).value;
    assert a.fields["verdict"] == JStr("unknown");
    assert "unknown"[0] != "non_compliant"[0] && "unknown"[0] != "partial"[0];
  }

  /** The analysis step of the loop, for one rule and threshold. */
  function Analyser(ruleText: string, complete: (string, CodeChunkRow) -> Result<string>,
                    decode: string -> Option<Json>, threshold: Option<Severity>): CodeChunkRow -> Option<ViolationResponse>
  {
    (c: CodeChunkRow) => ChunkViolation(ruleText, c, complete, decode, threshold)
  }

  /** The violations found among `rows`, in their order. */
  function ViolationsOf(rows: seq<CodeChunkRow>, ruleText: string, complete: (string, CodeChunkRow) -> Result<string>,
                        decode: string -> Option<Json>, threshold: Option<Severity>): seq<ViolationResponse>
  {
    FilterMap(rows, Analyser(ruleText, complete, decode, threshold))
  }

  /** Every violation reported comes from one of the chunks, is
      non-compliant or partial and reaches the threshold; every chunk whose
      analysis yields one is reported; there are never more violations than
      chunks. */
  lemma ViolationsSoundAndComplete(rows: seq<CodeChunkRow>, ruleText: string,
                                   complete: (string, CodeChunkRow) -> Result<string>,
                                   decode: string -> Option<Json>, threshold: Option<Severity>)
    ensures var vs := ViolationsOf(rows, ruleText, complete, decode, threshold);
      && |vs| <= |rows|
      && (forall v :: v in vs <==> exists k :: 0 <= k < |rows| && ChunkViolation(ruleText, rows[k], complete, decode, threshold) == Some(v))
      && (forall v :: v in vs ==> (v.verdict == NonCompliant || v.verdict == Partial) && PassesThreshold(v.severity, threshold))
  {
    var f := Analyser(ruleText, complete, decode, threshold);
    FilterMapMembers(rows, f);
    assert forall k :: 0 <= k < |rows| ==> f(rows[k]) == ChunkViolation(ruleText, rows[k], complete, decode, threshold);
  }

  // ------------------------------------------------------------ analyze_rule

  /** A `CodeMapResponse`: the chunk and its similarity to the rule. */
  datatype MatchedChunk = MatchedChunk(chunk: CodeChunkRow, similarityScore: real)

  /** The matched chunks, in the order of the search. */
  function MatchedOf(rows: seq<CodeChunkRow>, distance: CodeChunkRow -> real): (r: seq<MatchedChunk>)
    ensures |r| == |rows|
    ensures forall i :: 0 <= i < |rows| ==> r[i].chunk == rows[i]
  {
    if rows == [] then []
    else MatchedOf(rows[..|rows| - 1], distance) + [MatchedChunk(rows[|rows| - 1], Similarity(DistanceColumn(rows[|rows| - 1], distance)))]
  }

  /** Each matched chunk scores one less its distance, and 0 when it has
      no embedding. */
  lemma {:induction false} MatchedScores(rows: seq<CodeChunkRow>, distance: CodeChunkRow -> real)
    ensures forall i :: 0 <= i < |rows| ==>
      && (rows[i].embedding.Some? ==> MatchedOf(rows, distance)[i].similarityScore == 1.0 - distance(rows[i]))
      && (rows[i].embedding.None? ==> MatchedOf(rows, distance)[i].similarityScore == 0.0)
  {
    if rows != [] {
      MatchedScores(rows[..|rows| - 1], distance);
    }
  }

  /** The distance of each row to the query embedding `v`. */
  function DistanceTo(distance: (Vector, CodeChunkRow) -> real, v: Vector): CodeChunkRow -> real {
    (c: CodeChunkRow) => distance(v, c)
  }

  function RepoNotFound(repoId: nat): Error {
    HttpError(404, "Repository " + NatToString(repoId) + " not found")
  }

  function Summary(analyzed: nat, found: nat): string {
    "Analyzed " + NatToString(analyzed) + " code chunks. Found " + NatToString(found) + " violations."
  }

  datatype AnalyzeRuleResponse = AnalyzeRuleResponse(
    ruleText: string, repoId: nat, matchedChunks: seq<MatchedChunk>, violations: seq<ViolationResponse>, summary: string)

  /** The chunks behind a list of matched chunks. */
  function ChunksOf(matched: seq<MatchedChunk>): (r: seq<CodeChunkRow>)
    ensures |r| == |matched| && forall i :: 0 <= i < |r| ==> r[i] == matched[i].chunk
  {
    seq(|matched|, i requires 0 <= i < |matched| => matched[i].chunk)
  }

  /** `analyze_rule`: 404 for an unknown repository; otherwise the rule is
      embedded (an embedding error propagates), the `top_k` chunks of the
      repository nearest to it are matched in order, and each is analysed;
      the violations are those `ViolationsOf` finds. The distance of a
      chunk without an embedding scores 0 (see `Similarity`). */
  method AnalyzeRule(repos: RepoTable, chunks: CodeChunkTable, request: AnalyzeRuleRequest,
                     embed: string -> Result<Vector>, distance: (Vector, CodeChunkRow) -> real,
                     complete: (string, CodeChunkRow) -> Result<string>, decode: string -> Option<Json>)
    returns (r: Result<AnalyzeRuleResponse>)
    requires repos.Valid()
    ensures (forall g :: g in repos.rows ==> repos.rows[g].repoId != request.repoId) ==> r == Err(RepoNotFound(request.repoId))
    ensures (exists g :: g in repos.rows && repos.rows[g].repoId == request.repoId) && embed(request.ruleText).Err? ==>
      r == Err(embed(request.ruleText).error)
    ensures r.Ok? ==>
      && (exists g :: g in repos.rows && repos.rows[g].repoId == request.repoId)
      && embed(request.ruleText).Ok?
      && var key := DistanceTo(distance, embed(request.ruleText).value);
         var found := ChunksOf(r.value.matchedChunks);
         && Database.Nearest(found, RepoPool(chunks.rows, Some(request.repoId)), key, request.topK)
         && r.value.matchedChunks == MatchedOf(found, key)
         && r.value.violations == ViolationsOf(found, request.ruleText, complete, decode, request.severityThreshold)
         && r.value.summary == Summary(|found|, |r.value.violations|)
         && r.value.ruleText == request.ruleText && r.value.repoId == request.repoId
  {
    var repo := repos.GetById(request.repoId);
    if repo.None? {
      return Err(RepoNotFound(request.repoId));
    }
    var ruleEmbedding := embed(request.ruleText);
    if ruleEmbedding.Err? {
      return Err(ruleEmbedding.error);
    }
    var key := DistanceTo(distance, ruleEmbedding.value);
    var similar := chunks.SearchSimilar(key, Some(request.repoId), request.topK);
    var matched: seq<MatchedChunk> := [];
    var violations: seq<ViolationResponse> := [];
    var i := 0;
    while i < |similar|
      invariant 0 <= i <= |similar|
      invariant matched == MatchedOf(similar[..i], key)
      invariant violations == ViolationsOf(similar[..i], request.ruleText, complete, decode, request.severityThreshold)
    {
      assert similar[..i + 1][..i] == similar[..i];
      FilterMapNext(similar, i, Analyser(request.ruleText, complete, decode, request.severityThreshold));
      matched := matched + [MatchedChunk(similar[i], Similarity(DistanceColumn(similar[i], key)))];
      var v := ChunkViolation(request.ruleText, similar[i], complete, decode, request.severityThreshold);
      if v.Some? {
        violations := violations + [v.value];
      }
      i := i + 1;
    }
    assert similar[..i] == similar;
    assert ChunksOf(matched) == similar;
    r := Ok(AnalyzeRuleResponse(request.ruleText, request.repoId, matched, violations,
                                Summary(|similar|, |violations|)));
  }

  // ------------------------------------------------------------ full_repo_scan

  /** A `ScanResponse`; `created_at` is not modelled. */
  datatype ScanResponse = ScanResponse(
    scanId: nat, repoId: nat, scanType: string, status: ScanStatus,
    totalViolations: nat, criticalViolations: nat, highViolations: nat, mediumViolations: nat, lowViolations: nat,
    startedAt: Option<nat>, completedAt: Option<nat>)

  /** `request.commit_sha or repo["last_commit_sha"]`: an empty commit
      counts as none. */
  function CommitOr(given: Option<string>, fallback: Option<string>): (r: Option<string>)
    ensures given.Some? && given.value != "" ==> r == given
    ensures given.None? || given.value == "" ==> r == fallback
  {
    if given.Some? && given.value != "" then given else fallback
  }

  /** `full_repo_scan`: 404 for an unknown repository, with nothing
      written; otherwise a `running` scan of type `full` is created at the
      request's commit (else the repository's last one), an analysis job
      for it is queued with the request's rule ids, and the response says
      `pending` with no violations. The repository is the path's; the
      body's `repo_id` is not read. */
  method FullRepoScan(repos: RepoTable, scans: ScanTable, queue: JobQueue, repoId: nat, request: FullScanRequest, now: nat)
    returns (r: Result<ScanResponse>)
    requires repos.Valid() && scans.Valid()
    modifies scans, queue
    ensures scans.Valid() && queue.asyncRedis == old(queue.asyncRedis)
    ensures (forall g :: g in repos.rows ==> repos.rows[g].repoId != repoId) ==>
      r == Err(RepoNotFound(repoId)) && scans.rows == old(scans.rows) && queue.jobs == old(queue.jobs)
    ensures (exists g :: g in repos.rows && repos.rows[g].repoId == repoId) ==>
      && r.Ok? && r.value.scanId !in old(scans.rows)
      && r.value == ScanResponse(r.value.scanId, repoId, "full", Pending, 0, 0, 0, 0, 0, None, None)
      && (forall g :: g in repos.rows && repos.rows[g].repoId == repoId ==>
            scans.rows == old(scans.rows)[r.value.scanId := ScanRow(repoId, "full", "running", request.initiator,
                                            CommitOr(request.commitSha, repos.rows[g].lastCommitSha), now,
                                            None, None, None, 0, 0, 0, 0, 0)])
      && queue.jobs == old(queue.jobs) + [AnalyzeCompliance(r.value.scanId, repoId, request.ruleIds, ResultTtl, None)]
  {
    var repo := repos.GetById(repoId);
    if repo.None? {
      return Err(RepoNotFound(repoId));
    }
    var row := repo.value;
    var scanId := scans.Create(repoId, Some("full"), request.initiator, CommitOr(request.commitSha, row.lastCommitSha), now);
    var jobId := queue.EnqueueAnalysisJob(scanId, repoId, request.ruleIds);
    r := Ok(ScanResponse(scanId, repoId, "full", Pending, 0, 0, 0, 0, 0, None, None));
  }

  /** The response says `pending` while the row it created is `running`. */
  lemma ScanResponseStatusDiffers()
    ensures ScanStatusName(Pending) != "running"
  {
    assert "pending"[0] != "running"[0];
  }

  // ------------------------------------------------------------ get_scan_results

  /** A stored violation as a `ViolationResponse`, None when its verdict or
      severity is not one the model accepts. */
  function FromRow(v: ViolationRow): (r: Option<ViolationResponse>)
    ensures r.Some? <==> ParseVerdict(v.verdict).Some? && ParseSeverity(v.severity).Some?
    ensures r.Some? ==> && VerdictName(r.value.verdict) == v.verdict && SeverityName(r.value.severity) == v.severity
                        && r.value.violationId == NatToString(v.violationId) && r.value.ruleId == v.ruleId
                        && r.value.severityScore == v.severityScore && r.value.explanation == v.explanation
                        && r.value.evidence == v.evidence && r.value.remediation == v.remediation
                        && r.value.filePath == v.filePath && r.value.startLine == v.startLine && r.value.endLine == v.endLine
  {
    match (ParseVerdict(v.verdict), ParseSeverity(v.severity))
    case (Some(verdict), Some(severity)) =>
      Some(ViolationResponse(NatToString(v.violationId), v.ruleId, verdict, severity, v.severityScore, v.explanation,
                             v.evidence, v.remediation, v.filePath, v.startLine, v.endLine))
    case _ => None
  }

  /** The list comprehension over the stored violations: all of them, in
      order, or None when one fails validation. */
  function FromRows(vs: seq<ViolationRow>): (r: Option<seq<ViolationResponse>>)
    ensures r.Some? <==> forall i :: 0 <= i < |vs| ==> FromRow(vs[i]).Some?
    ensures r.Some? ==> |r.value| == |vs| && forall i :: 0 <= i < |vs| ==> Some(r.value[i]) == FromRow(vs[i])
  {
    if vs == [] then Some([])
    else
      var init := vs[..|vs| - 1];
      assert forall i :: 0 <= i < |init| ==> vs[i] == init[i];
      match (FromRows(init), FromRow(vs[|vs| - 1]))
      case (Some(done), Some(last)) => Some(done + [last])
      case _ => None
  }

  datatype ScanDetail = ScanDetail(scan: ScanResponse, violations: seq<ViolationResponse>)

  function ScanNotFound(scanId: nat): Error {
    HttpError(404, "Scan " + NatToString(scanId) + " not found")
  }

  /** The response model refusing a stored value. */
  const InvalidStoredValue: Error := ValueError("response validation error")

  /** Whether `get_scan_results` lists the scan's violations. */
  predicate ListsViolations(scan: ScanRow, includeViolations: bool) {
    includeViolations && scan.status == "completed"
  }

  /** `get_scan_results`: 404 for an unknown scan; otherwise the scan, and
      its violations (highest score first) only when they are asked for and
      the scan is completed. A stored status or violation the response
      model refuses is an error. */
  method GetScanResults(scans: ScanTable, violations: ViolationTable, scanId: nat, includeViolations: bool)
    returns (r: Result<ScanDetail>)
    ensures scanId !in scans.rows ==> r == Err(ScanNotFound(scanId))
    ensures scanId in scans.rows ==> var scan := scans.rows[scanId];
      r.Ok? <==> && ParseScanStatus(scan.status).Some?
                 && (ListsViolations(scan, includeViolations) ==>
                       forall v :: v in OfScan(violations.rows, scanId, None) ==> FromRow(v).Some?)
    ensures scanId in scans.rows && r.Err? ==> r.error == InvalidStoredValue
    ensures r.Ok? ==> scanId in scans.rows && var scan := scans.rows[scanId];
      && r.value.scan == ScanResponse(scanId, scan.repoId, scan.scanType, ParseScanStatus(scan.status).value,
                                      scan.totalViolations, scan.criticalViolations, scan.highViolations,
                                      scan.mediumViolations, scan.lowViolations, Some(scan.startedAt), scan.completedAt)
      && (!ListsViolations(scan, includeViolations) ==> r.value.violations == [])
      && (ListsViolations(scan, includeViolations) ==>
            exists vs: seq<ViolationRow> :: && Distinct(vs) && (forall v :: v in vs <==> v in OfScan(violations.rows, scanId, None))
                         && (forall i, j :: 0 <= i < j < |vs| ==> vs[i].severityScore >= vs[j].severityScore)
                         && FromRows(vs) == Some(r.value.violations))
  {
    if scanId !in scans.rows {
      return Err(ScanNotFound(scanId));
    }
    var scan := scans.rows[scanId];
    var listed: seq<ViolationResponse> := [];
    if ListsViolations(scan, includeViolations) {
      var records := violations.GetByScan(scanId, None);
      assert forall i :: 0 <= i < |records| ==> records[i] in records;
      assert forall i :: 0 <= i < |records| ==> records[i] in OfScan(violations.rows, scanId, None);
      var converted := FromRows(records);
      if converted.None? {
        var i :| 0 <= i < |records| && FromRow(records[i]).None?;
        assert records[i] in records;
        assert records[i] in OfScan(violations.rows, scanId, None);
        return Err(InvalidStoredValue);
      }
      listed := converted.value;
      forall v | v in OfScan(violations.rows, scanId, None)
        ensures FromRow(v).Some?
      {
        assert v in records;
        var i :| 0 <= i < |records| && records[i] == v;
      }
    }
    var status := ParseScanStatus(scan.status);
    if status.None? {
      return Err(InvalidStoredValue);
    }
    r := Ok(ScanDetail(ScanResponse(scanId, scan.repoId, scan.scanType, status.value,
                                    scan.totalViolations, scan.criticalViolations, scan.highViolations,
                                    scan.mediumViolations, scan.lowViolations, Some(scan.startedAt), scan.completedAt),
                       listed));
  }

  // ------------------------------------------------------------ multi-agent scans

  /** The reply of `trigger_compliance_scan`. */
  datatype TriggerReply = TriggerReply(scanId: string, status: string, message: string)

  const NoRegulation: Error := HttpError(404, "No regulation loaded. Please preload a regulation first.")

  /** The `except Exception` of `trigger_compliance_scan` as written: it
      also catches the endpoint's own 404 and turns it into a 500. */
  function TriggerErrorAsWritten(e: Error): (r: Error)
    ensures r.HttpError? && r.status == 500
  {
    HttpError(500, "Failed to start compliance scan: " + ErrorText(e))
  }

  /** What the handler evidently intends: its own HTTP errors pass
      through, anything else is a 500. */
  function TriggerError(e: Error): (r: Error)
    ensures e.HttpError? ==> r == e
    ensures !e.HttpError? ==> r == TriggerErrorAsWritten(e)
  {
    if e.HttpError? then e else TriggerErrorAsWritten(e)
  }

  /** With no regulation loaded, the client is told 500 rather than 404. */
  lemma NoRegulationBecomes500AsWritten()
    ensures TriggerErrorAsWritten(NoRegulation) == HttpError(500, "Failed to start compliance scan: " + "404" + ": " + NoRegulation.detail)
    ensures TriggerError(NoRegulation) == NoRegulation
  {
    assert NatToString(4) == "4" && NatToString(40) == "40" && NatToString(404) == "404";
  }

  /** `trigger_compliance_scan` with the fresh scan id `scanId`: the first
      regulation chunk (the lookup's result is `chunks`) starts a scan; no
      chunk is 404; an error of the lookup or of the pipeline is a 500. */
  method TriggerComplianceScan(scans: ComplianceScans, chunks: Result<seq<PipelineAgents.Object>>, scanId: string, repoId: string,
                               svc: PipelineAgents.Services, startedAt: string) returns (r: Result<TriggerReply>)
    requires scanId !in scans.rows
    modifies scans
    ensures chunks.Err? ==> r == Err(TriggerError(chunks.error)) && scans.rows == old(scans.rows)
    ensures chunks == Ok([]) ==> r == Err(NoRegulation) && scans.rows == old(scans.rows)
    ensures chunks.Ok? && chunks.value != [] ==>
      var run := Pipeline(scanId, repoId, chunks.value[0], svc, startedAt);
      && scans.rows == old(scans.rows)[scanId := StartOutcome(Started(repoId, chunks.value[0]), run)]
      && r == if run.Ok? then Ok(TriggerReply(scanId, "running", "Multi-agent compliance scan started"))
              else Err(TriggerError(run.error))
  {
    if chunks.Err? {
      return Err(TriggerError(chunks.error));
    }
    if chunks.value == [] {
      return Err(NoRegulation);
    }
    var started := scans.StartScan(scanId, repoId, chunks.value[0], svc, startedAt);
    if started.Err? {
      return Err(TriggerError(started.error));
    }
    r := Ok(TriggerReply(scanId, "running", "Multi-agent compliance scan started"));
  }

  /** A trigger that succeeds answers `running` while the scan it stored
      already waits for approval: the pipeline has run to its pause. */
  lemma TriggerReplyIsStale(chunk: PipelineAgents.Object, scanId: string, repoId: string, svc: PipelineAgents.Services, startedAt: string)
    requires Pipeline(scanId, repoId, chunk, svc, startedAt).Ok?
    ensures StartOutcome(Started(repoId, chunk), Pipeline(scanId, repoId, chunk, svc, startedAt)).status == ScanWaiting
    ensures ScanWaiting != "running"
  {
    StartedScanAwaitsApproval(scanId, repoId, chunk, svc, startedAt);
    assert ScanWaiting[0] != "running"[0];
  }

  /** The reply of `approve_scan_remediation`. */
  datatype ApprovalResponse = Approved(reply: ApprovalReply) | DeclinedResponse(decline: DeclineReply)

  const BadDecision: Error := HttpError(400, "Decision must be 'approve' or 'decline'")

  /** The handlers of `approve_scan_remediation` as written: a ValueError
      is 404, and every other exception, the endpoint's own 400 included,
      a 500. */
  function ApprovalErrorAsWritten(e: Error): (r: Error)
    ensures r.HttpError? && (r.status == 404 || r.status == 500)
    ensures e.ValueError? <==> r.status == 404
  {
    match e
    case ValueError(message) => HttpError(404, message)
    case _ => HttpError(500, "Failed to process approval: " + ErrorText(e))
  }

  /** What the handlers evidently intend: the 400 passes through. */
  function ApprovalError(e: Error): (r: Error)
    ensures e.HttpError? ==> r == e
    ensures !e.HttpError? ==> r == ApprovalErrorAsWritten(e)
  {
    if e.HttpError? then e else ApprovalErrorAsWritten(e)
  }

  /** A decision other than approve or decline reaches the client as a
      500 naming the 400, where a 400 is meant. */
  lemma BadDecisionBecomes500AsWritten()
    ensures ApprovalErrorAsWritten(BadDecision) == HttpError(500, "Failed to process approval: " + "400" + ": " + BadDecision.detail)
    ensures ApprovalError(BadDecision) == BadDecision
  {
    assert NatToString(4) == "4" && NatToString(40) == "40" && NatToString(400) == "400";
  }

  /** `edited_issues`: none given is the empty list. */
  function EditedIssues(edited: Option<seq<PipelineAgents.Object>>): seq<PipelineAgents.Object> {
    if edited.Some? then edited.value else []
  }

  /** `approve_scan_remediation`: `approve` approves (an unknown or not
      waiting scan is a 404), `decline` declines, anything else is a 400
      and changes nothing. */
  method ApproveScanRemediation(scans: ComplianceScans, scanId: string, decision: string, edited: Option<seq<PipelineAgents.Object>>,
                                reason: Option<string>, now: int, stamp: string, clock: nat)
    returns (r: Result<ApprovalResponse>)
    modifies scans
    ensures decision == "approve" ==>
      var (outcome, after) := Approve(old(scans.rows), scanId, EditedIssues(edited), now, clock);
      && scans.rows == after
      && r == if outcome.Ok? then Ok(Approved(outcome.value)) else Err(ApprovalError(outcome.error))
    ensures decision == "decline" ==>
      scans.rows == Declined(old(scans.rows), scanId, clock) && r == Ok(DeclinedResponse(DeclineReply(scanId, "declined", reason)))
    ensures decision != "approve" && decision != "decline" ==> scans.rows == old(scans.rows) && r == Err(BadDecision)
  {
    if decision == "approve" {
      var outcome := scans.ApproveRemediation(scanId, EditedIssues(edited), now, stamp, clock);
      r := if outcome.Ok? then Ok(Approved(outcome.value)) else Err(ApprovalError(outcome.error));
    } else if decision == "decline" {
      var reply := scans.DeclineRemediation(scanId, reason, clock);
      r := Ok(DeclinedResponse(reply));
    } else {
      r := Err(BadDecision);
    }
  }

  /** Approving an unknown scan, or one not waiting for approval, is a 404
      and leaves the table as it was. */
  lemma ApprovingWrongScanIs404(rows: map<string, ScanRecord>, scanId: string, edited: seq<PipelineAgents.Object>, now: int, clock: nat)
    requires scanId !in rows || rows[scanId].status != ScanWaiting
    ensures var (outcome, after) := Approve(rows, scanId, edited, now, clock);
      && outcome.Err? && after == rows
      && ApprovalError(outcome.error).HttpError? && ApprovalError(outcome.error).status == 404
  {
  }
}
