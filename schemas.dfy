// The enumerations and bounds the API's request and response models
// declare: a `Literal` field accepts exactly the listed words, and a
// bounded integer exactly the values within its bounds. A value the model
// refuses is a validation error (a ValueError).

module Schemas {
  import opened Common
  import Admin

  // ------------------------------------------------------------ verdicts

  /** `ViolationResponse.verdict` */
  datatype Verdict = Compliant | NonCompliant | Partial | UnknownVerdict

  function VerdictName(v: Verdict): string {
    match v
    case Compliant => "compliant"
    case NonCompliant => "non_compliant"
    case Partial => "partial"
    case UnknownVerdict => "unknown"
  }

  function ParseVerdict(s: string): (r: Option<Verdict>)
    ensures r.Some? ==> VerdictName(r.value) == s
    ensures r.None? ==> forall v :: VerdictName(v) != s
  {
    if s == "compliant" then Some(Compliant)
    else if s == "non_compliant" then Some(NonCompliant)
    else if s == "partial" then Some(Partial)
    else if s == "unknown" then Some(UnknownVerdict)
    else None
  }

  /** Every verdict is accepted back as itself: the four names differ. */
  lemma VerdictRoundTrip(v: Verdict)
    ensures ParseVerdict(VerdictName(v)) == Some(v)
  {
    assert "compliant"[0] != "non_compliant"[0] && "compliant"[0] != "partial"[0] && "compliant"[0] != "unknown"[0];
    assert "non_compliant"[0] != "partial"[0] && "non_compliant"[0] != "unknown"[0] && "partial"[0] != "unknown"[0];
  }

  // ------------------------------------------------------------ severities

  /** `ViolationResponse.severity` and `AnalyzeRuleRequest.severity_threshold` */
  datatype Severity = Critical | High | Medium | Low

  function SeverityName(s: Severity): string {
    match s
    case Critical => "critical"
    case High => "high"
    case Medium => "medium"
    case Low => "low"
  }

  function ParseSeverity(s: string): (r: Option<Severity>)
    ensures r.Some? ==> SeverityName(r.value) == s
    ensures r.None? ==> forall v :: SeverityName(v) != s
  {
    if s == "critical" then Some(Critical)
    else if s == "high" then Some(High)
    else if s == "medium" then Some(Medium)
    else if s == "low" then Some(Low)
    else None
  }

  lemma SeverityRoundTrip(s: Severity)
    ensures ParseSeverity(SeverityName(s)) == Some(s)
  {
    assert "critical"[0] != "high"[0] && "critical"[0] != "medium"[0] && "critical"[0] != "low"[0];
    assert "high"[0] != "medium"[0] && "high"[0] != "low"[0] && "medium"[0] != "low"[0];
  }

  // ------------------------------------------------------------ scan status

  /** `ScanResponse.status` */
  datatype ScanStatus = Pending | Running | Completed | Failed

  function ScanStatusName(s: ScanStatus): string {
    match s
    case Pending => "pending"
    case Running => "running"
    case Completed => "completed"
    case Failed => "failed"
  }

  function ParseScanStatus(s: string): (r: Option<ScanStatus>)
    ensures r.Some? ==> ScanStatusName(r.value) == s
    ensures r.None? ==> forall v :: ScanStatusName(v) != s
  {
    if s == "pending" then Some(Pending)
    else if s == "running" then Some(Running)
    else if s == "completed" then Some(Completed)
    else if s == "failed" then Some(Failed)
    else None
  }

  lemma ScanStatusRoundTrip(s: ScanStatus)
    ensures ParseScanStatus(ScanStatusName(s)) == Some(s)
  {
    assert "pending"[0] != "running"[0] && "pending"[0] != "completed"[0] && "pending"[0] != "failed"[0];
    assert "running"[0] != "completed"[0] && "running"[0] != "failed"[0] && "completed"[0] != "failed"[0];
  }

  /** The scan status has no word for a scan that waits for approval. */
  lemma NoWaitingApprovalStatus()
    ensures ParseScanStatus("waiting_approval") == None
  {
    assert "waiting_approval"[0] != "pending"[0] && "waiting_approval"[0] != "running"[0];
    assert "waiting_approval"[0] != "completed"[0] && "waiting_approval"[0] != "failed"[0];
  }

  // ------------------------------------------------------------ job status

  /** `JobStatusResponse.status` */
  datatype JobStatus = JobQueued | JobRunning | JobCompleted | JobFailed

  function JobStatusName(s: JobStatus): string {
    match s
    case JobQueued => "queued"
    case JobRunning => "running"
    case JobCompleted => "completed"
    case JobFailed => "failed"
  }

  function ParseJobStatus(s: string): (r: Option<JobStatus>)
    ensures r.Some? ==> JobStatusName(r.value) == s
    ensures r.None? ==> forall v :: JobStatusName(v) != s
  {
    if s == "queued" then Some(JobQueued)
    else if s == "running" then Some(JobRunning)
    else if s == "completed" then Some(JobCompleted)
    else if s == "failed" then Some(JobFailed)
    else None
  }

  lemma JobStatusRoundTrip(s: JobStatus)
    ensures ParseJobStatus(JobStatusName(s)) == Some(s)
  {
    assert "queued"[0] != "running"[0] && "queued"[0] != "completed"[0] && "queued"[0] != "failed"[0];
    assert "running"[0] != "completed"[0] && "running"[0] != "failed"[0] && "completed"[0] != "failed"[0];
  }

  // ------------------------------------------------------------ health status

  /** `HealthResponse.status`, over the statuses the health check reports. */
  function ParseHealthStatus(s: string): (r: Option<Admin.HealthStatus>)
    ensures r.Some? ==> Admin.StatusName(r.value) == s
    ensures r.None? ==> forall v :: Admin.StatusName(v) != s
  {
    if s == "healthy" then Some(Admin.Healthy)
    else if s == "degraded" then Some(Admin.Degraded)
    else if s == "unhealthy" then Some(Admin.Unhealthy)
    else None
  }

  lemma HealthStatusRoundTrip(s: Admin.HealthStatus)
    ensures ParseHealthStatus(Admin.StatusName(s)) == Some(s)
  {
    assert "healthy"[0] != "degraded"[0] && "healthy"[0] != "unhealthy"[0] && "degraded"[0] != "unhealthy"[0];
  }

  // ------------------------------------------------------------ requests

  const DefaultTopK: int := 10
  const MinTopK: int := 1
  const MaxTopK: int := 50

  /** A validated `AnalyzeRuleRequest`. */
  datatype AnalyzeRuleRequest = AnalyzeRuleRequest(ruleText: string, repoId: nat, topK: nat,
                                                   severityThreshold: Option<Severity>)

  /** Validation of the request body: `top_k` defaults to 10 and must lie
      in 1..50; a threshold, when given, must name a severity. */
  function ValidateAnalyzeRule(ruleText: string, repoId: nat, topK: Option<int>, threshold: Option<string>)
    : (r: Result<AnalyzeRuleRequest>)
    ensures r.Ok? <==> (topK.None? || MinTopK <= topK.value <= MaxTopK)
                       && (threshold.None? || ParseSeverity(threshold.value).Some?)
    ensures r.Ok? ==> && r.value.ruleText == ruleText && r.value.repoId == repoId
                      && MinTopK <= r.value.topK <= MaxTopK
                      && r.value.topK == (if topK.Some? then topK.value else DefaultTopK)
                      && (threshold.None? <==> r.value.severityThreshold.None?)
                      && (threshold.Some? ==> SeverityName(r.value.severityThreshold.value) == threshold.value)
    ensures r.Err? ==> r.error.ValueError?
  {
    var k := if topK.Some? then topK.value else DefaultTopK;
    if k < MinTopK then Err(ValueError("top_k: Input should be greater than or equal to 1"))
    else if k > MaxTopK then Err(ValueError("top_k: Input should be less than or equal to 50"))
    else match threshold
      case None => Ok(AnalyzeRuleRequest(ruleText, repoId, k, None))
      case Some(t) =>
        match ParseSeverity(t)
        case None => Err(ValueError("severity_threshold: Input should be 'critical', 'high', 'medium' or 'low'"))
        case Some(s) => Ok(AnalyzeRuleRequest(ruleText, repoId, k, Some(s)))
  }

  /** A `FullScanRequest`: no rule ids means every rule. */
  datatype FullScanRequest = FullScanRequest(repoId: nat, initiator: Option<string>, commitSha: Option<string>,
                                             ruleIds: Option<seq<string>>)
}
