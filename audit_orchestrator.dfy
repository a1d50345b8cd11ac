// The audit case orchestrator: an `audit_cases` row walks through four
// fixed steps, recording which are completed and which pending, pauses for
// approval before the report, and completes when it is resumed.

module AuditOrchestration {
  import opened Common

  /** A result dict, as a `jsonb` column holds it. */
  type Object = map<string, Json>

  /** A workflow step; the row's step lists hold their names, and only
      these names are ever written to them. */
  datatype Step = RuleIngestion | CodeScanning | ComplianceChecking | ReportGeneration

  function StepName(step: Step): string {
    match step
    case RuleIngestion => "rule_ingestion"
    case CodeScanning => "code_scanning"
    case ComplianceChecking => "compliance_checking"
    case ReportGeneration => "report_generation"
  }

  /** `workflow_steps`, in order. */
  const WorkflowSteps: seq<Step> := [RuleIngestion, CodeScanning, ComplianceChecking, ReportGeneration]

  const CaseRunning: string := "running"
  const CaseWaiting: string := "waiting_approval"
  const CaseCompleted: string := "completed"
  const CaseFailed: string := "failed"

  /** Every step occurs in the workflow exactly once, at its own index. */
  lemma StepsDistinct()
    ensures forall i, j :: 0 <= i < j < |WorkflowSteps| ==> WorkflowSteps[i] != WorkflowSteps[j]
    ensures forall s: Step :: s in WorkflowSteps
  {
    forall s: Step ensures s in WorkflowSteps {
      var i := match s case RuleIngestion => 0 case CodeScanning => 1 case ComplianceChecking => 2 case ReportGeneration => 3;
      assert WorkflowSteps[i] == s;
    }
  }

  /** An `audit_cases` row. `results` holds the `{step}_result` columns
      written so far. */
  datatype CaseRow = CaseRow(
    repoId: string,
    regulationIds: seq<string>,
    status: string,
    currentStep: Option<Step>,
    stepsCompleted: seq<Step>,
    stepsPending: seq<Step>,
    options: Json,
    errorMessage: Option<string>,
    results: map<string, Object>,
    reportData: Option<Json>,
    requiresApproval: bool,
    updatedAt: nat,
    completedAt: Option<nat>)

  /** The row `start_audit` inserts (`options or {}`). */
  function NewCase(repoId: string, regulationIds: seq<string>, options: Json, clock: nat): (row: CaseRow)
    ensures row.status == CaseRunning && row.currentStep == Some(WorkflowSteps[0])
    ensures row.stepsCompleted == [] && row.stepsPending == WorkflowSteps
    ensures row.options == (if Truthy(options) then options else JObject(map[]))
    ensures row.results == map[] && row.reportData.None? && !row.requiresApproval && row.completedAt.None?
  {
    CaseRow(repoId, regulationIds, CaseRunning, Some(WorkflowSteps[0]), [], WorkflowSteps,
            if Truthy(options) then options else JObject(map[]), None, map[], None, false, clock, None)
  }

  // ------------------------------------------------------------ step bookkeeping

  /** `list.remove`: the first occurrence goes; an absent value changes
      nothing (the caller tests membership first). */
  function RemoveFirst(xs: seq<Step>, x: Step): (r: seq<Step>)
    ensures x !in xs ==> r == xs
    ensures x in xs ==> |r| == |xs| - 1
    ensures xs != [] && xs[0] == x ==> r == xs[1..]
  {
    if xs == [] then []
    else if xs[0] == x then xs[1..]
    else
      var rest := RemoveFirst(xs[1..], x);
      assert xs == [xs[0]] + xs[1..];
      [xs[0]] + rest
  }

  /** `remove` takes exactly one occurrence away. */
  lemma {:induction false} RemoveCount(xs: seq<Step>, x: Step)
    ensures multiset(RemoveFirst(xs, x)) == multiset(xs) - multiset{x}
  {
    if xs != [] {
      assert xs == [xs[0]] + xs[1..];
      if xs[0] != x {
        RemoveCount(xs[1..], x);
      }
    }
  }

  /** The index of the first workflow step from `i` on that is not in
      `completed`; the number of steps when there is none. */
  function FirstPendingIndex(completed: seq<Step>, i: nat): (r: nat)
    requires i <= |WorkflowSteps|
    ensures i <= r <= |WorkflowSteps|
    ensures r < |WorkflowSteps| ==> WorkflowSteps[r] !in completed
    ensures forall l :: i <= l < r ==> WorkflowSteps[l] in completed
    decreases |WorkflowSteps| - i
  {
    if i == |WorkflowSteps| then i
    else if WorkflowSteps[i] !in completed then i
    else FirstPendingIndex(completed, i + 1)
  }

  /** The step `_mark_step_complete` makes current: the first workflow step
      not completed, or None when all are. */
  function NextStep(completed: seq<Step>): (r: Option<Step>)
    ensures r.None? <==> forall s :: s in WorkflowSteps ==> s in completed
    ensures r.Some? ==> r.value in WorkflowSteps && r.value !in completed
  {
    var k := FirstPendingIndex(completed, 0);
    if k < |WorkflowSteps| then Some(WorkflowSteps[k]) else None
  }

  /** `_mark_step_complete`'s search for the next step. */
  method FindNextStep(completed: seq<Step>) returns (next: Option<Step>)
    ensures next == NextStep(completed)
  {
    next := None;
    var i := 0;
    while i < |WorkflowSteps|
      invariant 0 <= i <= |WorkflowSteps|
      invariant forall l :: 0 <= l < i ==> WorkflowSteps[l] in completed
    {
      if WorkflowSteps[i] !in completed {
        FirstPendingIs(completed, 0, i);
        return Some(WorkflowSteps[i]);
      }
      i := i + 1;
    }
    FirstPendingIs(completed, 0, |WorkflowSteps|);
  }

  /** The first pending index is the one before which every step is
      completed and at which one is not. */
  lemma FirstPendingIs(completed: seq<Step>, i: nat, k: nat)
    requires i <= k <= |WorkflowSteps|
    requires forall l :: i <= l < k ==> WorkflowSteps[l] in completed
    requires k < |WorkflowSteps| ==> WorkflowSteps[k] !in completed
    ensures FirstPendingIndex(completed, i) == k
  {
  }

  /** The `{step}_result` column a step's result is written to. */
  function ResultColumn(step: Step): string {
    StepName(step) + "_result"
  }

  /** The row after `_mark_step_complete(step, result)`: the step is
      appended to the completed ones unless already there, leaves the
      pending ones, and the first step not completed becomes current. */
  function Marked(row: CaseRow, step: Step, result: Object, clock: nat): (out: CaseRow)
    ensures step in out.stepsCompleted && step !in row.stepsPending ==> out.stepsPending == row.stepsPending
    ensures out.stepsCompleted == if step in row.stepsCompleted then row.stepsCompleted else row.stepsCompleted + [step]
    ensures out.stepsPending == RemoveFirst(row.stepsPending, step)
    ensures out.currentStep == NextStep(out.stepsCompleted)
    ensures out.results == row.results[ResultColumn(step) := result]
    ensures out.status == row.status && out.requiresApproval == row.requiresApproval && out.completedAt == row.completedAt
  {
    var completed := if step in row.stepsCompleted then row.stepsCompleted else row.stepsCompleted + [step];
    row.(stepsCompleted := completed, stepsPending := RemoveFirst(row.stepsPending, step),
         currentStep := NextStep(completed), results := row.results[ResultColumn(step) := result], updatedAt := clock)
  }

  /** Marking a step again changes neither the completed steps nor the
      current step; nor the pending ones when the step occurred there at
      most once. */
  lemma MarkTwice(row: CaseRow, step: Step, result: Object, clock: nat)
    ensures var once := Marked(row, step, result, clock);
      var twice := Marked(once, step, result, clock);
      && twice.stepsCompleted == once.stepsCompleted && twice.currentStep == once.currentStep
      && twice.results == once.results
      && (multiset(row.stepsPending)[step] <= 1 ==> twice == once)
  {
    var once := Marked(row, step, result, clock);
    if multiset(row.stepsPending)[step] <= 1 {
      RemoveCount(row.stepsPending, step);
      assert multiset(once.stepsPending)[step] == 0;
      assert step !in once.stepsPending;
    }
  }

  /** Steps `0..n` completed in order and the rest pending. */
  predicate InOrder(row: CaseRow, n: nat) {
    n <= |WorkflowSteps| && row.stepsCompleted == WorkflowSteps[..n] && row.stepsPending == WorkflowSteps[n..]
  }

  /** Completing the next step in order keeps the completed steps a prefix
      of the workflow and the pending ones its rest, and makes the step
      after it current. */
  lemma MarkInOrder(row: CaseRow, n: nat, result: Object, clock: nat)
    requires InOrder(row, n) && n < |WorkflowSteps|
    ensures var out := Marked(row, WorkflowSteps[n], result, clock);
      && InOrder(out, n + 1)
      && out.currentStep == if n + 1 < |WorkflowSteps| then Some(WorkflowSteps[n + 1]) else None
  {
    StepsDistinct();
    var step := WorkflowSteps[n];
    assert step !in WorkflowSteps[..n];
    assert WorkflowSteps[..n] + [step] == WorkflowSteps[..n + 1];
    assert RemoveFirst(WorkflowSteps[n..], step) == WorkflowSteps[n + 1..];
    var done := WorkflowSteps[..n + 1];
    assert forall l :: 0 <= l < n + 1 ==> WorkflowSteps[l] in done;
    if n + 1 < |WorkflowSteps| {
      assert WorkflowSteps[n + 1] !in done;
      FirstPendingIs(done, 0, n + 1);
    } else {
      FirstPendingIs(done, 0, |WorkflowSteps|);
    }
  }

  /** `get_case_state`'s progress: completed over total, as a percentage. */
  function Progress(row: CaseRow): real {
    (|row.stepsCompleted| as real / |WorkflowSteps| as real) * 100.0
  }

  lemma ProgressInOrder(row: CaseRow, n: nat)
    requires InOrder(row, n)
    ensures Progress(row) == 25.0 * n as real
    ensures 0.0 <= Progress(row) <= 100.0
  {
    assert |row.stepsCompleted| == n;
  }

  /** `_update_case_status`: the status, the current step (None unless
      given) and the error are overwritten; only completion stamps
      `completed_at`. */
  function StatusUpdated(row: CaseRow, status: string, currentStep: Option<Step>, error: Option<string>, clock: nat): (out: CaseRow)
    ensures out.status == status && out.currentStep == currentStep && out.errorMessage == error
    ensures out.completedAt == if status == CaseCompleted then Some(clock) else row.completedAt
    ensures out.stepsCompleted == row.stepsCompleted && out.stepsPending == row.stepsPending && out.results == row.results
  {
    var r := row.(status := status, currentStep := currentStep, errorMessage := error, updatedAt := clock);
    if status == CaseCompleted then r.(completedAt := Some(clock)) else r
  }

  // ------------------------------------------------------------ the workflow

  /** What the first three steps would record, each as the result dict or
      the exception it raises; the steps' reads of other tables and the
      scans they start are not part of this model. */
  datatype StepWork = StepWork(ruleIngestion: Result<Object>, codeScanning: Result<Object>, complianceChecking: Result<Object>)

  /** The outcome of step `k`. */
  function WorkAt(work: StepWork, k: nat): Result<Object>
    requires k < 3
  {
    if k == 0 then work.ruleIngestion else if k == 1 then work.codeScanning else work.complianceChecking
  }

  /** The column the report step reads its scan ids from, as written. */
  const CheckResultColumn: string := "compliance_check_result"
  /** The column `get_case_state` reads the code scan result from, as written. */
  const ScanResultColumn: string := "code_scan_result"

  /** `(row.get(column) or {}).get("scan_ids", [])` */
  function ScanIdsIn(results: map<string, Object>, column: string): (ids: Json)
    ensures column !in results ==> ids == JList([])
    ensures column in results ==> ids == Get(results[column], "scan_ids", JList([]))
  {
    if column in results then Get(results[column], "scan_ids", JList([])) else JList([])
  }

  /** No step writes either column its readers use: every result column
      differs from both in length. */
  lemma ReadColumnsNeverWritten(step: Step)
    ensures ResultColumn(step) != CheckResultColumn && ResultColumn(step) != ScanResultColumn
  {
    assert |ResultColumn(step)| == |StepName(step)| + 7;
  }

  /** Every column a row holds was written by a workflow step. */
  predicate StepColumnsOnly(row: CaseRow) {
    forall c :: c in row.results ==> exists s: Step :: c == ResultColumn(s)
  }

  /** The report step as written: it reads `compliance_check_result`, which
      no step writes, so the report is always built from no scans. */
  function ReportScanIdsAsWritten(row: CaseRow): (ids: Json)
    ensures StepColumnsOnly(row) ==> ids == JList([])
  {
    if StepColumnsOnly(row) then ReadColumnsAbsent(row); ScanIdsIn(row.results, CheckResultColumn)
    else ScanIdsIn(row.results, CheckResultColumn)
  }

  /** A row holding only step columns holds neither column its readers use. */
  lemma ReadColumnsAbsent(row: CaseRow)
    requires StepColumnsOnly(row)
    ensures ScanResultColumn !in row.results && CheckResultColumn !in row.results
  {
    if ScanResultColumn in row.results {
      var s: Step :| ScanResultColumn == ResultColumn(s);
      ReadColumnsNeverWritten(s);
    }
    if CheckResultColumn in row.results {
      var s: Step :| CheckResultColumn == ResultColumn(s);
      ReadColumnsNeverWritten(s);
    }
  }

  lemma MarkedKeepsStepColumns(row: CaseRow, step: Step, result: Object, clock: nat)
    requires StepColumnsOnly(row)
    ensures StepColumnsOnly(Marked(row, step, result, clock))
  {
    var out := Marked(row, step, result, clock);
    forall c | c in out.results ensures exists s: Step :: c == ResultColumn(s) {
      if c == ResultColumn(step) {} else {}
    }
  }

  /** Through the three steps before the report, the report step as
      written finds no scan ids, whatever the compliance step recorded. */
  lemma ReportAfterStepsSeesNoScans(row: CaseRow, r0: Object, r1: Object, r2: Object, clock: nat)
    requires StepColumnsOnly(row)
    ensures var row3 := Marked(Marked(Marked(row, RuleIngestion, r0, clock), CodeScanning, r1, clock), ComplianceChecking, r2, clock);
      ReportScanIdsAsWritten(row3) == JList([])
  {
    var row1 := Marked(row, RuleIngestion, r0, clock);
    MarkedKeepsStepColumns(row, RuleIngestion, r0, clock);
    var row2 := Marked(row1, CodeScanning, r1, clock);
    MarkedKeepsStepColumns(row1, CodeScanning, r1, clock);
    var row3 := Marked(row2, ComplianceChecking, r2, clock);
    MarkedKeepsStepColumns(row2, ComplianceChecking, r2, clock);
    ReadColumnsAbsent(row3);
  }

  /** The report step reading the column the compliance step writes. */
  function ReportScanIds(row: CaseRow): Json {
    ScanIdsIn(row.results, ResultColumn(WorkflowSteps[2]))
  }

  /** The corrected report step sees the scan ids the compliance step
      recorded. */
  lemma ReportSeesRecordedScans(row: CaseRow, result: Object, clock: nat)
    ensures ReportScanIds(Marked(row, WorkflowSteps[2], result, clock)) == Get(result, "scan_ids", JList([]))
  {
  }

  /** The row after the report step: paused for approval with the outline,
      `report_generation` current but not completed. */
  function PausedRow(row: CaseRow, outline: Json, clock: nat): (out: CaseRow)
    ensures out.status == CaseWaiting && out.currentStep == Some(WorkflowSteps[3])
    ensures out.requiresApproval && out.reportData == Some(outline)
    ensures out.stepsCompleted == row.stepsCompleted && out.stepsPending == row.stepsPending
  {
    StatusUpdated(row, CaseWaiting, Some(WorkflowSteps[3]), None, clock).(requiresApproval := true, reportData := Some(outline))
  }

  /** The report step: the outline of the recorded scans, then the pause. */
  function ReportOutcome(row: CaseRow, outline: Json -> Result<Json>, clock: nat): (CaseRow, Option<Error>) {
    match outline(ReportScanIds(row))
    case Err(e) => (row, Some(e))
    case Ok(o) => (PausedRow(row, o, clock), None)
  }

  /** `_execute_workflow` from step `k` on: the row it leaves and the
      exception it raises. Each step's result is recorded before the next
      runs; the first exception ends the workflow. */
  function WorkflowFrom(row: CaseRow, work: StepWork, outline: Json -> Result<Json>, clock: nat, k: nat)
    : (res: (CaseRow, Option<Error>))
    requires k <= 3
    ensures res.1.None? ==> && res.0.status == CaseWaiting && res.0.requiresApproval
                            && res.0.currentStep == Some(WorkflowSteps[3]) && res.0.reportData.Some?
    decreases 3 - k
  {
    if k == 3 then ReportOutcome(row, outline, clock)
    else match WorkAt(work, k)
      case Err(e) => (row, Some(e))
      case Ok(v) => WorkflowFrom(Marked(row, WorkflowSteps[k], v, clock), work, outline, clock, k + 1)
  }

  /** `_execute_workflow` on a case: success leaves it waiting for the
      approval of its report; a failure in the first step leaves it as it
      was. */
  function Workflow(row: CaseRow, work: StepWork, outline: Json -> Result<Json>, clock: nat): (res: (CaseRow, Option<Error>))
    ensures res.1.None? ==> && res.0.status == CaseWaiting && res.0.requiresApproval
                            && res.0.currentStep == Some(WorkflowSteps[3]) && res.0.reportData.Some?
    ensures WorkAt(work, 0).Err? ==> res == (row, Some(WorkAt(work, 0).error))
  {
    WorkflowFrom(row, work, outline, clock, 0)
  }

  /** From a row with the first `k` steps completed in order, the workflow
      keeps them in order: a failure leaves a prefix completed, and success
      pauses with three completed and only the report pending. */
  lemma {:induction false} WorkflowFromInOrder(row: CaseRow, work: StepWork, outline: Json -> Result<Json>, clock: nat, k: nat)
    requires k <= 3 && InOrder(row, k)
    ensures var (out, err) := WorkflowFrom(row, work, outline, clock, k);
      && k <= |out.stepsCompleted| <= 3 && InOrder(out, |out.stepsCompleted|)
      && (err.None? ==> && |out.stepsCompleted| == 3 && out.status == CaseWaiting && out.requiresApproval
                         && out.currentStep == Some(WorkflowSteps[3]))
    decreases 3 - k
  {
    if k < 3 && WorkAt(work, k).Ok? {
      var v := WorkAt(work, k).value;
      MarkInOrder(row, k, v, clock);
      WorkflowFromInOrder(Marked(row, WorkflowSteps[k], v, clock), work, outline, clock, k + 1);
    }
  }

  /** A workflow on a new case runs the steps strictly in order; success
      leaves only the report pending and progress at 75 percent. */
  lemma WorkflowInOrder(row: CaseRow, work: StepWork, outline: Json -> Result<Json>, clock: nat)
    requires InOrder(row, 0)
    ensures var (out, err) := Workflow(row, work, outline, clock);
      && |out.stepsCompleted| <= 3 && InOrder(out, |out.stepsCompleted|)
      && (err.None? ==> && out.stepsPending == [WorkflowSteps[3]] && out.status == CaseWaiting
                         && out.currentStep == Some(WorkflowSteps[3]) && Progress(out) == 75.0)
  {
    WorkflowFromInOrder(row, work, outline, clock, 0);
    var out := Workflow(row, work, outline, clock).0;
    ProgressInOrder(out, |out.stepsCompleted|);
  }

  /** The reply of `resume_audit`. */
  datatype ResumeReply = ResumeReply(caseId: string, repoId: string, status: string, message: string)

  /** The result `_finalize_report` records. */
  const ReportResult: Object := map["report_generated" := JBool(true), "format" := JStr("html")]

  /** The row after `_finalize_report`: the report step is completed, then
      the case. */
  function Finalized(row: CaseRow, clock: nat): CaseRow {
    StatusUpdated(Marked(row, WorkflowSteps[3], ReportResult, clock), CaseCompleted, None, None, clock)
  }

  /** Resuming a paused workflow completes every step and the case. */
  lemma ResumeCompletes(row: CaseRow, clock: nat)
    requires InOrder(row, 3)
    ensures var out := Finalized(row, clock);
      && InOrder(out, 4) && out.stepsPending == [] && out.status == CaseCompleted
      && out.currentStep.None? && out.completedAt == Some(clock) && Progress(out) == 100.0
  {
    MarkInOrder(row, 3, ReportResult, clock);
    ProgressInOrder(Finalized(row, clock), 4);
  }

  /** What `get_case_state` reports; the three result fields are read
      from the columns `rule_ingestion_result`, `code_scan_result` and
      `compliance_check_result`. */
  datatype CaseState = CaseState(
    repoId: string,
    status: string,
    currentStep: Option<Step>,
    stepsCompleted: seq<Step>,
    stepsPending: seq<Step>,
    progress: real,
    errorMessage: Option<string>,
    ruleIngestionResult: Option<Object>,
    codeScanResult: Option<Object>,
    complianceCheckResult: Option<Object>,
    reportData: Option<Json>,
    requiresApproval: bool,
    completedAt: Option<nat>)

  function Column(results: map<string, Object>, column: string): (r: Option<Object>)
    ensures r.Some? <==> column in results
    ensures r.Some? ==> r.value == results[column]
  {
    if column in results then Some(results[column]) else None
  }

  function StateOf(row: CaseRow): CaseState {
    CaseState(row.repoId, row.status, row.currentStep, row.stepsCompleted, row.stepsPending, Progress(row),
              row.errorMessage, Column(row.results, ResultColumn(RuleIngestion)), Column(row.results, ScanResultColumn),
              Column(row.results, CheckResultColumn), row.reportData, row.requiresApproval, row.completedAt)
  }

  /** The reported state shows the rule ingestion result once recorded, but
      never a code scan or compliance check result. */
  lemma StateShowsOnlyIngestion(row: CaseRow, result: Object, clock: nat)
    requires StepColumnsOnly(row)
    ensures var st := StateOf(Marked(row, RuleIngestion, result, clock));
      st.ruleIngestionResult == Some(result) && st.codeScanResult.None? && st.complianceCheckResult.None?
    ensures StateOf(row).codeScanResult.None? && StateOf(row).complianceCheckResult.None?
  {
    MarkedKeepsStepColumns(row, RuleIngestion, result, clock);
    var out := Marked(row, RuleIngestion, result, clock);
    ReadColumnsAbsent(row);
    ReadColumnsAbsent(out);
  }

  lemma UpdateTwice<K, V>(m: map<K, V>, k: K, a: V, b: V)
    ensures m[k := a][k := b] == m[k := b]
  {
  }

  /** The `audit_cases` table and the orchestrator's operations on it. */
  class AuditOrchestrator {
    var cases: map<string, CaseRow>

    constructor ()
      ensures cases == map[]
    {
      cases := map[];
    }

    /** `_update_case_status`: an unknown case changes nothing. */
    method UpdateCaseStatus(caseId: string, status: string, currentStep: Option<Step>, error: Option<string>, clock: nat)
      modifies this
      ensures caseId in old(cases) ==> cases == old(cases)[caseId := StatusUpdated(old(cases)[caseId], status, currentStep, error, clock)]
      ensures caseId !in old(cases) ==> cases == old(cases)
    {
      if caseId in cases {
        cases := cases[caseId := StatusUpdated(cases[caseId], status, currentStep, error, clock)];
      }
    }

    /** `_mark_step_complete`: reading an unknown case fails on `None`. */
    method MarkStepComplete(caseId: string, step: Step, result: Object, clock: nat) returns (r: Result<()>)
      modifies this
      ensures caseId in old(cases) ==> r.Ok? && cases == old(cases)[caseId := Marked(old(cases)[caseId], step, result, clock)]
      ensures caseId !in old(cases) ==> r.Err? && r.error.TypeError? && cases == old(cases)
    {
      if caseId !in cases {
        return Err(TypeError("'NoneType' object is not subscriptable"));
      }
      var row := cases[caseId];
      var completed := row.stepsCompleted;
      if step !in completed {
        completed := completed + [step];
      }
      var pending := row.stepsPending;
      if step in pending {
        pending := RemoveFirst(pending, step);
      }
      assert pending == RemoveFirst(row.stepsPending, step);
      var next := FindNextStep(completed);
      ghost var marked := Marked(row, step, result, clock);
      assert completed == marked.stepsCompleted && next == marked.currentStep;
      cases := cases[caseId := row.(stepsCompleted := completed, stepsPending := pending, currentStep := next,
                                    results := row.results[ResultColumn(step) := result], updatedAt := clock)];
      assert cases[caseId] == marked;
      r := Ok(());
    }

    /** One of the first three steps: its result is recorded, or its
        exception returned. */
    method RunStep(caseId: string, k: nat, outcome: Result<Object>, clock: nat) returns (err: Option<Error>)
      requires k < 3 && caseId in cases
      modifies this
      ensures outcome.Err? ==> err == Some(outcome.error) && cases == old(cases)
      ensures outcome.Ok? ==> err.None? && cases == old(cases)[caseId := Marked(old(cases)[caseId], WorkflowSteps[k], outcome.value, clock)]
    {
      if outcome.Err? {
        return Some(outcome.error);
      }
      var marked := MarkStepComplete(caseId, WorkflowSteps[k], outcome.value, clock);
      err := None;
    }

    /** `_step_report_generation`: the outline is built from the recorded
        scans and the case pauses for approval. */
    method ReportStep(caseId: string, outline: Json -> Result<Json>, clock: nat) returns (err: Option<Error>)
      requires caseId in cases
      modifies this
      ensures var (out, e) := ReportOutcome(old(cases)[caseId], outline, clock);
        cases == old(cases)[caseId := out] && err == e
    {
      var o := outline(ReportScanIds(cases[caseId]));
      if o.Err? {
        assert cases == old(cases)[caseId := cases[caseId]];
        return Some(o.error);
      }
      UpdateCaseStatus(caseId, CaseWaiting, Some(WorkflowSteps[3]), None, clock);
      cases := cases[caseId := cases[caseId].(requiresApproval := true, reportData := Some(o.value))];
      err := None;
    }

    /** `_execute_workflow`: the four steps in order; the first exception
        ends it. */
    method ExecuteWorkflow(caseId: string, work: StepWork, outline: Json -> Result<Json>, clock: nat) returns (err: Option<Error>)
      requires caseId in cases
      modifies this
      ensures var (out, e) := Workflow(old(cases)[caseId], work, outline, clock);
        cases == old(cases)[caseId := out] && err == e
    {
      ghost var goal := Workflow(cases[caseId], work, outline, clock);
      err := RunStep(caseId, 0, work.ruleIngestion, clock);
      if err.Some? {
        return;
      }
      ghost var row1 := cases[caseId];
      assert WorkflowFrom(row1, work, outline, clock, 1) == goal;
      err := RunStep(caseId, 1, work.codeScanning, clock);
      UpdateTwice(old(cases), caseId, row1, cases[caseId]);
      if err.Some? {
        return;
      }
      ghost var row2 := cases[caseId];
      assert WorkflowFrom(row2, work, outline, clock, 2) == goal;
      err := RunStep(caseId, 2, work.complianceChecking, clock);
      UpdateTwice(old(cases), caseId, row2, cases[caseId]);
      if err.Some? {
        return;
      }
      ghost var row3 := cases[caseId];
      assert ReportOutcome(row3, outline, clock) == goal;
      err := ReportStep(caseId, outline, clock);
      UpdateTwice(old(cases), caseId, row3, cases[caseId]);
    }

    /** `start_audit` with the fresh id `caseId`: the case is inserted
        `running` at the first step, the workflow runs, and an exception
        marks the case `failed` with its message and no current step. */
    method StartAudit(caseId: string, repoId: string, regulationIds: seq<string>, options: Json,
                      work: StepWork, outline: Json -> Result<Json>, clock: nat) returns (r: Result<string>)
      requires caseId !in cases
      modifies this
      ensures var (out, e) := Workflow(NewCase(repoId, regulationIds, options, clock), work, outline, clock);
        && (e.None? ==> r == Ok(caseId) && cases == old(cases)[caseId := out])
        && (e.Some? ==> r == Err(e.value)
                        && cases == old(cases)[caseId := StatusUpdated(out, CaseFailed, None, Some(ErrorText(e.value)), clock)])
    {
      var row := NewCase(repoId, regulationIds, options, clock);
      cases := cases[caseId := row];
      var err := ExecuteWorkflow(caseId, work, outline, clock);
      ghost var out := cases[caseId];
      UpdateTwice(old(cases), caseId, row, out);
      if err.Some? {
        UpdateCaseStatus(caseId, CaseFailed, None, Some(ErrorText(err.value)), clock);
        UpdateTwice(old(cases), caseId, out, cases[caseId]);
        return Err(err.value);
      }
      r := Ok(caseId);
    }

    /** `get_case_state`: an unknown case raises ValueError. */
    method GetCaseState(caseId: string) returns (r: Result<CaseState>)
      ensures caseId !in cases ==> r.Err? && r.error.ValueError?
      ensures caseId in cases ==> r.Ok? && r.value == StateOf(cases[caseId])
      ensures r.Ok? ==> 0.0 <= r.value.progress && r.value.status == cases[caseId].status
    {
      if caseId !in cases {
        return Err(ValueError("Audit case " + caseId + " not found"));
      }
      r := Ok(StateOf(cases[caseId]));
    }

    /** `resume_audit`: only a case waiting for approval resumes; the report
        (`report`, the outcome of rendering it) is finalised and the case
        completed. */
    method ResumeAudit(caseId: string, report: Result<string>, clock: nat) returns (r: Result<ResumeReply>)
      modifies this
      ensures caseId !in old(cases) ==> r.Err? && r.error.ValueError? && cases == old(cases)
      ensures caseId in old(cases) && old(cases)[caseId].status != CaseWaiting ==>
        r.Err? && r.error.ValueError? && cases == old(cases)
      ensures caseId in old(cases) && old(cases)[caseId].status == CaseWaiting && report.Err? ==>
        r == Err(report.error) && cases == old(cases)
      ensures caseId in old(cases) && old(cases)[caseId].status == CaseWaiting && report.Ok? ==>
        && r == Ok(ResumeReply(caseId, old(cases)[caseId].repoId, CaseCompleted, "Audit completed successfully"))
        && cases == old(cases)[caseId := Finalized(old(cases)[caseId], clock)]
    {
      if caseId !in cases {
        return Err(ValueError("Audit case " + caseId + " not found"));
      }
      var row := cases[caseId];
      if row.status != CaseWaiting {
        return Err(ValueError("Case " + caseId + " cannot be resumed (status: " + row.status + ")"));
      }
      if report.Err? {
        return Err(report.error);
      }
      var marked := MarkStepComplete(caseId, WorkflowSteps[3], ReportResult, clock);
      UpdateCaseStatus(caseId, CaseCompleted, None, None, clock);
      r := Ok(ResumeReply(caseId, row.repoId, CaseCompleted, "Audit completed successfully"));
    }
  }
}
