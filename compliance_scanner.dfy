// The life of a compliance scan in the `compliance_scans` table: a row is
// created `running`, the agent pipeline runs, and the row then waits for
// approval (or is marked `failed`); approval creates the tickets and
// completes it, declining completes it without tickets.

module ComplianceScanner {
  import opened Common
  import opened KeyValue
  import opened JobQueue
  import opened AgentLogs
  import opened PipelineAgents

  const ScanRunning: string := "running"
  const ScanWaiting: string := "waiting_approval"
  const ScanCompleted: string := "completed"
  const ScanFailed: string := "failed"

  /** A `compliance_scans` row: the columns the lifecycle writes. A column
      the lifecycle has not written is `None`. */
  datatype ScanRecord = ScanRecord(
    repoId: string,
    regulationId: Json,
    status: string,
    rulePlan: Option<Object>,
    matchedFiles: Option<MatchedFiles>,
    investigation: Option<Investigation>,
    finalVerdict: Option<FinalVerdict>,
    remediation: Option<Remediation>,
    requiresUserAction: Option<bool>,
    userDecision: Option<string>,
    jiraTicketIds: seq<string>,
    completedAt: Option<nat>)

  /** The row `start_compliance_scan` inserts: `running`, for the chunk's
      `rule_id` or `UNKNOWN`. */
  function Started(repoId: string, chunk: Object): (row: ScanRecord)
    ensures row.status == ScanRunning && row.repoId == repoId
    ensures row.regulationId == if "rule_id" in chunk then chunk["rule_id"] else JStr("UNKNOWN")
    ensures row.userDecision.None? && row.jiraTicketIds == [] && row.completedAt.None?
  {
    ScanRecord(repoId, Get(chunk, "rule_id", JStr("UNKNOWN")), ScanRunning, None, None, None, None, None, None, None, [], None)
  }

  /** The row after the pipeline: its results saved, or status `failed`. */
  function StartOutcome(row: ScanRecord, run: Result<ComplianceState>): (out: ScanRecord)
    ensures run.Err? ==> out == row.(status := ScanFailed)
    ensures run.Ok? ==> out.status == (if run.value.requiresApproval then ScanWaiting else ScanCompleted)
    ensures run.Ok? ==> out.requiresUserAction == Some(run.value.requiresApproval)
    ensures run.Ok? ==> out.remediation == run.value.remediation && out.finalVerdict == run.value.finalVerdict
    ensures out.repoId == row.repoId && out.regulationId == row.regulationId && out.userDecision == row.userDecision
    ensures out.jiraTicketIds == row.jiraTicketIds && out.completedAt == row.completedAt
  {
    match run
    case Err(_) => row.(status := ScanFailed)
    case Ok(st) =>
      row.(rulePlan := st.rulePlan, matchedFiles := st.matchedFiles, investigation := st.investigation,
           finalVerdict := st.finalVerdict, remediation := st.remediation,
           requiresUserAction := Some(st.requiresApproval),
           status := if st.requiresApproval then ScanWaiting else ScanCompleted)
  }

  /** The pipeline run `start_compliance_scan` makes. */
  function Pipeline(scanId: string, repoId: string, chunk: Object, svc: Services, startedAt: string): Result<ComplianceState> {
    ScanFrom(0, Initial(scanId, repoId, chunk, startedAt), svc)
  }

  /** A fresh orchestrator runs the pipeline. */
  method RunPipeline(scanId: string, repoId: string, chunk: Object, svc: Services, startedAt: string) returns (run: Result<ComplianceState>)
    ensures run == Pipeline(scanId, repoId, chunk, svc, startedAt)
  {
    var orchestrator := new ComplianceScanOrchestrator(scanId, repoId, chunk);
    run := orchestrator.RunScan(svc, startedAt);
  }

  /** A started scan never ends `completed` directly: it waits for approval
      when the pipeline succeeds and is `failed` otherwise. */
  lemma StartedScanAwaitsApproval(scanId: string, repoId: string, chunk: Object, svc: Services, startedAt: string)
    ensures var run := ScanFrom(0, Initial(scanId, repoId, chunk, startedAt), svc);
      var row := StartOutcome(Started(repoId, chunk), run);
      && (run.Ok? ==> row.status == ScanWaiting && row.requiresUserAction == Some(true))
      && (run.Err? ==> row.status == ScanFailed)
  {
    var run := ScanFrom(0, Initial(scanId, repoId, chunk, startedAt), svc);
    if run.Ok? {
      ScanAwaitsApproval(0, Initial(scanId, repoId, chunk, startedAt), svc);
    }
  }

  /** The state `approve_remediation` rebuilds from a stored row: only the
      ids and the drafted remediation survive. */
  function Restored(scanId: string, row: ScanRecord): (st: ComplianceState)
    ensures st.scanId == scanId && st.repoId == row.repoId && st.remediation == row.remediation
    ensures st.regulationChunk == map[] && st.jiraTicketIds == [] && st.userDecision.None? && !st.requiresApproval
  {
    ComplianceState(scanId, row.repoId, map[], None, None, None, None, row.remediation, false, None, [], "", None, None)
  }

  /** The tickets approving a row creates. */
  function ApprovalTicketIds(scanId: string, row: ScanRecord, edited: seq<Object>, now: int): Result<seq<string>> {
    Tickets(IssuesIn(Approved(Restored(scanId, row), edited)), now)
  }

  /** The dict `approve_remediation` returns. */
  datatype ApprovalReply = ApprovalReply(scanId: string, ticketIds: seq<string>, status: string)

  function NotFound(scanId: string): Error {
    ValueError("Scan " + scanId + " not found")
  }

  function NotWaiting(scanId: string, status: string): Error {
    ValueError("Scan " + scanId + " is not waiting for approval (status: " + status + ")")
  }

  /** `approve_remediation` on the table `rows` with the database clock at
      `clock`: the reply, and the table after it. */
  function Approve(rows: map<string, ScanRecord>, scanId: string, edited: seq<Object>, now: int, clock: nat)
    : (r: (Result<ApprovalReply>, map<string, ScanRecord>))
    ensures scanId !in rows ==> r.0 == Err(NotFound(scanId))
    ensures scanId in rows && rows[scanId].status != ScanWaiting ==> r.0 == Err(NotWaiting(scanId, rows[scanId].status))
    ensures r.0.Ok? <==> scanId in rows && rows[scanId].status == ScanWaiting && ApprovalTicketIds(scanId, rows[scanId], edited, now).Ok?
    ensures r.0.Err? ==> r.1 == rows
    ensures r.0.Ok? ==> var ids := ApprovalTicketIds(scanId, rows[scanId], edited, now).value;
      && r.0.value == ApprovalReply(scanId, ids, ScanCompleted)
      && r.1 == rows[scanId := rows[scanId].(userDecision := Some("approved"), jiraTicketIds := ids,
                                             status := ScanCompleted, completedAt := Some(clock))]
  {
    if scanId !in rows then (Err(NotFound(scanId)), rows)
    else if rows[scanId].status != ScanWaiting then (Err(NotWaiting(scanId, rows[scanId].status)), rows)
    else match ApprovalTicketIds(scanId, rows[scanId], edited, now)
      case Err(e) => (Err(e), rows)
      case Ok(ids) =>
        (Ok(ApprovalReply(scanId, ids, ScanCompleted)),
         rows[scanId := rows[scanId].(userDecision := Some("approved"), jiraTicketIds := ids,
                                      status := ScanCompleted, completedAt := Some(clock))])
  }

  /** Approving a scan that waits with drafted issues creates one ticket per
      issue approved (the edited ones when there are any), numbered in
      order. */
  lemma ApprovalNumbersTickets(rows: map<string, ScanRecord>, scanId: string, edited: seq<Object>, now: int, clock: nat)
    requires scanId in rows && rows[scanId].status == ScanWaiting && rows[scanId].remediation.Some?
    ensures var issues := if edited != [] then edited else rows[scanId].remediation.value.issues;
      && (Approve(rows, scanId, edited, now, clock).0.Ok? <==> forall i :: 0 <= i < |issues| ==> Titled(issues[i]))
      && (Approve(rows, scanId, edited, now, clock).0.Ok? ==>
            var ids := Approve(rows, scanId, edited, now, clock).0.value.ticketIds;
            |ids| == |issues| && forall i :: 0 <= i < |issues| ==> ids[i] == TicketId(now, i))
  {
    var issues := if edited != [] then edited else rows[scanId].remediation.value.issues;
    assert IssuesIn(Approved(Restored(scanId, rows[scanId]), edited)) == issues;
    TicketsNumbered(issues, now);
  }

  /** Approval happens at most once: the approved row is `completed`, so a
      second approval is rejected and changes nothing. */
  lemma SecondApprovalRejected(rows: map<string, ScanRecord>, scanId: string, edited: seq<Object>, now: int, clock: nat,
                               edited2: seq<Object>, now2: int, clock2: nat)
    requires Approve(rows, scanId, edited, now, clock).0.Ok?
    ensures var after := Approve(rows, scanId, edited, now, clock).1;
      Approve(after, scanId, edited2, now2, clock2) == (Err(NotWaiting(scanId, ScanCompleted)), after)
  {
  }

  /** `decline_remediation`'s update: no existence or status check; an
      unknown id changes nothing. */
  function Declined(rows: map<string, ScanRecord>, scanId: string, clock: nat): (r: map<string, ScanRecord>)
    ensures r.Keys == rows.Keys
    ensures scanId in rows ==> r[scanId] == rows[scanId].(userDecision := Some("declined"), status := ScanCompleted, completedAt := Some(clock))
    ensures forall id :: id in rows && id != scanId ==> r[id] == rows[id]
  {
    if scanId in rows then
      rows[scanId := rows[scanId].(userDecision := Some("declined"), status := ScanCompleted, completedAt := Some(clock))]
    else rows
  }

  /** A declined scan can no longer be approved. */
  lemma DeclinedNotApprovable(rows: map<string, ScanRecord>, scanId: string, clock: nat, edited: seq<Object>, now: int, clock2: nat)
    requires scanId in rows
    ensures Approve(Declined(rows, scanId, clock), scanId, edited, now, clock2).0 == Err(NotWaiting(scanId, ScanCompleted))
  {
  }

  /** Declining after an approval overwrites the decision but keeps the
      tickets already created. */
  lemma DeclineAfterApproval(rows: map<string, ScanRecord>, scanId: string, edited: seq<Object>, now: int, clock: nat, clock2: nat)
    requires Approve(rows, scanId, edited, now, clock).0.Ok?
    ensures var after := Declined(Approve(rows, scanId, edited, now, clock).1, scanId, clock2);
      && after[scanId].userDecision == Some("declined") && after[scanId].status == ScanCompleted
      && after[scanId].jiraTicketIds == Approve(rows, scanId, edited, now, clock).0.value.ticketIds
  {
  }

  /** The dict `decline_remediation` returns. */
  datatype DeclineReply = DeclineReply(scanId: string, status: string, reason: Option<string>)

  /** `get_scan_logs`'s slice: from `start` on when it is positive (nothing
      past the end), everything otherwise. */
  function ScanLogsFrom<T>(logs: seq<T>, start: int): (r: seq<T>)
    ensures |r| <= |logs| && r == logs[|logs| - |r|..]
    ensures start <= 0 ==> r == logs
    ensures 0 < start ==> |r| == if start < |logs| then |logs| - start else 0
  {
    if start > 0 then (if start < |logs| then logs[start..] else []) else logs
  }

  /** For a non-negative start the slice is what `LRANGE key start -1`
      returns; for a negative one it is everything, where `LRANGE` would
      count from the end. */
  lemma ScanLogsAgainstRange<T>(logs: seq<T>, start: int)
    ensures 0 <= start ==> ScanLogsFrom(logs, start) == ListFrom(logs, start)
    ensures start < 0 && -start < |logs| ==> ScanLogsFrom(logs, start) != ListFrom(logs, start)
  {
    if start < 0 && -start < |logs| {
      assert |ListFrom(logs, start)| == -start;
    }
  }

  /** The `compliance_scans` table. */
  class ComplianceScans {
    var rows: map<string, ScanRecord>

    constructor ()
      ensures rows == map[]
    {
      rows := map[];
    }

    /** `start_compliance_scan` with the fresh id `scanId`: the row is
        inserted `running`, the pipeline runs, and its outcome is saved; a
        pipeline error marks the row `failed` and is raised again. */
    method StartScan(scanId: string, repoId: string, chunk: Object, svc: Services, startedAt: string) returns (r: Result<string>)
      requires scanId !in rows
      modifies this
      ensures var run := Pipeline(scanId, repoId, chunk, svc, startedAt);
        && rows == old(rows)[scanId := StartOutcome(Started(repoId, chunk), run)]
        && r == if run.Ok? then Ok(scanId) else Err(run.error)
    {
      var row := Started(repoId, chunk);
      rows := rows[scanId := row];
      var run := RunPipeline(scanId, repoId, chunk, svc, startedAt);
      r := Finish(scanId, row, run);
    }

    /** The update after the pipeline: its results, or `failed`. */
    method Finish(scanId: string, row: ScanRecord, run: Result<ComplianceState>) returns (r: Result<string>)
      modifies this
      ensures rows == old(rows)[scanId := StartOutcome(row, run)]
      ensures r == if run.Ok? then Ok(scanId) else Err(run.error)
    {
      rows := rows[scanId := StartOutcome(row, run)];
      r := if run.Ok? then Ok(scanId) else Err(run.error);
    }

    /** `approve_remediation`: only a scan waiting for approval is approved;
        its tickets are created and the row completed. `now` is the epoch
        second in the ticket ids, `stamp` the pipeline's completion time,
        `clock` the database's. */
    method ApproveRemediation(scanId: string, edited: seq<Object>, now: int, stamp: string, clock: nat)
      returns (r: Result<ApprovalReply>)
      modifies this
      ensures (r, rows) == Approve(old(rows), scanId, edited, now, clock)
    {
      if scanId !in rows {
        return Err(NotFound(scanId));
      }
      var row := rows[scanId];
      if row.status != ScanWaiting {
        return Err(NotWaiting(scanId, row.status));
      }
      var orchestrator := new ComplianceScanOrchestrator(scanId, row.repoId, map[]);
      var final := orchestrator.ApproveAndCreateTickets(Restored(scanId, row), edited, now, stamp);
      if final.Err? {
        return Err(final.error);
      }
      var ids := final.value.jiraTicketIds;
      rows := rows[scanId := row.(userDecision := Some("approved"), jiraTicketIds := ids,
                                  status := ScanCompleted, completedAt := Some(clock))];
      r := Ok(ApprovalReply(scanId, ids, ScanCompleted));
    }

    /** `decline_remediation`: the reply says `declined` while the row is
        stored `completed`. */
    method DeclineRemediation(scanId: string, reason: Option<string>, clock: nat) returns (r: DeclineReply)
      modifies this
      ensures rows == Declined(old(rows), scanId, clock)
      ensures r == DeclineReply(scanId, "declined", reason)
      ensures scanId in rows ==> rows[scanId].status == ScanCompleted != r.status
    {
      if scanId in rows {
        rows := rows[scanId := rows[scanId].(userDecision := Some("declined"), status := ScanCompleted, completedAt := Some(clock))];
      }
      r := DeclineReply(scanId, "declined", reason);
    }
  }

  /** `get_scan_logs`: the scan's log entries from `start_index` on. */
  method GetScanLogsFrom(queue: JobQueue, scanId: string, start: int, parse: string -> Option<Json>) returns (r: seq<Json>)
    requires queue.asyncRedis == null || queue.asyncRedis == queue.server
    modifies queue
    ensures queue.server.up ==> r == ScanLogsFrom(ReadLogs(queue.server.lists, LogKey(scanId), 0, parse), start)
    ensures !queue.server.up ==> r == []
  {
    var logs := GetScanLogs(queue, scanId, parse);
    r := ScanLogsFrom(logs, start);
  }
}
