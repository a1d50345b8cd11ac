// The human-reviewer assistant: it records a reviewer's decision on a
// violation, finds the data of a finding (a violation, else a scan), and
// asks the LLM to explain a finding or suggest a fix, with fixed answers
// when the reply cannot be read. The LLM's reply and the parsing of it into
// a response are oracles.

module HitlReviewer {
  import opened Common
  import opened Database

  // ------------------------------------------------------------ decisions

  /** The `status_map` lookup with its `"pending"` default. */
  function DecisionStatus(decision: string): (status: string)
    ensures decision == "approve" ==> status == "approved"
    ensures decision == "reject" ==> status == "rejected"
    ensures decision != "approve" && decision != "reject" ==> status == "pending"
  {
    if decision == "approve" then "approved"
    else if decision == "reject" then "rejected"
    else "pending"
  }

  /** Only an approval approves and only a rejection rejects; a request for
      changes, like any other word, leaves the violation pending. */
  lemma DecisionsMapped(decision: string)
    ensures DecisionStatus(decision) == "approved" <==> decision == "approve"
    ensures DecisionStatus(decision) == "rejected" <==> decision == "reject"
    ensures DecisionStatus("request_changes") == "pending"
  {
    assert "approved" != "rejected" && "approved" != "pending" && "rejected" != "pending" by {
      assert "approved"[0] != "rejected"[0] && "approved"[0] != "pending"[0] && "rejected"[0] != "pending"[0];
    }
    assert "request_changes" != "approve" && "request_changes" != "reject" by {
      assert "request_changes"[0] != "approve"[0];
      assert |"request_changes"| != |"reject"|;
    }
  }

  /** The reply of `submit_decision`. */
  datatype DecisionReply = DecisionReply(itemId: nat, decision: string, newStatus: string)

  /** `submit_decision`: the violation (if it exists) takes the mapped
      status, the note and the review time; the reply repeats the decision
      and the status written. */
  method SubmitDecision(table: ViolationTable, itemId: nat, decision: string, note: Option<string>, now: nat)
    returns (r: DecisionReply)
    modifies table
    ensures table.nextId == old(table.nextId)
    ensures itemId in old(table.rows) ==>
      table.rows == old(table.rows)[itemId := old(table.rows)[itemId].(status := DecisionStatus(decision),
                                                                     reviewerNote := note, reviewedAt := Some(now))]
    ensures itemId !in old(table.rows) ==> table.rows == old(table.rows)
    ensures r == DecisionReply(itemId, decision, DecisionStatus(decision))
    ensures itemId in table.rows ==> table.rows[itemId].status == r.newStatus
  {
    var newStatus := DecisionStatus(decision);
    if itemId in table.rows {
      table.rows := table.rows[itemId := table.rows[itemId].(status := newStatus, reviewerNote := note, reviewedAt := Some(now))];
    }
    r := DecisionReply(itemId, decision, newStatus);
  }

  // ------------------------------------------------------------ finding data

  /** What `_get_finding_data` returns: the violation with its repository's
      name, or the scan. */
  datatype FindingData = ViolationFinding(violation: ViolationRow, repoName: string) | ScanFinding(scan: ScanRow)

  /** The violation joined with its scan and its repository; a violation
      whose scan or repository is missing is not found. */
  function JoinedViolation(violations: map<nat, ViolationRow>, scans: map<nat, ScanRow>, repos: map<nat, RepoRow>, id: nat)
    : (r: Option<FindingData>)
    ensures r.Some? <==> id in violations && violations[id].scanId in scans && scans[violations[id].scanId].repoId in repos
    ensures r.Some? ==> r.value == ViolationFinding(violations[id], repos[scans[violations[id].scanId].repoId].fullName)
  {
    if id in violations && violations[id].scanId in scans && scans[violations[id].scanId].repoId in repos then
      Some(ViolationFinding(violations[id], repos[scans[violations[id].scanId].repoId].fullName))
    else None
  }

  /** `_get_finding_data`: the violation when one is asked for and found,
      else the scan when one is asked for and found, else nothing. The
      compliance-result id is not looked up. */
  function FindingDataOf(violations: map<nat, ViolationRow>, scans: map<nat, ScanRow>, repos: map<nat, RepoRow>,
                         resultId: Option<nat>, violationId: Option<nat>, scanId: Option<nat>): (r: Option<FindingData>)
    ensures violationId.Some? && JoinedViolation(violations, scans, repos, violationId.value).Some? ==>
      r == JoinedViolation(violations, scans, repos, violationId.value)
    ensures r.Some? && r.value.ScanFinding? ==>
      && scanId.Some? && scanId.value in scans && r.value.scan == scans[scanId.value]
      && (violationId.None? || JoinedViolation(violations, scans, repos, violationId.value).None?)
    ensures && (violationId.None? || JoinedViolation(violations, scans, repos, violationId.value).None?)
            && scanId.Some? && scanId.value in scans
            ==> r == Some(ScanFinding(scans[scanId.value]))
    ensures r.None? <==>
      && (violationId.None? || JoinedViolation(violations, scans, repos, violationId.value).None?)
      && (scanId.None? || scanId.value !in scans)
  {
    var fromViolation := if violationId.Some? then JoinedViolation(violations, scans, repos, violationId.value) else None;
    if fromViolation.Some? then fromViolation
    else if scanId.Some? && scanId.value in scans then Some(ScanFinding(scans[scanId.value]))
    else None
  }

  /** The result id plays no part: asking with or without it finds the
      same data. */
  lemma ResultIdIgnored(violations: map<nat, ViolationRow>, scans: map<nat, ScanRow>, repos: map<nat, RepoRow>,
                        resultId: Option<nat>, violationId: Option<nat>, scanId: Option<nat>)
    ensures FindingDataOf(violations, scans, repos, resultId, violationId, scanId)
         == FindingDataOf(violations, scans, repos, None, violationId, scanId)
  {
  }

  // ------------------------------------------------------------ LLM answers

  datatype ExplainResponse = ExplainResponse(explanation: string, evidence: seq<string>, relatedRules: seq<string>,
                                             confidence: real)

  datatype FixSuggestion = FixSuggestion(suggestedFix: string, codeSnippet: Option<string>, steps: seq<string>,
                                         rationale: string, confidence: real)

  const ExplanationFallback := ExplainResponse("Unable to generate explanation", [], [], 0.0)

  const FixFallback := FixSuggestion("Unable to generate fix suggestion", None, [], "", 0.0)

  /** `_generate_explanation` after the LLM answered: the reply read as a
      response when it parses and validates, the fixed fallback otherwise. */
  function Explanation(reply: string, read: string -> Option<ExplainResponse>): (r: ExplainResponse)
    ensures read(Strip(reply)).Some? ==> r == read(Strip(reply)).value
    ensures read(Strip(reply)).None? ==> r == ExplanationFallback && r.confidence == 0.0
  {
    match read(Strip(reply))
    case Some(e) => e
    case None => ExplanationFallback
  }

  /** `_generate_fix_suggestion` after the LLM answered. */
  function Suggestion(reply: string, read: string -> Option<FixSuggestion>): (r: FixSuggestion)
    ensures read(Strip(reply)).Some? ==> r == read(Strip(reply)).value
    ensures read(Strip(reply)).None? ==> r == FixFallback && r.confidence == 0.0 && r.codeSnippet.None?
  {
    match read(Strip(reply))
    case Some(f) => f
    case None => FixFallback
  }

  /** `explain_finding`: a ValueError when there is no data; otherwise the
      LLM's answer (a provider failure propagates). `ask` is the LLM's
      reply to the prompt built from the data and the question. */
  function ExplainFinding(violations: map<nat, ViolationRow>, scans: map<nat, ScanRow>, repos: map<nat, RepoRow>,
                          resultId: Option<nat>, violationId: Option<nat>, scanId: Option<nat>, question: string,
                          ask: (FindingData, string) -> Result<string>, read: string -> Option<ExplainResponse>)
    : (r: Result<ExplainResponse>)
    ensures FindingDataOf(violations, scans, repos, resultId, violationId, scanId).None? ==>
      r == Err(ValueError("No finding data found"))
    ensures r.Ok? ==> var data := FindingDataOf(violations, scans, repos, resultId, violationId, scanId);
      data.Some? && ask(data.value, question).Ok? && r.value == Explanation(ask(data.value, question).value, read)
    ensures r.Err? && FindingDataOf(violations, scans, repos, resultId, violationId, scanId).Some? ==>
      var data := FindingDataOf(violations, scans, repos, resultId, violationId, scanId);
      ask(data.value, question).Err? && r.error == ask(data.value, question).error
  {
    match FindingDataOf(violations, scans, repos, resultId, violationId, scanId)
    case None => Err(ValueError("No finding data found"))
    case Some(data) =>
      match ask(data, question)
      case Err(e) => Err(e)
      case Ok(reply) => Ok(Explanation(reply, read))
  }

  /** `suggest_fix`: a ValueError for an unknown violation; otherwise the
      LLM's suggestion, or the fallback when the reply does not read. */
  function SuggestFix(violations: map<nat, ViolationRow>, violationId: nat, context: Option<string>,
                      ask: (ViolationRow, Option<string>) -> Result<string>, read: string -> Option<FixSuggestion>)
    : (r: Result<FixSuggestion>)
    ensures violationId !in violations ==> r.Err? && r.error.ValueError?
    ensures violationId in violations ==>
      match ask(violations[violationId], context)
      case Err(e) => r == Err(e)
      case Ok(reply) => r == Ok(Suggestion(reply, read))
  {
    if violationId !in violations then Err(ValueError("Violation " + NatToString(violationId) + " not found"))
    else
      match ask(violations[violationId], context)
      case Err(e) => Err(e)
      case Ok(reply) => Ok(Suggestion(reply, read))
  }

  /** An unreadable reply never passes for a confident answer. */
  lemma UnreadableRepliesHaveNoConfidence(violations: map<nat, ViolationRow>, violationId: nat, context: Option<string>,
                                          ask: (ViolationRow, Option<string>) -> Result<string>,
                                          read: string -> Option<FixSuggestion>)
    requires violationId in violations && ask(violations[violationId], context).Ok?
    requires read(Strip(ask(violations[violationId], context).value)).None?
    ensures SuggestFix(violations, violationId, context, ask, read) == Ok(FixFallback)
    ensures SuggestFix(violations, violationId, context, ask, read).value.confidence == 0.0
  {
  }
}
