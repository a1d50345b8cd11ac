// The multi-agent compliance pipeline (`langgraph_agents.py`): five agents
// run in a fixed order over one shared scan state. The planner turns the
// regulation chunk into engineering tasks, the navigator finds code for each
// task, the investigator asks the LLM about each match, the judge turns the
// evidence into a verdict, and the Jira bot drafts remediation issues and
// waits for approval. Approval then numbers one ticket per issue.
//
// The scan state is a record that each stage rewrites. The services the
// agents call (the chat completion, `json.loads`, the embedding provider,
// the code-map query and `str()` of a non-string value) are parameters.

module PipelineAgents {
  import opened Common
  import Ordering

  /** A JSON object, as `json.loads` returns it. */
  type Object = map<string, Json>

  /** `x[:n]` of a sequence. */
  function Prefix<T>(xs: seq<T>, n: nat): (r: seq<T>)
    ensures |r| == if n < |xs| then n else |xs|
    ensures r == xs[..|r|]
  {
    if n < |xs| then xs[..n] else xs
  }

  /** The elements of `xs` that satisfy `p`, in order. */
  function Filter<T(!new)>(xs: seq<T>, p: T -> bool): (r: seq<T>)
    ensures |r| <= |xs|
    ensures forall x :: x in r <==> x in xs && p(x)
    decreases |xs|
  {
    if xs == [] then []
    else
      var init := xs[..|xs| - 1];
      var last := xs[|xs| - 1];
      assert forall x :: x in xs <==> x in init || x == last;
      Filter(init, p) + if p(last) then [last] else []
  }

  /** A row of the code-map query: path, text and `1 - distance`. */
  datatype CodeRow = CodeRow(filePath: string, chunkText: string, similarity: real)

  /** The outside services the agents call. */
  datatype Services = Services(
    ask: Prompt -> Result<string>,              // llm_service.generate on PromptText, as one user message
    decode: string -> Option<Json>,             // json.loads; None when it raises
    embed: string -> Result<Vector>,            // embeddings_service.embed_text
    nearest: (Vector, string) -> seq<CodeRow>,  // a repository's code chunks, nearest first
    render: Json -> string)                     // str() of a value that is not a string

  /** The two prompts the agents send, by the values filled into their
      templates. */
  datatype Prompt =
    | PlanRequest(section: string, text: string, ruleId: string)
    | ReviewRequest(task: string, path: string, snippet: string)

  const PlannerHead: string := "You are a compliance expert analyzing a regulatory requirement.\n\nRegulation Section: "
  const PlannerText: string := "\nRegulation Text: "
  const PlannerTasks: string :=
    "\n\nYour task:\n1. Identify the core compliance intent\n2. Extract key compliance dimensions\n"
    + "3. Convert this into specific engineering tasks\n\nRespond with JSON:\n{\n    \"rule_id\": \""
  const PlannerTail: string :=
    "\",\n    \"intent\": \"Brief summary of what the rule requires\",\n"
    + "    \"compliance_dimensions\": [\"dimension1\", \"dimension2\"],\n"
    + "    \"tasks\": [\"Specific task 1\", \"Specific task 2\"]\n}\n"

  const InvestigatorHead: string := "Analyze if this code implements the required compliance control.\n\nTask: "
  const InvestigatorCode: string := "\nCode from "
  const InvestigatorBlock: string := ":\n```\n"
  const InvestigatorJson: string := "\n```\n\nRespond with JSON:\n{\n    \"file\": \""
  const InvestigatorTail: string :=
    "\",\n    \"status\": \"implemented\" | \"partial\" | \"missing\",\n"
    + "    \"finding\": \"Brief explanation\",\n    \"confidence\": 0.0-1.0\n}\n"

  /** The text of a prompt: its template with the values filled in. */
  function PromptText(p: Prompt): (t: string)
    ensures p.PlanRequest? ==> StartsWith(t, PlannerHead)
    ensures p.ReviewRequest? ==> StartsWith(t, InvestigatorHead)
  {
    match p
    case PlanRequest(section, text, ruleId) =>
      PlannerHead + section + PlannerText + text + PlannerTasks + ruleId + PlannerTail
    case ReviewRequest(task, path, snippet) =>
      InvestigatorHead + task + InvestigatorCode + path + InvestigatorBlock + snippet + InvestigatorJson + path
      + InvestigatorTail
  }

  /** A value formatted into an f-string. */
  function Show(j: Json, render: Json -> string): string {
    if j.JStr? then j.s else render(j)
  }

  // ---------------------------------------------------------------- state

  /** A code location the navigator matched to a task. */
  datatype Match = Match(path: string, confidence: real, task: string, snippet: string)

  datatype MatchedFiles = MatchedFiles(matched: seq<Match>, noMatch: seq<string>)

  datatype Investigation = Investigation(status: string, evidence: seq<Object>)

  datatype FinalVerdict = FinalVerdict(verdict: string, confidence: real, reason: string, evidenceCount: nat)

  datatype Remediation = Remediation(issues: seq<Object>, requiresUserApproval: bool)

  /** The five agents, by their `agent_type`. */
  datatype Agent = Planner | Navigator | Investigator | Checker | JiraBot

  function AgentName(a: Agent): string {
    match a
    case Planner => "PLANNER"
    case Navigator => "NAVIGATOR"
    case Investigator => "INVESTIGATOR"
    case Checker => "JUDGE"
    case JiraBot => "JIRA"
  }

  /** `ComplianceState`: the record the stages pass along. */
  datatype ComplianceState = ComplianceState(
    scanId: string,
    repoId: string,
    regulationChunk: Object,
    rulePlan: Option<Object>,
    matchedFiles: Option<MatchedFiles>,
    investigation: Option<Investigation>,
    finalVerdict: Option<FinalVerdict>,
    remediation: Option<Remediation>,
    requiresApproval: bool,
    userDecision: Option<string>,
    jiraTicketIds: seq<string>,
    startedAt: string,
    completedAt: Option<string>,
    currentAgent: Option<Agent>)

  /** The state `run_scan` starts from. */
  function Initial(scanId: string, repoId: string, chunk: Object, startedAt: string): (st: ComplianceState)
    ensures st.rulePlan.None? && st.matchedFiles.None? && st.investigation.None? && st.finalVerdict.None?
    ensures st.remediation.None? && !st.requiresApproval && st.userDecision.None? && st.jiraTicketIds == []
    ensures st.completedAt.None? && st.currentAgent.None?
  {
    ComplianceState(scanId, repoId, chunk, None, None, None, None, None, false, None, [], startedAt, None, None)
  }

  // ---------------------------------------------------------------- planner

  /** The plan used when the reply is not JSON. */
  function FallbackPlan(ruleId: Json): Object {
    map["rule_id" := ruleId, "intent" := JStr("Validate compliance"),
        "compliance_dimensions" := JList([JStr("general")]), "tasks" := JList([JStr("Check implementation")])]
  }

  /** `len()` applies to the value. */
  predicate Sized(j: Json) {
    j.JStr? || j.JList? || j.JObject?
  }

  /** The plan of a decoded reply: an undecodable reply gives the fallback
      plan, a value that is not an object fails at `plan.get`, and a `tasks`
      entry without a length fails at `len`. */
  function PlanOf(decoded: Option<Json>, ruleId: Json): (r: Result<Object>)
    ensures decoded.None? ==> r == Ok(FallbackPlan(ruleId))
    ensures decoded.Some? && !decoded.value.JObject? ==> r.Err? && r.error.AttributeError?
    ensures decoded.Some? && decoded.value.JObject? ==>
      && (r.Ok? <==> ("tasks" !in decoded.value.fields || Sized(decoded.value.fields["tasks"])))
      && (r.Ok? ==> r.value == decoded.value.fields)
      && (r.Err? ==> r.error.TypeError?)
  {
    match decoded
    case None => Ok(FallbackPlan(ruleId))
    case Some(JObject(plan)) =>
      if "tasks" in plan && !Sized(plan["tasks"]) then Err(TypeError("len()")) else Ok(plan)
    case Some(_) => Err(AttributeError("get"))
  }

  /** `RulePlannerAgent.execute`: only the plan and the current agent change. */
  function PlanStage(st: ComplianceState, svc: Services): (r: Result<ComplianceState>)
    ensures r.Ok? ==> r.value.rulePlan.Some? && r.value == st.(rulePlan := r.value.rulePlan, currentAgent := Some(Planner))
    ensures r.Ok? <==> svc.ask(PlannerPromptOf(st.regulationChunk, svc.render)).Ok?
                       && PlanOf(svc.decode(Strip(svc.ask(PlannerPromptOf(st.regulationChunk, svc.render)).value)),
                                 Get(st.regulationChunk, "rule_id", JStr("UNKNOWN"))).Ok?
  {
    var ruleId := Get(st.regulationChunk, "rule_id", JStr("UNKNOWN"));
    match svc.ask(PlannerPromptOf(st.regulationChunk, svc.render))
    case Err(e) => Err(e)
    case Ok(reply) =>
      match PlanOf(svc.decode(Strip(reply)), ruleId)
      case Err(e) => Err(e)
      case Ok(plan) => Ok(st.(rulePlan := Some(plan), currentAgent := Some(Planner)))
  }

  /** The planner's prompt for a regulation chunk. */
  function PlannerPromptOf(chunk: Object, render: Json -> string): Prompt {
    PlanRequest(Show(Get(chunk, "rule_section", JStr("")), render), Show(Get(chunk, "chunk_text", JStr("")), render),
                  Show(Get(chunk, "rule_id", JStr("UNKNOWN")), render))
  }

  // ---------------------------------------------------------------- navigator

  /** Rows above this similarity are matches. */
  const Threshold: real := 0.7
  /** `LIMIT 5` of the code-map query. */
  const NavigatorLimit: nat := 5
  /** `chunk_text[:200]` */
  const SnippetLength: nat := 200

  /** The one-character strings of `s`, as iterating a string gives them. */
  function Chars(s: string): (r: seq<string>)
    ensures |r| == |s| && forall i :: 0 <= i < |s| ==> r[i] == [s[i]]
  {
    seq(|s|, i requires 0 <= i < |s| => [s[i]])
  }

  predicate AllStrings(items: seq<Json>) {
    forall i :: 0 <= i < |items| ==> items[i].JStr?
  }

  function Strings(items: seq<Json>): (r: seq<string>)
    requires AllStrings(items)
    ensures |r| == |items| && forall i :: 0 <= i < |items| ==> r[i] == items[i].s
  {
    seq(|items|, i requires 0 <= i < |items| && AllStrings(items) => items[i].s)
  }

  /** The tasks the navigator iterates over: none without a plan entry, the
      strings of a list of strings, the characters of a string, the keys of
      an object (each once; the model takes them in code-point order). A
      list holding a non-string, a number, a boolean or null fails with a
      TypeError. */
  function TasksOf(plan: Object): (r: Result<seq<string>>)
    ensures "tasks" !in plan ==> r == Ok([])
    ensures "tasks" in plan && plan["tasks"].JList? && AllStrings(plan["tasks"].items) ==>
      r == Ok(Strings(plan["tasks"].items))
    ensures "tasks" in plan && plan["tasks"].JStr? ==> r == Ok(Chars(plan["tasks"].s))
    ensures "tasks" in plan && plan["tasks"].JObject? ==>
      && r.Ok? && (forall k :: k in plan["tasks"].fields <==> k in r.value)
      && Ordering.Distinct(r.value)
    ensures r.Err? <==> "tasks" in plan && !plan["tasks"].JStr? && !plan["tasks"].JObject?
                        && !(plan["tasks"].JList? && AllStrings(plan["tasks"].items))
    ensures r.Err? ==> r.error.TypeError?
  {
    if "tasks" !in plan then Ok([])
    else match plan["tasks"]
      case JList(items) => if AllStrings(items) then Ok(Strings(items)) else Err(TypeError("str"))
      case JStr(s) => Ok(Chars(s))
      case JObject(fields) =>
        var keys := Ordering.SortedStrings(fields.Keys);
        Ordering.IncreasingDistinct(keys);
        Ok(keys)
      case _ => Err(TypeError("iter()"))
  }

  /** The plan runs only the fallback plan's single task. */
  lemma FallbackPlanTask(ruleId: Json)
    ensures TasksOf(FallbackPlan(ruleId)) == Ok(["Check implementation"])
  {
    var items := FallbackPlan(ruleId)["tasks"].items;
    assert items == [JStr("Check implementation")];
    assert Strings(items) == ["Check implementation"];
  }

  function MatchOf(row: CodeRow, task: string): Match {
    Match(row.filePath, row.similarity, task, Take(row.chunkText, SnippetLength))
  }

  /** The matches a task's rows give: exactly the rows above the threshold. */
  function Above(rows: seq<CodeRow>, task: string): (ms: seq<Match>)
    ensures |ms| <= |rows|
    ensures forall i :: 0 <= i < |ms| ==> ms[i].confidence > Threshold && ms[i].task == task
    ensures forall m :: m in ms <==> exists row :: row in rows && row.similarity > Threshold && m == MatchOf(row, task)
    decreases |rows|
  {
    if rows == [] then []
    else
      var row := rows[|rows| - 1];
      var init := rows[..|rows| - 1];
      assert forall x :: x in rows <==> x in init || x == row;
      Above(init, task) + (if row.similarity > Threshold then [MatchOf(row, task)] else [])
  }

  /** The code-map rows for a task's embedding. */
  function Nearest(svc: Services, v: Vector, repoId: string): seq<CodeRow> {
    Prefix(svc.nearest(v, repoId), NavigatorLimit)
  }

  /** One task of the navigator: a query without rows records the task as
      unmatched, otherwise the rows above the threshold are matches. */
  function NavigateTask(acc: MatchedFiles, task: string, svc: Services, repoId: string): Result<MatchedFiles> {
    match svc.embed(task)
    case Err(e) => Err(e)
    case Ok(v) =>
      var rows := Nearest(svc, v, repoId);
      if rows == [] then Ok(acc.(noMatch := acc.noMatch + [task]))
      else Ok(acc.(matched := acc.matched + Above(rows, task)))
  }

  function NavigateStep(svc: Services, repoId: string): (MatchedFiles, string) -> Result<MatchedFiles> {
    (acc, task) => NavigateTask(acc, task, svc, repoId)
  }

  /** The navigator's loop over the tasks. */
  function Navigation(tasks: seq<string>, svc: Services, repoId: string): Result<MatchedFiles> {
    Fold(tasks, MatchedFiles([], []), NavigateStep(svc, repoId))
  }

  /** The query for the task returned no rows at all. */
  predicate Unqueried(svc: Services, repoId: string, task: string) {
    svc.embed(task).Ok? && Nearest(svc, svc.embed(task).value, repoId) == []
  }

  /** A task is unmatched exactly when its query returned no rows, not when
      all its rows fell below the threshold; every match is above the
      threshold and belongs to a task. The loop fails exactly when an
      embedding does. */
  lemma {:induction false} NavigationExact(tasks: seq<string>, svc: Services, repoId: string)
    ensures Navigation(tasks, svc, repoId).Ok? <==> forall i :: 0 <= i < |tasks| ==> svc.embed(tasks[i]).Ok?
    ensures Navigation(tasks, svc, repoId).Ok? ==>
      var r := Navigation(tasks, svc, repoId).value;
      && (forall t :: t in r.noMatch <==> t in tasks && Unqueried(svc, repoId, t))
      && (forall m :: m in r.matched ==> m.confidence > Threshold && m.task in tasks && !Unqueried(svc, repoId, m.task))
    decreases |tasks|
  {
    if tasks != [] {
      var init := tasks[..|tasks| - 1];
      var task := tasks[|tasks| - 1];
      NavigationExact(init, svc, repoId);
      assert tasks == init + [task];
      var prev := Navigation(init, svc, repoId);
      assert Navigation(tasks, svc, repoId) == if prev.Err? then prev else NavigateTask(prev.value, task, svc, repoId);
      if prev.Err? {
        var i :| 0 <= i < |init| && svc.embed(init[i]).Err?;
        assert tasks[i] == init[i];
      } else if svc.embed(task).Err? {
        assert svc.embed(tasks[|tasks| - 1]).Err?;
      } else {
        NavigationStepExact(init, task, prev.value, svc, repoId);
      }
    }
  }

  /** The inductive step of `NavigationExact`, for a task whose embedding
      succeeds after tasks that all succeeded. */
  lemma NavigationStepExact(init: seq<string>, task: string, acc: MatchedFiles, svc: Services, repoId: string)
    requires svc.embed(task).Ok? && forall i :: 0 <= i < |init| ==> svc.embed(init[i]).Ok?
    requires forall t :: t in acc.noMatch <==> t in init && Unqueried(svc, repoId, t)
    requires forall m :: m in acc.matched ==> m.confidence > Threshold && m.task in init && !Unqueried(svc, repoId, m.task)
    ensures var tasks := init + [task];
      && (forall i :: 0 <= i < |tasks| ==> svc.embed(tasks[i]).Ok?)
      && NavigateTask(acc, task, svc, repoId).Ok?
      && var r := NavigateTask(acc, task, svc, repoId).value;
      && (forall t :: t in r.noMatch <==> t in tasks && Unqueried(svc, repoId, t))
      && (forall m :: m in r.matched ==> m.confidence > Threshold && m.task in tasks && !Unqueried(svc, repoId, m.task))
  {
    var tasks := init + [task];
    assert forall t :: t in tasks <==> t in init || t == task;
    forall i | 0 <= i < |tasks|
      ensures svc.embed(tasks[i]).Ok?
    {
      if i < |init| {
        assert tasks[i] == init[i];
      }
    }
    var rows := Nearest(svc, svc.embed(task).value, repoId);
    var r := NavigateTask(acc, task, svc, repoId).value;
    if rows == [] {
      assert r == acc.(noMatch := acc.noMatch + [task]);
      assert Unqueried(svc, repoId, task);
    } else {
      assert r == acc.(matched := acc.matched + Above(rows, task));
      assert !Unqueried(svc, repoId, task);
      forall m | m in r.matched
        ensures m.confidence > Threshold && m.task in tasks && !Unqueried(svc, repoId, m.task)
      {
        if m !in acc.matched {
          assert m in Above(rows, task);
          var k :| 0 <= k < |Above(rows, task)| && Above(rows, task)[k] == m;
        }
      }
    }
  }

  /** The navigator's loop. */
  method Navigate(tasks: seq<string>, svc: Services, repoId: string) returns (r: Result<MatchedFiles>)
    ensures r == Navigation(tasks, svc, repoId)
  {
    var matched: seq<Match> := [];
    var noMatch: seq<string> := [];
    for i := 0 to |tasks|
      invariant Fold(tasks[..i], MatchedFiles([], []), NavigateStep(svc, repoId)) == Ok(MatchedFiles(matched, noMatch))
    {
      FoldNext(tasks, i, MatchedFiles([], []), NavigateStep(svc, repoId));
      var v := svc.embed(tasks[i]);
      if v.Err? {
        FoldStop(tasks, i + 1, MatchedFiles([], []), NavigateStep(svc, repoId));
        return Err(v.error);
      }
      var rows := Nearest(svc, v.value, repoId);
      if rows == [] {
        noMatch := noMatch + [tasks[i]];
      } else {
        var found := KeepAbove(rows, tasks[i]);
        matched := matched + found;
      }
    }
    assert tasks[..|tasks|] == tasks;
    r := Ok(MatchedFiles(matched, noMatch));
  }

  /** The loop over one task's rows. */
  method KeepAbove(rows: seq<CodeRow>, task: string) returns (ms: seq<Match>)
    ensures ms == Above(rows, task)
  {
    ms := [];
    for j := 0 to |rows|
      invariant ms == Above(rows[..j], task)
    {
      assert rows[..j + 1][..j] == rows[..j];
      if rows[j].similarity > Threshold {
        ms := ms + [MatchOf(rows[j], task)];
      }
    }
    assert rows[..|rows|] == rows;
  }

  /** `CodeNavigatorAgent.execute`: only the matches and the current agent
      change. */
  method NavigateStage(st: ComplianceState, svc: Services) returns (r: Result<ComplianceState>)
    ensures r == NavigatorStage(st, svc)
  {
    var tasks := TasksOf(if st.rulePlan.Some? then st.rulePlan.value else map[]);
    if tasks.Err? {
      return Err(tasks.error);
    }
    var found := Navigate(tasks.value, svc, st.repoId);
    if found.Err? {
      return Err(found.error);
    }
    r := Ok(st.(matchedFiles := Some(found.value), currentAgent := Some(Navigator)));
  }

  function NavigatorStage(st: ComplianceState, svc: Services): (r: Result<ComplianceState>)
    ensures r.Ok? ==> r.value.matchedFiles.Some? && r.value == st.(matchedFiles := r.value.matchedFiles, currentAgent := Some(Navigator))
  {
    match TasksOf(if st.rulePlan.Some? then st.rulePlan.value else map[])
    case Err(e) => Err(e)
    case Ok(tasks) =>
      match Navigation(tasks, svc, st.repoId)
      case Err(e) => Err(e)
      case Ok(found) => Ok(st.(matchedFiles := Some(found), currentAgent := Some(Navigator)))
  }

  // ---------------------------------------------------------------- investigator

  /** `matched_files[:10]` */
  const InvestigatedMatches: nat := 10

  /** The investigator's prompt for a match. */
  function InvestigatorPrompt(m: Match): Prompt {
    ReviewRequest(m.task, m.path, m.snippet)
  }

  /** The evidence recorded for a reply that is not JSON. */
  function Unanalyzed(path: string): Object {
    map["file" := JStr(path), "status" := JStr("unknown"), "finding" := JStr("Could not analyze"),
        "confidence" := JNum(0.0)]
  }

  function EvidenceOf(m: Match, decoded: Option<Json>): Json {
    if decoded.Some? then decoded.value else JObject(Unanalyzed(m.path))
  }

  /** The evidence of one match, from the reply to its prompt. */
  function Examine(m: Match, svc: Services): Result<Json> {
    match svc.ask(InvestigatorPrompt(m))
    case Err(e) => Err(e)
    case Ok(reply) => Ok(EvidenceOf(m, svc.decode(Strip(reply))))
  }

  function ExamineStep(svc: Services): (seq<Json>, Match) -> Result<seq<Json>> {
    (acc, m) => match Examine(m, svc) case Err(e) => Err(e) case Ok(e) => Ok(acc + [e])
  }

  /** The investigator's loop over the matches. */
  function Evidence(matches: seq<Match>, svc: Services): Result<seq<Json>> {
    Fold(matches, [], ExamineStep(svc))
  }

  /** The loop yields one piece of evidence per match, in order, each being
      the match's own: a decoded reply as it is, or the `unknown` record with
      confidence 0.0 for a reply that is not JSON. It fails exactly when a
      completion does. */
  lemma {:induction false} EvidencePointwise(matches: seq<Match>, svc: Services)
    ensures Evidence(matches, svc).Ok? <==> forall i :: 0 <= i < |matches| ==> Examine(matches[i], svc).Ok?
    ensures Evidence(matches, svc).Ok? ==>
      var ev := Evidence(matches, svc).value;
      |ev| == |matches| && forall i :: 0 <= i < |matches| ==> ev[i] == Examine(matches[i], svc).value
    decreases |matches|
  {
    if matches != [] {
      var init := matches[..|matches| - 1];
      EvidencePointwise(init, svc);
      assert forall i :: 0 <= i < |init| ==> init[i] == matches[i];
    }
  }

  /** An undecodable reply becomes status `unknown` with confidence 0.0 at the
      match's path. */
  lemma UndecodableIsUnknown(m: Match, svc: Services)
    requires svc.ask(InvestigatorPrompt(m)).Ok? && svc.decode(Strip(svc.ask(InvestigatorPrompt(m)).value)).None?
    ensures Examine(m, svc) == Ok(JObject(Unanalyzed(m.path)))
    ensures StatusOf(Unanalyzed(m.path)) == JStr("unknown") && Unanalyzed(m.path)["confidence"] == JNum(0.0)
  {
  }

  /** The evidence loop. */
  method Examined(matches: seq<Match>, svc: Services) returns (r: Result<seq<Json>>)
    ensures r == Evidence(matches, svc)
  {
    var evidence: seq<Json> := [];
    for i := 0 to |matches|
      invariant Fold(matches[..i], [], ExamineStep(svc)) == Ok(evidence)
    {
      FoldNext(matches, i, [], ExamineStep(svc));
      var e := Examine(matches[i], svc);
      if e.Err? {
        FoldStop(matches, i + 1, [], ExamineStep(svc));
        return Err(e.error);
      }
      evidence := evidence + [e.value];
    }
    assert matches[..|matches|] == matches;
    r := Ok(evidence);
  }

  /** `e.get("status")` */
  function StatusOf(e: Object): Json {
    Get(e, "status", JNull)
  }

  predicate AllImplemented(evidence: seq<Object>) {
    forall i :: 0 <= i < |evidence| ==> StatusOf(evidence[i]) == JStr("implemented")
  }

  predicate AnyMissing(evidence: seq<Object>) {
    exists i :: 0 <= i < |evidence| && StatusOf(evidence[i]) == JStr("missing")
  }

  /** The overall status: compliant when every status is `implemented` (so
      also when there is no evidence), otherwise non-compliant when some
      status is `missing`, otherwise partial. */
  function OverallStatus(evidence: seq<Object>): (s: string)
    ensures s == "compliant" <==> AllImplemented(evidence)
    ensures s == "non_compliant" <==> !AllImplemented(evidence) && AnyMissing(evidence)
    ensures s == "partial" <==> !AllImplemented(evidence) && !AnyMissing(evidence)
    ensures evidence == [] ==> s == "compliant"
  {
    if AllImplemented(evidence) then "compliant"
    else if AnyMissing(evidence) then "non_compliant"
    else "partial"
  }

  /** The evidence as objects; `e.get` fails on anything else. */
  function Objects(evidence: seq<Json>): (r: Result<seq<Object>>)
    ensures r.Ok? <==> forall i :: 0 <= i < |evidence| ==> evidence[i].JObject?
    ensures r.Ok? ==> |r.value| == |evidence| && forall i :: 0 <= i < |evidence| ==> r.value[i] == evidence[i].fields
    ensures r.Err? ==> r.error.AttributeError?
  {
    if forall i :: 0 <= i < |evidence| ==> evidence[i].JObject? then
      Ok(seq(|evidence|, i requires 0 <= i < |evidence| && evidence[i].JObject? => evidence[i].fields))
    else Err(AttributeError("get"))
  }

  function MatchesIn(st: ComplianceState): seq<Match> {
    if st.matchedFiles.Some? then st.matchedFiles.value.matched else []
  }

  /** `CodeInvestigatorAgent.execute`: the first ten matches are examined and
      only the investigation and the current agent change. */
  function InvestigatorStage(st: ComplianceState, svc: Services): (r: Result<ComplianceState>)
    ensures r.Ok? ==> r.value == st.(investigation := r.value.investigation, currentAgent := Some(Investigator))
    ensures r.Ok? ==> r.value.investigation.Some? && r.value.investigation.value.status == OverallStatus(r.value.investigation.value.evidence)
    ensures r.Ok? ==> |r.value.investigation.value.evidence| == |Prefix(MatchesIn(st), InvestigatedMatches)|
  {
    match Evidence(Prefix(MatchesIn(st), InvestigatedMatches), svc)
    case Err(e) => Err(e)
    case Ok(evidence) =>
      EvidencePointwise(Prefix(MatchesIn(st), InvestigatedMatches), svc);
      match Objects(evidence)
      case Err(e) => Err(e)
      case Ok(objects) =>
        Ok(st.(investigation := Some(Investigation(OverallStatus(objects), objects)), currentAgent := Some(Investigator)))
  }

  method InvestigateStage(st: ComplianceState, svc: Services) returns (r: Result<ComplianceState>)
    ensures r == InvestigatorStage(st, svc)
  {
    var evidence := Examined(Prefix(MatchesIn(st), InvestigatedMatches), svc);
    if evidence.Err? {
      return Err(evidence.error);
    }
    var objects := Objects(evidence.value);
    if objects.Err? {
      return Err(objects.error);
    }
    r := Ok(st.(investigation := Some(Investigation(OverallStatus(objects.value), objects.value)),
                currentAgent := Some(Investigator)));
  }

  // ---------------------------------------------------------------- judge

  /** `e.get("confidence", 0.5)` as a number for `sum`; booleans count as 1
      and 0, anything else makes `sum` fail. */
  function ConfidenceOf(e: Object): Option<real> {
    if "confidence" !in e then Some(0.5)
    else match e["confidence"]
      case JNum(n) => Some(n)
      case JBool(b) => Some(if b then 1.0 else 0.0)
      case _ => None
  }

  function Confidences(evidence: seq<Object>): (r: Option<seq<real>>)
    ensures r.Some? <==> forall i :: 0 <= i < |evidence| ==> ConfidenceOf(evidence[i]).Some?
    ensures r.Some? ==> |r.value| == |evidence| && forall i :: 0 <= i < |evidence| ==> r.value[i] == ConfidenceOf(evidence[i]).value
  {
    if forall i :: 0 <= i < |evidence| ==> ConfidenceOf(evidence[i]).Some? then
      Some(seq(|evidence|, i requires 0 <= i < |evidence| && ConfidenceOf(evidence[i]).Some? => ConfidenceOf(evidence[i]).value))
    else None
  }

  function Sum(xs: seq<real>): real {
    if xs == [] then 0.0 else Sum(xs[..|xs| - 1]) + xs[|xs| - 1]
  }

  /** The average confidence, 0.5 without evidence. */
  function Mean(xs: seq<real>): real {
    if xs == [] then 0.5 else Sum(xs) / (|xs| as real)
  }

  predicate IsMissing(e: Object) {
    StatusOf(e) == JStr("missing")
  }

  /** `[e["finding"] for e in evidence if e.get("status") == "missing"]`: the
      findings of the missing items in order; a missing item without a
      finding is a KeyError. */
  function MissingFindings(evidence: seq<Object>): (r: Result<seq<Json>>)
    ensures var missing := Filter(evidence, IsMissing);
      && (r.Ok? <==> forall i :: 0 <= i < |missing| ==> "finding" in missing[i])
      && (r.Ok? ==> |r.value| == |missing| && forall i :: 0 <= i < |missing| ==> r.value[i] == missing[i]["finding"])
    ensures r.Err? ==> r.error.KeyError?
    decreases |evidence|
  {
    if evidence == [] then Ok([])
    else
      var init := evidence[..|evidence| - 1];
      var e := evidence[|evidence| - 1];
      assert Filter(evidence, IsMissing) == Filter(init, IsMissing) + if IsMissing(e) then [e] else [];
      assert forall i :: 0 <= i < |Filter(init, IsMissing)| ==> Filter(evidence, IsMissing)[i] == Filter(init, IsMissing)[i];
      match MissingFindings(init)
      case Err(err) => Err(err)
      case Ok(found) =>
        if !IsMissing(e) then Ok(found)
        else if "finding" !in e then Err(KeyError("finding"))
        else Ok(found + [e["finding"]])
  }

  /** Reasons quote at most this many missing findings. */
  const QuotedFindings: nat := 3

  const MissingControls: string := "Missing controls: "

  /** `"Missing controls: " + "; ".join(missing_items[:3])`; joining a value
      that is not a string is a TypeError. */
  function MissingReason(findings: seq<Json>): (r: Result<string>)
    ensures r.Ok? <==> AllStrings(Prefix(findings, QuotedFindings))
    ensures r.Ok? ==> r.value == MissingControls + Join(Strings(Prefix(findings, QuotedFindings)), "; ")
    ensures r.Err? ==> r.error.TypeError?
  {
    var quoted := Prefix(findings, QuotedFindings);
    if AllStrings(quoted) then Ok(MissingControls + Join(Strings(quoted), "; "))
    else Err(TypeError("join"))
  }

  /** Only the first three missing findings reach the reason. */
  lemma ReasonQuotesThree(findings: seq<Json>, more: seq<Json>)
    requires |findings| >= QuotedFindings
    ensures MissingReason(findings + more) == MissingReason(findings)
  {
    assert Prefix(findings + more, QuotedFindings) == Prefix(findings, QuotedFindings);
  }

  /** `ConsistencyCheckerAgent.execute`'s decision: compliant and
      non-compliant carry over, anything else is partial, and the count is
      the number of evidence items. */
  function Judge(status: string, evidence: seq<Object>): (r: Result<FinalVerdict>)
    ensures r.Ok? ==> r.value.evidenceCount == |evidence|
    ensures r.Ok? ==> (r.value.verdict == "compliant" <==> status == "compliant")
    ensures r.Ok? ==> (r.value.verdict == "non_compliant" <==> status == "non_compliant")
    ensures r.Ok? ==> (r.value.verdict == "partial" <==> status != "compliant" && status != "non_compliant")
    ensures r.Ok? ==> Confidences(evidence).Some? && r.value.confidence == Mean(Confidences(evidence).value)
    ensures r.Ok? && status == "non_compliant" ==>
      MissingFindings(evidence).Ok? && Ok(r.value.reason) == MissingReason(MissingFindings(evidence).value)
    ensures r.Err? <==> Confidences(evidence).None?
                        || (status == "non_compliant" && (MissingFindings(evidence).Err? || MissingReason(MissingFindings(evidence).value).Err?))
  {
    match Confidences(evidence)
    case None => Err(TypeError("+"))
    case Some(confidences) =>
      var mean := Mean(confidences);
      if status == "compliant" then
        Ok(FinalVerdict("compliant", mean, "All compliance controls properly implemented", |evidence|))
      else if status == "non_compliant" then
        match MissingFindings(evidence)
        case Err(e) => Err(e)
        case Ok(missing) =>
          match MissingReason(missing)
          case Err(e) => Err(e)
          case Ok(reason) => Ok(FinalVerdict("non_compliant", mean, reason, |evidence|))
      else Ok(FinalVerdict("partial", mean, "Implementation incomplete", |evidence|))
  }

  /** The checker stage: a missing investigation reads as status `unknown`
      with no evidence. */
  function CheckerStage(st: ComplianceState): (r: Result<ComplianceState>)
    ensures r.Ok? ==> r.value.finalVerdict.Some? && r.value == st.(finalVerdict := r.value.finalVerdict, currentAgent := Some(Checker))
  {
    var status := if st.investigation.Some? then st.investigation.value.status else "unknown";
    var evidence := if st.investigation.Some? then st.investigation.value.evidence else [];
    match Judge(status, evidence)
    case Err(e) => Err(e)
    case Ok(verdict) => Ok(st.(finalVerdict := Some(verdict), currentAgent := Some(Checker)))
  }

  // ---------------------------------------------------------------- jira

  /** Remediation is drafted for these final verdicts. */
  predicate Remediable(v: Option<FinalVerdict>) {
    v.Some? && (v.value.verdict == "non_compliant" || v.value.verdict == "partial")
  }

  /** An evidence item gets an issue when its status is missing or partial. */
  predicate NeedsIssue(item: Object) {
    StatusOf(item) == JStr("missing") || StatusOf(item) == JStr("partial")
  }

  /** `str(x[:n])`: strings and lists slice, other values are a TypeError. */
  function Sliced(j: Json, n: nat, render: Json -> string): (r: Result<string>)
    ensures r.Ok? <==> j.JStr? || j.JList?
    ensures j.JStr? ==> r == Ok(Take(j.s, n))
    ensures r.Err? ==> r.error.TypeError?
  {
    match j
    case JStr(s) => Ok(Take(s, n))
    case JList(items) => Ok(render(JList(Prefix(items, n))))
    case _ => Err(TypeError("[]"))
  }

  /** `f"Fix: {finding[:80]}"` */
  const TitleLength: nat := 80
  const FixPrefix: string := "Fix: "

  const DefaultFinding: string := "Compliance issue"
  const RegulationLine: string := "**Regulation**: "
  const IntentLine: string := "\n**Intent**: "
  const IssueLine: string := "\n**Issue**: "
  const FileLine: string := "\n**File**: "
  const ActionLine: string := "\n**Action**: Implement missing compliance control"

  function Description(item: Object, plan: Object, render: Json -> string): string {
    RegulationLine + Show(Get(plan, "rule_id", JStr("N/A")), render)
    + IntentLine + Show(Get(plan, "intent", JStr("N/A")), render)
    + IssueLine + Show(Get(item, "finding", JStr("Compliance gap")), render)
    + FileLine + Show(Get(item, "file", JStr("N/A")), render)
    + ActionLine
  }

  /** An issue dictionary. */
  function IssueRecord(title: string, description: string, file: Json, priority: string): (o: Object)
    ensures "title" in o && "description" in o && "file" in o && "priority" in o
    ensures o["title"] == JStr(title) && o["file"] == file && o["priority"] == JStr(priority)
  {
    map["title" := JStr(title), "description" := JStr(description), "file" := file, "priority" := JStr(priority)]
  }

  /** The finding a title quotes. */
  function TitleFinding(item: Object): Json {
    Get(item, "finding", JStr(DefaultFinding))
  }

  /** The issue drafted for an evidence item: its title is `Fix: ` and the
      first 80 characters of the finding, its priority high for a missing
      control and medium otherwise. */
  function IssueOf(item: Object, plan: Object, render: Json -> string): (r: Result<Object>)
    ensures r.Ok? <==> Sliced(TitleFinding(item), TitleLength, render).Ok?
    ensures r.Ok? ==> "title" in r.value && "description" in r.value && "file" in r.value && "priority" in r.value
    ensures r.Ok? ==> r.value["title"] == JStr(FixPrefix + Sliced(TitleFinding(item), TitleLength, render).value)
    ensures r.Ok? ==> r.value["priority"] == JStr(if IsMissing(item) then "high" else "medium")
    ensures r.Ok? ==> r.value["file"] == Get(item, "file", JStr(""))
  {
    match Sliced(TitleFinding(item), TitleLength, render)
    case Err(e) => Err(e)
    case Ok(finding) =>
      Ok(IssueRecord(FixPrefix + finding, Description(item, plan, render), Get(item, "file", JStr("")),
                     if IsMissing(item) then "high" else "medium"))
  }

  /** An item without a finding gets the title `Fix: Compliance issue`. */
  lemma UntitledIssue(item: Object, plan: Object, render: Json -> string)
    requires "finding" !in item
    ensures IssueOf(item, plan, render).Ok?
    ensures IssueOf(item, plan, render).value["title"] == JStr(FixPrefix + DefaultFinding)
  {
    assert Take(DefaultFinding, TitleLength) == DefaultFinding;
  }

  function DraftStep(plan: Object, render: Json -> string): (seq<Object>, Object) -> Result<seq<Object>> {
    (acc, item) =>
      if !NeedsIssue(item) then Ok(acc)
      else match IssueOf(item, plan, render) case Err(e) => Err(e) case Ok(issue) => Ok(acc + [issue])
  }

  /** The Jira bot's loop over the evidence. */
  function Issues(evidence: seq<Object>, plan: Object, render: Json -> string): Result<seq<Object>> {
    Fold(evidence, [], DraftStep(plan, render))
  }

  /** The items that need an issue, in order. */
  function NeedingIssue(evidence: seq<Object>): seq<Object> {
    Filter(evidence, NeedsIssue)
  }

  /** `r` drafts one issue per item of `needing`, in order, and is an error
      exactly when one of them cannot be drafted. */
  predicate DraftedEach(needing: seq<Object>, plan: Object, render: Json -> string, r: Result<seq<Object>>) {
    && (r.Ok? <==> forall i :: 0 <= i < |needing| ==> IssueOf(needing[i], plan, render).Ok?)
    && (r.Ok? ==> |r.value| == |needing| && forall i :: 0 <= i < |needing| ==> r.value[i] == IssueOf(needing[i], plan, render).value)
  }

  /** One more evidence item: it is drafted only when it needs an issue. */
  lemma DraftStepKeeps(needing: seq<Object>, item: Object, plan: Object, render: Json -> string, prev: Result<seq<Object>>)
    requires DraftedEach(needing, plan, render, prev)
    ensures DraftedEach(needing + if NeedsIssue(item) then [item] else [], plan, render,
                        if prev.Err? then prev else DraftStep(plan, render)(prev.value, item))
  {
    var more := needing + if NeedsIssue(item) then [item] else [];
    assert forall i :: 0 <= i < |needing| ==> more[i] == needing[i];
    if prev.Err? {
      var i :| 0 <= i < |needing| && !IssueOf(needing[i], plan, render).Ok?;
      assert !IssueOf(more[i], plan, render).Ok?;
    } else if NeedsIssue(item) {
      assert more[|needing|] == item;
      var r := IssueOf(item, plan, render);
      if r.Ok? {
        var issues := prev.value + [r.value];
        assert forall i :: 0 <= i < |needing| ==> issues[i] == prev.value[i];
      }
    }
  }

  /** The loop drafts exactly one issue per item that needs one, in order,
      and fails exactly when such an item's finding cannot be sliced. */
  lemma {:induction false} IssuesPointwise(evidence: seq<Object>, plan: Object, render: Json -> string)
    ensures var needing := NeedingIssue(evidence);
      Issues(evidence, plan, render).Ok? <==> forall i :: 0 <= i < |needing| ==> IssueOf(needing[i], plan, render).Ok?
    ensures var needing := NeedingIssue(evidence);
      Issues(evidence, plan, render).Ok? ==>
        var issues := Issues(evidence, plan, render).value;
        |issues| == |needing| && forall i :: 0 <= i < |needing| ==> issues[i] == IssueOf(needing[i], plan, render).value
    decreases |evidence|
  {
    if evidence != [] {
      var init := evidence[..|evidence| - 1];
      var last := evidence[|evidence| - 1];
      IssuesPointwise(init, plan, render);
      var prev := Issues(init, plan, render);
      assert Issues(evidence, plan, render) == if prev.Err? then prev else DraftStep(plan, render)(prev.value, last);
      assert NeedingIssue(evidence) == NeedingIssue(init) + if NeedsIssue(last) then [last] else [];
      DraftStepKeeps(NeedingIssue(init), last, plan, render, prev);
    }
  }

  method DraftIssues(evidence: seq<Object>, plan: Object, render: Json -> string) returns (r: Result<seq<Object>>)
    ensures r == Issues(evidence, plan, render)
  {
    var issues: seq<Object> := [];
    for i := 0 to |evidence|
      invariant Fold(evidence[..i], [], DraftStep(plan, render)) == Ok(issues)
    {
      FoldNext(evidence, i, [], DraftStep(plan, render));
      if NeedsIssue(evidence[i]) {
        var issue := IssueOf(evidence[i], plan, render);
        if issue.Err? {
          FoldStop(evidence, i + 1, [], DraftStep(plan, render));
          return Err(issue.error);
        }
        issues := issues + [issue.value];
      }
    }
    assert evidence[..|evidence|] == evidence;
    r := Ok(issues);
  }

  function EvidenceIn(st: ComplianceState): seq<Object> {
    if st.investigation.Some? then st.investigation.value.evidence else []
  }

  function PlanIn(st: ComplianceState): Object {
    if st.rulePlan.Some? then st.rulePlan.value else map[]
  }

  /** `JiraBotAgent.execute`: issues only for a non-compliant or partial
      verdict, and approval is required whatever was drafted. */
  function JiraStage(st: ComplianceState, render: Json -> string): (r: Result<ComplianceState>)
    ensures r.Ok? ==> r.value.requiresApproval && r.value.remediation.Some? && r.value.remediation.value.requiresUserApproval
    ensures r.Ok? ==> r.value == st.(remediation := r.value.remediation, requiresApproval := true, currentAgent := Some(JiraBot))
    ensures !Remediable(st.finalVerdict) ==> r.Ok? && r.value.remediation.value.issues == []
    ensures Remediable(st.finalVerdict) ==>
      (r.Ok? <==> Issues(EvidenceIn(st), PlanIn(st), render).Ok?)
      && (r.Ok? ==> r.value.remediation.value.issues == Issues(EvidenceIn(st), PlanIn(st), render).value)
  {
    if !Remediable(st.finalVerdict) then
      Ok(st.(remediation := Some(Remediation([], true)), requiresApproval := true, currentAgent := Some(JiraBot)))
    else
      match Issues(EvidenceIn(st), PlanIn(st), render)
      case Err(e) => Err(e)
      case Ok(issues) =>
        Ok(st.(remediation := Some(Remediation(issues, true)), requiresApproval := true, currentAgent := Some(JiraBot)))
  }

  method DraftStage(st: ComplianceState, render: Json -> string) returns (r: Result<ComplianceState>)
    ensures r == JiraStage(st, render)
  {
    var issues: Result<seq<Object>> := Ok([]);
    if Remediable(st.finalVerdict) {
      issues := DraftIssues(EvidenceIn(st), PlanIn(st), render);
    }
    if issues.Err? {
      return Err(issues.error);
    }
    r := Ok(st.(remediation := Some(Remediation(issues.value, true)), requiresApproval := true, currentAgent := Some(JiraBot)));
  }

  // ---------------------------------------------------------------- tickets

  /** `f"COMP-{int(time.time())}-{idx}"` */
  function TicketId(now: int, idx: nat): string {
    "COMP-" + IntToString(now) + "-" + NatToString(idx)
  }

  /** Tickets created at the same second differ by their index. */
  lemma TicketIdsDistinct(now: int, i: nat, j: nat)
    requires i != j
    ensures TicketId(now, i) != TicketId(now, j)
  {
    var head := "COMP-" + IntToString(now) + "-";
    if TicketId(now, i) == TicketId(now, j) {
      assert NatToString(i) == TicketId(now, i)[|head|..];
      NatToStringInjective(i, j);
    }
  }

  /** One issue's ticket; the log line reads `issue['title'][:50]`. */
  function NextTicket(ids: seq<string>, issue: Object, now: int): Result<seq<string>> {
    if "title" !in issue then Err(KeyError("title"))
    else if !Titled(issue) then Err(TypeError("[]"))
    else Ok(ids + [TicketId(now, |ids|)])
  }

  function TicketStep(now: int): (seq<string>, Object) -> Result<seq<string>> {
    (ids, issue) => NextTicket(ids, issue, now)
  }

  predicate Titled(issue: Object) {
    "title" in issue && (issue["title"].JStr? || issue["title"].JList?)
  }

  function Tickets(issues: seq<Object>, now: int): Result<seq<string>> {
    Fold(issues, [], TicketStep(now))
  }

  predicate AllTitled(issues: seq<Object>) {
    forall i :: 0 <= i < |issues| ==> Titled(issues[i])
  }

  predicate NumberedFrom(ids: seq<string>, now: int, n: nat) {
    |ids| == n && forall i :: 0 <= i < |ids| ==> ids[i] == TicketId(now, i)
  }

  /** One more issue: the loop still fails exactly when some issue is
      untitled, and otherwise numbers the new ticket after the others. */
  lemma TicketsStepMeaning(init: seq<Object>, last: Object, prev: Result<seq<string>>, now: int)
    requires prev.Ok? <==> AllTitled(init)
    requires prev.Ok? ==> NumberedFrom(prev.value, now, |init|)
    ensures var r := if prev.Err? then prev else NextTicket(prev.value, last, now);
      && (r.Ok? <==> AllTitled(init + [last]))
      && (r.Ok? ==> NumberedFrom(r.value, now, |init| + 1))
  {
    var issues := init + [last];
    assert forall i :: 0 <= i < |init| ==> issues[i] == init[i];
    assert issues[|init|] == last;
    if prev.Err? {
      var i :| 0 <= i < |init| && !Titled(init[i]);
      assert !Titled(issues[i]);
    } else if Titled(last) {
      var ids := prev.value + [TicketId(now, |prev.value|)];
      assert forall i :: 0 <= i < |ids| - 1 ==> ids[i] == prev.value[i];
    }
  }

  /** One ticket per issue, in order, numbered from 0; the loop fails exactly
      when an issue has no sliceable title. */
  lemma {:induction false} TicketsNumbered(issues: seq<Object>, now: int)
    ensures Tickets(issues, now).Ok? <==> forall i :: 0 <= i < |issues| ==> Titled(issues[i])
    ensures Tickets(issues, now).Ok? ==>
      var ids := Tickets(issues, now).value;
      |ids| == |issues| && forall i :: 0 <= i < |ids| ==> ids[i] == TicketId(now, i)
    decreases |issues|
  {
    if issues != [] {
      var init := issues[..|issues| - 1];
      var last := issues[|issues| - 1];
      TicketsNumbered(init, now);
      var prev := Tickets(init, now);
      assert Tickets(issues, now) == if prev.Err? then prev else NextTicket(prev.value, last, now);
      assert issues == init + [last];
      TicketsStepMeaning(init, last, prev, now);
    }
  }

  method CreateTicketIds(issues: seq<Object>, now: int) returns (r: Result<seq<string>>)
    ensures r == Tickets(issues, now)
  {
    var ids: seq<string> := [];
    for idx := 0 to |issues|
      invariant Fold(issues[..idx], [], TicketStep(now)) == Ok(ids)
    {
      FoldNext(issues, idx, [], TicketStep(now));
      if "title" !in issues[idx] {
        FoldStop(issues, idx + 1, [], TicketStep(now));
        return Err(KeyError("title"));
      }
      if !(issues[idx]["title"].JStr? || issues[idx]["title"].JList?) {
        FoldStop(issues, idx + 1, [], TicketStep(now));
        return Err(TypeError("[]"));
      }
      ids := ids + [TicketId(now, |ids|)];
    }
    assert issues[..|issues|] == issues;
    r := Ok(ids);
  }

  function IssuesIn(st: ComplianceState): seq<Object> {
    if st.remediation.Some? then st.remediation.value.issues else []
  }

  /** `JiraBotAgent.create_tickets`: the ticket ids and the completion time
      change, nothing else. */
  function CreateTickets(st: ComplianceState, now: int, stamp: string): (r: Result<ComplianceState>)
    ensures r.Ok? <==> Tickets(IssuesIn(st), now).Ok?
    ensures r.Ok? ==> r.value == st.(jiraTicketIds := Tickets(IssuesIn(st), now).value, completedAt := Some(stamp))
  {
    match Tickets(IssuesIn(st), now)
    case Err(e) => Err(e)
    case Ok(ids) => Ok(st.(jiraTicketIds := ids, completedAt := Some(stamp)))
  }

  /** The state approval works on: non-empty edited issues replace drafted
      ones (only when there are drafted ones), and the decision is
      `approved`. */
  function Approved(st: ComplianceState, edited: seq<Object>): (a: ComplianceState)
    ensures a.userDecision == Some("approved")
    ensures IssuesIn(a) == if edited != [] && st.remediation.Some? then edited else IssuesIn(st)
  {
    var s := if edited != [] && st.remediation.Some? then st.(remediation := Some(st.remediation.value.(issues := edited))) else st;
    s.(userDecision := Some("approved"))
  }

  /** `approve_and_create_tickets`: one ticket per approved issue. */
  lemma ApprovalTickets(st: ComplianceState, edited: seq<Object>, now: int, stamp: string)
    requires edited != [] && st.remediation.Some?
    requires forall i :: 0 <= i < |edited| ==> Titled(edited[i])
    ensures CreateTickets(Approved(st, edited), now, stamp).Ok?
    ensures var r := CreateTickets(Approved(st, edited), now, stamp).value;
      && r.userDecision == Some("approved") && |r.jiraTicketIds| == |edited|
      && (forall i :: 0 <= i < |edited| ==> r.jiraTicketIds[i] == TicketId(now, i))
  {
    TicketsNumbered(edited, now);
  }

  // ---------------------------------------------------------------- orchestrator

  /** The agents in graph order: planner, navigator, investigator, checker,
      Jira bot, then the end. */
  const Stages: seq<Agent> := [Planner, Navigator, Investigator, Checker, JiraBot]

  /** The `status` column of `agent_executions`: `running`, `completed`,
      `failed`. */
  datatype Status = Running | Completed | Failed

  /** A row of `agent_executions`. */
  datatype Execution = Execution(agent: Agent, status: Status)

  /** The `execute` of the `k`-th agent. */
  function Stage(k: nat, st: ComplianceState, svc: Services): Result<ComplianceState>
    requires k < |Stages|
  {
    if k == 0 then PlanStage(st, svc)
    else if k == 1 then NavigatorStage(st, svc)
    else if k == 2 then InvestigatorStage(st, svc)
    else if k == 3 then CheckerStage(st)
    else JiraStage(st, svc.render)
  }

  /** The exception `BaseAgent.run` raises for a failed agent. */
  function Failure(agent: Agent, e: Error): Error {
    RuntimeError("Agent " + AgentName(agent) + " failed: " + ErrorText(e))
  }

  /** The agents from the `k`-th on, each run on its predecessor's state; the
      first failure ends the scan. */
  function ScanFrom(k: nat, st: ComplianceState, svc: Services): (r: Result<ComplianceState>)
    requires k <= |Stages|
    ensures r.Err? ==> r.error.RuntimeError?
    decreases |Stages| - k, 1
  {
    if k == |Stages| then Ok(st) else Step(k, st, svc)
  }

  /** The `k`-th agent runs, then the agents after it. */
  function Step(k: nat, st: ComplianceState, svc: Services): (r: Result<ComplianceState>)
    requires k < |Stages|
    ensures r.Err? ==> r.error.RuntimeError?
    decreases |Stages| - k, 0
  {
    match Stage(k, st, svc)
    case Err(e) => Err(Failure(Stages[k], e))
    case Ok(next) => ScanFrom(k + 1, next, svc)
  }

  /** One step of the scan. */
  lemma ScanUnfold(k: nat, st: ComplianceState, svc: Services)
    requires k < |Stages|
    ensures Stage(k, st, svc).Err? ==> ScanFrom(k, st, svc) == Err(Failure(Stages[k], Stage(k, st, svc).error))
    ensures Stage(k, st, svc).Ok? ==> ScanFrom(k, st, svc) == ScanFrom(k + 1, Stage(k, st, svc).value, svc)
  {
  }

  /** The executions the first `k` agents record when they all succeed. */
  function Trail(k: nat): (t: seq<Execution>)
    requires k <= |Stages|
    ensures |t| == 2 * k
    ensures forall i :: 0 <= i < k ==> t[2 * i] == Execution(Stages[i], Running) && t[2 * i + 1] == Execution(Stages[i], Completed)
  {
    if k == 0 then [] else Trail(k - 1) + [Execution(Stages[k - 1], Running), Execution(Stages[k - 1], Completed)]
  }

  /** Appending the next agent's two rows extends the trail. */
  lemma TrailNext(prior: seq<Execution>, k: nat)
    requires k < |Stages|
    ensures prior + Trail(k) + [Execution(Stages[k], Running), Execution(Stages[k], Completed)] == prior + Trail(k + 1)
  {
  }

  /** A completed scan always ends at the Jira bot, waiting for approval. */
  lemma {:induction false} ScanAwaitsApproval(k: nat, st: ComplianceState, svc: Services)
    requires k <= |Stages| && ScanFrom(k, st, svc).Ok?
    ensures k < |Stages| ==> ScanFrom(k, st, svc).value.requiresApproval && ScanFrom(k, st, svc).value.currentAgent == Some(JiraBot)
    ensures ScanFrom(k, st, svc).value.scanId == st.scanId && ScanFrom(k, st, svc).value.repoId == st.repoId
    decreases |Stages| - k
  {
    if k < |Stages| {
      var next := Stage(k, st, svc).value;
      ScanAwaitsApproval(k + 1, next, svc);
      if k + 1 < |Stages| {
        assert ScanFrom(k + 1, next, svc).value.requiresApproval;
      }
    }
  }

  /** The `execute` of the `k`-th agent. */
  method Execute(k: nat, st: ComplianceState, svc: Services) returns (out: Result<ComplianceState>)
    requires k < |Stages|
    ensures out == Stage(k, st, svc)
  {
    if k == 0 {
      out := PlanStage(st, svc);
    } else if k == 1 {
      out := NavigateStage(st, svc);
    } else if k == 2 {
      out := InvestigateStage(st, svc);
    } else if k == 3 {
      out := CheckerStage(st);
    } else {
      out := DraftStage(st, svc.render);
    }
  }

  /** `ComplianceScanOrchestrator`: the agents of one scan and the execution
      rows they record. */
  class ComplianceScanOrchestrator {
    const scanId: string
    const repoId: string
    const regulationChunk: Object
    var executions: seq<Execution>

    constructor (scanId: string, repoId: string, regulationChunk: Object)
      ensures this.scanId == scanId && this.repoId == repoId && this.regulationChunk == regulationChunk
      ensures executions == []
    {
      this.scanId := scanId;
      this.repoId := repoId;
      this.regulationChunk := regulationChunk;
      executions := [];
    }

    /** `BaseAgent.run` of the `k`-th agent: `running` is recorded, then
        `completed` with the new state, or `failed` and a RuntimeError. */
    method Run(k: nat, st: ComplianceState, svc: Services) returns (r: Result<ComplianceState>)
      requires k < |Stages|
      modifies this
      ensures Stage(k, st, svc).Ok? ==> r == Stage(k, st, svc)
      ensures Stage(k, st, svc).Err? ==> r == Err(Failure(Stages[k], Stage(k, st, svc).error))
      ensures executions == old(executions)
        + [Execution(Stages[k], Running), Execution(Stages[k], if r.Ok? then Completed else Failed)]
      ensures r.Err? ==> ScanFrom(k, st, svc) == r
      ensures r.Ok? ==> ScanFrom(k, st, svc) == ScanFrom(k + 1, r.value, svc)
    {
      executions := executions + [Execution(Stages[k], Running)];
      var out := Execute(k, st, svc);
      ScanUnfold(k, st, svc);
      if out.Err? {
        executions := executions + [Execution(Stages[k], Failed)];
        return Err(Failure(Stages[k], out.error));
      }
      executions := executions + [Execution(Stages[k], Completed)];
      r := out;
    }

    /** `run_scan`: the agents in order from the initial state. On success
        every agent has recorded running then completed; on failure the
        failing agent is the last one recorded. */
    method RunScan(svc: Services, startedAt: string) returns (r: Result<ComplianceState>)
      modifies this
      ensures r == ScanFrom(0, Initial(scanId, repoId, regulationChunk, startedAt), svc)
      ensures r.Ok? ==> executions == old(executions) + Trail(|Stages|)
      ensures r.Err? ==> exists k :: (0 <= k < |Stages| &&
        executions == old(executions) + Trail(k) + [Execution(Stages[k], Running), Execution(Stages[k], Failed)])
    {
      var st := Initial(scanId, repoId, regulationChunk, startedAt);
      ghost var start := st;
      ghost var prior := executions;
      var k := 0;
      while k < |Stages|
        invariant 0 <= k <= |Stages|
        invariant ScanFrom(0, start, svc) == ScanFrom(k, st, svc)
        invariant executions == prior + Trail(k)
      {
        var out := Run(k, st, svc);
        if out.Err? {
          assert executions == prior + Trail(k) + [Execution(Stages[k], Running), Execution(Stages[k], Failed)];
          return out;
        }
        TrailNext(prior, k);
        st := out.value;
        k := k + 1;
      }
      assert ScanFrom(k, st, svc) == Ok(st);
      r := Ok(st);
    }

    /** `approve_and_create_tickets`: no agent execution is recorded. */
    method ApproveAndCreateTickets(st: ComplianceState, edited: seq<Object>, now: int, stamp: string)
      returns (r: Result<ComplianceState>)
      ensures r == CreateTickets(Approved(st, edited), now, stamp)
    {
      var approved := Approved(st, edited);
      var ids := CreateTicketIds(IssuesIn(approved), now);
      if ids.Err? {
        return Err(ids.error);
      }
      r := Ok(approved.(jiraTicketIds := ids.value, completedAt := Some(stamp)));
    }
  }
}
