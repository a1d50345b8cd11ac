// The rule matcher (`RuleMatcherService`): a rule's text is its
// lowest-index regulation chunk, the code chunks nearest to it are each
// judged by the LLM, and the findings are folded into one verdict.
//
// The embedding of the rule text, the nearest-neighbour query (already in
// distance order), the chat completion and `json.loads` are parameters.

module RuleMatcher {
  import opened Common
  import opened Database

  // ---------------------------------------------------------------- rule text

  /** Among the first `n` rows, the index of a row of the rule with the
      lowest chunk index (the earliest such row on ties). */
  function LowestIn(rows: seq<RegulationChunkRow>, ruleId: string, n: nat): (r: Option<nat>)
    requires n <= |rows|
    ensures r.None? <==> forall i :: 0 <= i < n ==> rows[i].ruleId != ruleId
    ensures r.Some? ==> r.value < n && rows[r.value].ruleId == ruleId
    ensures r.Some? ==> forall j :: 0 <= j < n && rows[j].ruleId == ruleId ==>
                          rows[r.value].chunkIndex <= rows[j].chunkIndex
  {
    if n == 0 then None
    else
      var before := LowestIn(rows, ruleId, n - 1);
      if rows[n - 1].ruleId != ruleId then before
      else if before.None? || rows[n - 1].chunkIndex < rows[before.value].chunkIndex then Some(n - 1)
      else before
  }

  /** `_get_rule_text`: the text of the rule's chunk with the lowest
      `chunk_index`; a rule without chunks is a ValueError. */
  function RuleText(rows: seq<RegulationChunkRow>, ruleId: string): (r: Result<string>)
    ensures r.Err? <==> forall i :: 0 <= i < |rows| ==> rows[i].ruleId != ruleId
    ensures r.Err? ==> r.error.ValueError?
    ensures r.Ok? ==> exists i :: 0 <= i < |rows| && rows[i].ruleId == ruleId && rows[i].chunkText == r.value
                         && forall j :: 0 <= j < |rows| && rows[j].ruleId == ruleId ==>
                              rows[i].chunkIndex <= rows[j].chunkIndex
  {
    var lowest := LowestIn(rows, ruleId, |rows|);
    if lowest.None? then Err(ValueError("Rule " + ruleId + " not found"))
    else Ok(rows[lowest.value].chunkText)
  }

  // ---------------------------------------------------------------- search

  /** A row of the nearest-code query. */
  datatype CodeHit = CodeHit(chunkId: string, filePath: string, chunkText: string, startLine: int, endLine: int,
                             similarity: real)

  /** `_search_code_for_rule`: the rule text's embedding, then the `top_k`
      nearest chunks of the repository; a negative `LIMIT` is refused by the
      database. */
  function SearchCode(ruleText: string, topK: int, embed: string -> Result<Vector>,
                      nearest: Vector -> seq<CodeHit>): (r: Result<seq<CodeHit>>)
    ensures embed(ruleText).Err? ==> r == Err(embed(ruleText).error)
    ensures embed(ruleText).Ok? && topK < 0 ==> r.Err? && r.error.ValueError?
    ensures embed(ruleText).Ok? && topK >= 0 ==>
      r.Ok? && |r.value| <= topK && |r.value| <= |nearest(embed(ruleText).value)| && r.value == nearest(embed(ruleText).value)[..|r.value|]
  {
    match embed(ruleText)
    case Err(e) => Err(e)
    case Ok(v) =>
      if topK < 0 then Err(ValueError("LIMIT must not be negative"))
      else
        var hits := nearest(v);
        Ok(if topK < |hits| then hits[..topK] else hits)
  }

  // ---------------------------------------------------------------- analysis

  /** A finding: the dictionary `_analyze_chunk_compliance` returns. */
  type Finding = map<string, Json>

  const PromptHead: string := "Analyze if this code complies with the regulation requirement.\n\nRegulation Requirement:\n"
  const PromptCode: string := "\n\nCode from "
  const PromptLines: string := " (lines "
  const PromptBlock: string := "):\n```\n"
  const PromptTail: string :=
    "\n```\n\nProvide analysis in JSON format:\n{\n"
    + "    \"verdict\": \"compliant\" | \"non_compliant\" | \"partial\" | \"unclear\",\n"
    + "    \"confidence\": 0.0-1.0,\n    \"reasoning\": \"Brief explanation\",\n"
    + "    \"evidence\": \"Specific code reference\"\n}\n"

  /** The prompt of `_analyze_chunk_compliance`. */
  function ChunkPrompt(ruleText: string, hit: CodeHit): string
  {
    PromptHead + ruleText + PromptCode + hit.filePath + PromptLines + IntToString(hit.startLine) + "-"
    + IntToString(hit.endLine) + PromptBlock + hit.chunkText + PromptTail
  }

  /** The finding for a reply that is not a JSON object. */
  function Unclear(hit: CodeHit): Finding
  {
    map[
      "verdict" := JStr("unclear"), "confidence" := JNum(0.0), "reasoning" := JStr("Failed to analyze"),
      "evidence" := JStr(""), "file_path" := JStr(hit.filePath), "start_line" := JNum(hit.startLine as real),
      "end_line" := JNum(hit.endLine as real)]
  }

  /** The four keys added to a decoded analysis. */
  predicate Located(k: string) {
    k == "file_path" || k == "start_line" || k == "end_line" || k == "similarity"
  }

  /** The finding for a reply: a decoded object gets the chunk's location and
      similarity added; anything else (undecodable, or JSON that is not an
      object, on which the key assignment raises) becomes the `unclear`
      finding. */
  function FindingOf(hit: CodeHit, decoded: Option<Json>): (f: Finding)
    ensures "file_path" in f && f["file_path"] == JStr(hit.filePath)
    ensures "start_line" in f && f["start_line"] == JNum(hit.startLine as real)
    ensures "end_line" in f && f["end_line"] == JNum(hit.endLine as real)
    ensures (decoded.Some? && decoded.value.JObject?) ==>
      (&& "similarity" in f && f["similarity"] == JNum(hit.similarity)
       && (forall k :: k in decoded.value.fields && !Located(k) ==> k in f && f[k] == decoded.value.fields[k])
       && (forall k :: k in f ==> k in decoded.value.fields || Located(k)))
    ensures !(decoded.Some? && decoded.value.JObject?) ==>
      (&& "similarity" !in f && "verdict" in f && "confidence" in f && f["verdict"] == JStr("unclear") && f["confidence"] == JNum(0.0))
  {
    match decoded
    case Some(JObject(fields)) =>
      fields["file_path" := JStr(hit.filePath)]["start_line" := JNum(hit.startLine as real)]
        ["end_line" := JNum(hit.endLine as real)]["similarity" := JNum(hit.similarity)]
    case _ => Unclear(hit)
  }

  /** What `llm_service.generate` answers to a prompt sent as one user
      message (`Llm.Generate`). */
  type Ask = string -> Result<string>

  /** `_analyze_chunk_compliance`: a failing completion is raised, a reply is
      stripped and decoded. */
  function AnalyzeChunk(ruleText: string, hit: CodeHit, ask: Ask, decode: string -> Option<Json>)
    : Result<Finding>
  {
    match ask(ChunkPrompt(ruleText, hit))
    case Err(e) => Err(e)
    case Ok(reply) => Ok(FindingOf(hit, decode(Strip(reply))))
  }

  /** The findings of the chunks in order, `analyze` giving each chunk's;
      the first failure is raised. */
  function Analyses(hits: seq<CodeHit>, analyze: CodeHit -> Result<Finding>)
    : (r: Result<seq<Finding>>)
    ensures r.Ok? ==> |r.value| == |hits|
    decreases |hits|
  {
    if hits == [] then Ok([])
    else
      match Analyses(hits[..|hits| - 1], analyze)
      case Err(e) => Err(e)
      case Ok(done) =>
        match analyze(hits[|hits| - 1])
        case Err(e) => Err(e)
        case Ok(f) => Ok(done + [f])
  }

  /** Every successful analysis is the chunk's own finding, in order, and the
      analyses fail exactly when one chunk's completion fails. */
  lemma {:induction false} AnalysesPointwise(hits: seq<CodeHit>, analyze: CodeHit -> Result<Finding>)
    ensures var r := Analyses(hits, analyze);
      && (r.Ok? <==> forall i :: 0 <= i < |hits| ==> analyze(hits[i]).Ok?)
      && (r.Ok? ==> forall i :: 0 <= i < |hits| ==> r.value[i] == analyze(hits[i]).value)
    decreases |hits|
  {
    if hits != [] {
      var init := hits[..|hits| - 1];
      AnalysesPointwise(init, analyze);
      assert forall i :: 0 <= i < |init| ==> init[i] == hits[i];
    }
  }

  // ---------------------------------------------------------------- verdict

  /** `f.get("verdict")` */
  function VerdictOf(f: Finding): Json {
    if "verdict" in f then f["verdict"] else JNull
  }

  function Verdicts(fs: seq<Finding>): (vs: seq<Json>)
    ensures |vs| == |fs| && forall i :: 0 <= i < |fs| ==> vs[i] == VerdictOf(fs[i])
  {
    seq(|fs|, i requires 0 <= i < |fs| => VerdictOf(fs[i]))
  }

  predicate AllCompliant(verdicts: seq<Json>) {
    forall i :: 0 <= i < |verdicts| ==> verdicts[i] == JStr("compliant")
  }

  /** `_aggregate_verdict`: nothing found is `unclear`; one non-compliant
      finding decides; all compliant is `compliant`; anything else is
      `partial`. */
  function AggregateVerdict(verdicts: seq<Json>): (v: string)
    ensures v == "unclear" <==> verdicts == []
    ensures v == "non_compliant" <==> JStr("non_compliant") in verdicts
    ensures v == "compliant" <==> verdicts != [] && AllCompliant(verdicts)
    ensures v == "partial" <==> verdicts != [] && JStr("non_compliant") !in verdicts && !AllCompliant(verdicts)
  {
    if verdicts == [] then "unclear"
    else if JStr("non_compliant") in verdicts then "non_compliant"
    else if AllCompliant(verdicts) then "compliant"
    else "partial"
  }

  /** The verdict depends only on the multiset of the findings' verdicts. */
  lemma AggregateIsOrderFree(a: seq<Json>, b: seq<Json>)
    requires multiset(a) == multiset(b)
    ensures AggregateVerdict(a) == AggregateVerdict(b)
  {
    assert |a| == |multiset(a)| == |multiset(b)| == |b|;
    assert JStr("non_compliant") in a <==> JStr("non_compliant") in multiset(a);
    assert JStr("non_compliant") in b <==> JStr("non_compliant") in multiset(b);
    if AllCompliant(a) {
      forall i | 0 <= i < |b| ensures b[i] == JStr("compliant") {
        assert b[i] in multiset(b);
        var j :| 0 <= j < |a| && a[j] == b[i];
      }
    }
    if AllCompliant(b) {
      forall i | 0 <= i < |a| ensures a[i] == JStr("compliant") {
        assert a[i] in multiset(a);
        var j :| 0 <= j < |b| && b[j] == a[i];
      }
    }
  }

  // ---------------------------------------------------------------- check

  datatype CheckResult = CheckResult(ruleId: string, repoId: string, verdict: string, findingsCount: nat,
                                     findings: seq<Finding>)

  /** `findings[:5]` */
  const ReturnedFindings: nat := 5

  /** `check_rule`: every retrieved chunk is analysed and counted, the
      verdict covers all findings, and at most the first five are returned;
      a missing rule, a failing embedding, query or completion is raised. */
  method CheckRule(ruleId: string, repoId: string, topK: int, rows: seq<RegulationChunkRow>,
                   embed: string -> Result<Vector>, nearest: Vector -> seq<CodeHit>, ask: Ask,
                   decode: string -> Option<Json>)
    returns (r: Result<CheckResult>)
    ensures RuleText(rows, ruleId).Err? ==> r == Err(RuleText(rows, ruleId).error)
    ensures RuleText(rows, ruleId).Ok? ==>
      var text := RuleText(rows, ruleId).value;
      var hits := SearchCode(text, topK, embed, nearest);
      && (hits.Err? ==> r == Err(hits.error))
      && (hits.Ok? ==>
            var all := Analyses(hits.value, hit => AnalyzeChunk(text, hit, ask, decode));
            && (all.Err? ==> r == Err(all.error))
            && (all.Ok? ==>
                  && r.Ok? && r.value.ruleId == ruleId && r.value.repoId == repoId
                  && r.value.findingsCount == |hits.value|
                  && r.value.verdict == AggregateVerdict(Verdicts(all.value))
                  && r.value.findings == all.value[..if |all.value| < ReturnedFindings then |all.value| else ReturnedFindings]))
  {
    var text := RuleText(rows, ruleId);
    if text.Err? {
      return Err(text.error);
    }
    var hits := SearchCode(text.value, topK, embed, nearest);
    if hits.Err? {
      return Err(hits.error);
    }
    var all := AnalyzeAll(text.value, hits.value, ask, decode);
    if all.Err? {
      return Err(all.error);
    }
    var findings := all.value;
    var verdict := AggregateVerdict(Verdicts(findings));
    r := Ok(CheckResult(ruleId, repoId, verdict, |findings|,
                        if |findings| < ReturnedFindings then findings else findings[..ReturnedFindings]));
  }

  /** The loop of `check_rule`: each retrieved chunk analysed in turn. */
  method AnalyzeAll(ruleText: string, hits: seq<CodeHit>, ask: Ask, decode: string -> Option<Json>)
    returns (r: Result<seq<Finding>>)
    ensures r == Analyses(hits, hit => AnalyzeChunk(ruleText, hit, ask, decode))
  {
    ghost var analyze := hit => AnalyzeChunk(ruleText, hit, ask, decode);
    var findings: seq<Finding> := [];
    var i := 0;
    while i < |hits|
      invariant 0 <= i <= |hits|
      invariant Analyses(hits[..i], analyze) == Ok(findings)
    {
      assert hits[..i + 1][..i] == hits[..i];
      var finding := AnalyzeChunk(ruleText, hits[i], ask, decode);
      assert finding == analyze(hits[i]);
      if finding.Err? {
        AnalysesStop(hits, i + 1, analyze);
        return Err(finding.error);
      }
      findings := findings + [finding.value];
      i := i + 1;
    }
    assert hits[..|hits|] == hits;
    r := Ok(findings);
  }

  /** A failure among the first `n` chunks is the failure of all of them. */
  lemma {:induction false} AnalysesStop(hits: seq<CodeHit>, n: nat, analyze: CodeHit -> Result<Finding>)
    requires n <= |hits| && Analyses(hits[..n], analyze).Err?
    ensures Analyses(hits, analyze) == Analyses(hits[..n], analyze)
    decreases |hits| - n
  {
    if n < |hits| {
      assert hits[..n + 1][..n] == hits[..n];
      AnalysesStop(hits, n + 1, analyze);
    } else {
      assert hits[..n] == hits;
    }
  }
}
