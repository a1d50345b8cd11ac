// The LLM service: provider selection at construction, the retried chat
// completion, the JSON fallback of the compliance analysis, the counts sent
// for a scan summary, and the flow-level prompt. The chat completion itself
// is an oracle: `call(request, attempt)` is what the provider answers to
// the given attempt.

module Llm {
  import opened Common

  // ---------------------------------------------------------------- prompt

  const PromptHead: string :=
    "Given these code summaries and the regulatory requirement, determine if the overall flow satisfies the rule. "
    + "Analyze order, dependencies, and missing steps. Cite evidence only from provided summaries.\n"
    + "Regulatory requirement: "
  const PromptMiddle: string := "\nCode summaries:\n"
  const PromptTail: string := "\nRespond with a verdict and explanation."

  /** `macro_compliance_prompt`: the rule text and the context block appear
      verbatim, at fixed places. */
  function MacroCompliancePrompt(ruleText: string, contextBlock: string): (p: string)
    ensures |p| == |PromptHead| + |ruleText| + |PromptMiddle| + |contextBlock| + |PromptTail|
    ensures p[|PromptHead|..|PromptHead| + |ruleText|] == ruleText
    ensures p[|PromptHead| + |ruleText| + |PromptMiddle|..|p| - |PromptTail|] == contextBlock
  {
    PromptHead + ruleText + PromptMiddle + contextBlock + PromptTail
  }

  /** Prompts for rule texts of the same length are equal only for equal
      rule texts and context blocks. */
  lemma PromptDetermines(r1: string, c1: string, r2: string, c2: string)
    requires |r1| == |r2| && MacroCompliancePrompt(r1, c1) == MacroCompliancePrompt(r2, c2)
    ensures r1 == r2 && c1 == c2
  {
  }

  // ---------------------------------------------------------------- setup

  datatype LlmSettings = LlmSettings(
    provider: string,
    azureEndpoint: Option<string>,
    azureKey: Option<string>,
    azureDeployment: string,
    openaiKey: Option<string>,
    temperature: real,
    maxTokens: int)

  /** What a constructed service holds. */
  datatype Service = Service(provider: string, model: string, temperature: real, maxTokens: int)

  predicate Set(v: Option<string>) {
    v.Some? && v.value != ""
  }

  /** `LLMService.__init__`: Azure needs an endpoint and a key, OpenAI a key
      (and uses `gpt-4o-mini`); any other provider is rejected. */
  function NewService(s: LlmSettings): (r: Result<Service>)
    ensures r.Ok? <==> ((s.provider == "azure" && Set(s.azureEndpoint) && Set(s.azureKey))
                        || (s.provider == "openai" && Set(s.openaiKey)))
    ensures r.Err? ==> r.error.LlmProviderError?
    ensures r.Ok? ==> r.value.provider == s.provider && r.value.temperature == s.temperature
                      && r.value.maxTokens == s.maxTokens
    ensures r.Ok? ==> r.value.model == (if s.provider == "openai" then "gpt-4o-mini" else s.azureDeployment)
  {
    if s.provider == "azure" then
      if !Set(s.azureEndpoint) || !Set(s.azureKey) then Err(LlmProviderError("Azure OpenAI credentials not configured"))
      else Ok(Service(s.provider, s.azureDeployment, s.temperature, s.maxTokens))
    else if s.provider == "openai" then
      if !Set(s.openaiKey) then Err(LlmProviderError("OpenAI API key not configured"))
      else Ok(Service(s.provider, "gpt-4o-mini", s.temperature, s.maxTokens))
    else Err(LlmProviderError("Unknown provider: " + s.provider))
  }

  // ---------------------------------------------------------------- generate

  datatype Message = Message(role: string, content: string)

  datatype Request = Request(model: string, messages: seq<Message>, temperature: real, maxTokens: int)

  const GenerateAttempts: nat := 3

  /** The request `generate` sends: a falsy override (absent or zero) falls
      back to the service's default. */
  function GenerateRequest(svc: Service, messages: seq<Message>, temperature: Option<real>, maxTokens: Option<int>): (q: Request)
    ensures q.model == svc.model && q.messages == messages
    ensures q.temperature == (if temperature.Some? && temperature.value != 0.0 then temperature.value else svc.temperature)
    ensures q.maxTokens == (if maxTokens.Some? && maxTokens.value != 0 then maxTokens.value else svc.maxTokens)
  {
    Request(svc.model, messages,
            if temperature.Some? && temperature.value != 0.0 then temperature.value else svc.temperature,
            if maxTokens.Some? && maxTokens.value != 0 then maxTokens.value else svc.maxTokens)
  }

  /** One attempt: the provider's failure is wrapped as an LLM provider error. */
  function GenerateAttempt(q: Request, call: (Request, nat) -> Result<string>, k: nat): (r: Result<string>)
    ensures r.Err? ==> r.error.LlmProviderError?
    ensures r.Ok? <==> call(q, k).Ok?
    ensures r.Ok? ==> r.value == call(q, k).value
  {
    match call(q, k)
    case Ok(content) => Ok(content)
    case Err(e) => Err(LlmProviderError("Failed to generate completion: " + ErrorText(e)))
  }

  /** `generate`: at most three attempts of the same request; the first
      answer wins, and three failures surface as an LLM provider error. */
  function Generate(svc: Service, messages: seq<Message>, temperature: Option<real>, maxTokens: Option<int>,
                    call: (Request, nat) -> Result<string>): (r: Result<string>)
    ensures r.Err? ==> r.error.LlmProviderError?
    ensures r.Ok? ==> exists k :: 0 <= k < GenerateAttempts
                        && call(GenerateRequest(svc, messages, temperature, maxTokens), k) == Ok(r.value)
  {
    var q := GenerateRequest(svc, messages, temperature, maxTokens);
    var attempt := (k: nat) => GenerateAttempt(q, call, k);
    RetryMeaning(attempt, GenerateAttempts, 0);
    Retry(attempt, GenerateAttempts, 0)
  }

  /** The completion succeeds exactly when one of the three attempts does;
      otherwise it fails with an LLM provider error. */
  lemma GenerateMeaning(svc: Service, messages: seq<Message>, temperature: Option<real>, maxTokens: Option<int>,
                        call: (Request, nat) -> Result<string>)
    ensures var q := GenerateRequest(svc, messages, temperature, maxTokens);
      var r := Generate(svc, messages, temperature, maxTokens, call);
      && (r.Ok? <==> exists k :: 0 <= k < GenerateAttempts && call(q, k).Ok?)
      && (r.Err? ==> r.error.LlmProviderError?)
  {
    var q := GenerateRequest(svc, messages, temperature, maxTokens);
    var attempt := (k: nat) => GenerateAttempt(q, call, k);
    RetryMeaning(attempt, GenerateAttempts, 0);
    assert forall k: nat :: attempt(k).Ok? <==> call(q, k).Ok?;
  }

  /** The first attempt's answer is returned as is, without retries. */
  lemma FirstAnswerWins(svc: Service, messages: seq<Message>, temperature: Option<real>, maxTokens: Option<int>,
                        call: (Request, nat) -> Result<string>)
    requires call(GenerateRequest(svc, messages, temperature, maxTokens), 0).Ok?
    ensures Generate(svc, messages, temperature, maxTokens, call)
      == call(GenerateRequest(svc, messages, temperature, maxTokens), 0)
  {
  }

  // ---------------------------------------------------------------- analysis

  /** The record `analyze_compliance` returns when the reply is not JSON. */
  function AnalysisFallback(reply: string): Json
  {
    JObject(map[
      "verdict" := JStr("unknown"),
      "severity" := JStr("medium"),
      "severity_score" := JNum(5.0),
      "explanation" := JStr(reply),
      "evidence" := JNull,
      "remediation" := JNull])
  }

  /** `analyze_compliance` after the completion: the decoded reply, or the
      fallback carrying the raw reply when it does not decode. */
  function AnalyzeCompliance(reply: string, decoded: Option<Json>): (r: Json)
    ensures decoded.Some? ==> r == decoded.value
    ensures decoded.None? ==> (
      && r.JObject?
      && Get(r.fields, "verdict", JNull) == JStr("unknown")
      && Get(r.fields, "severity", JNull) == JStr("medium")
      && Get(r.fields, "severity_score", JNull) == JNum(5.0)
      && Get(r.fields, "explanation", JNull) == JStr(reply)
      && "evidence" in r.fields && r.fields["evidence"] == JNull
      && "remediation" in r.fields && r.fields["remediation"] == JNull)
  {
    match decoded
    case Some(j) => j
    case None => AnalysisFallback(reply)
  }

  /** The fallback loses nothing of the reply: different replies give
      different fallbacks. */
  lemma FallbackKeepsReply(a: string, b: string)
    requires AnalyzeCompliance(a, None) == AnalyzeCompliance(b, None)
    ensures a == b
  {
    assert Get(AnalyzeCompliance(a, None).fields, "explanation", JNull) == JStr(a);
  }

  // ---------------------------------------------------------------- summary

  datatype SummaryItem = SummaryItem(severity: string, ruleId: string, filePath: string, startLine: int)

  /** The values filled into the scan summary prompt. */
  datatype SummaryCounts = SummaryCounts(total: nat, critical: nat, high: nat, medium: nat, low: nat, listing: string)

  const ListedViolations: nat := 20

  function CountSeverity(vs: seq<SummaryItem>, severity: string): (n: nat)
    ensures n <= |vs|
  {
    if vs == [] then 0
    else CountSeverity(vs[..|vs| - 1], severity) + (if vs[|vs| - 1].severity == severity then 1 else 0)
  }

  /** The severities of the violations, in order. */
  function Severities(vs: seq<SummaryItem>): (r: seq<string>)
    ensures |r| == |vs| && forall i :: 0 <= i < |vs| ==> r[i] == vs[i].severity
  {
    seq(|vs|, i requires 0 <= i < |vs| => vs[i].severity)
  }

  /** The count of a severity is how often it occurs among the violations. */
  lemma {:induction false} CountSeverityIsMultiplicity(vs: seq<SummaryItem>, severity: string)
    ensures CountSeverity(vs, severity) == multiset(Severities(vs))[severity]
    decreases |vs|
  {
    if vs != [] {
      var init := vs[..|vs| - 1];
      CountSeverityIsMultiplicity(init, severity);
      assert Severities(vs) == Severities(init) + [vs[|vs| - 1].severity];
    }
  }

  function Listing(v: SummaryItem): string {
    "- " + Upper(v.severity) + ": " + v.ruleId + " in " + v.filePath + ":" + IntToString(v.startLine)
  }

  function Listings(vs: seq<SummaryItem>): (ls: seq<string>)
    ensures |ls| == |vs|
    ensures forall k :: 0 <= k < |vs| ==> ls[k] == Listing(vs[k])
  {
    seq(|vs|, k requires 0 <= k < |vs| => Listing(vs[k]))
  }

  /** The four severities are distinct, so a violation adds to at most one count. */
  lemma {:induction false} CountsBounded(vs: seq<SummaryItem>)
    ensures CountSeverity(vs, "critical") + CountSeverity(vs, "high")
      + CountSeverity(vs, "medium") + CountSeverity(vs, "low") <= |vs|
  {
    if vs != [] {
      CountsBounded(vs[..|vs| - 1]);
    }
  }

  /** `generate_scan_summary`'s prompt values: counts over all violations,
      a listing of at most the first 20. */
  function ScanSummaryCounts(vs: seq<SummaryItem>): (c: SummaryCounts)
    ensures c.total == |vs|
    ensures c.critical + c.high + c.medium + c.low <= c.total
    ensures && c.critical == multiset(Severities(vs))["critical"] && c.high == multiset(Severities(vs))["high"]
            && c.medium == multiset(Severities(vs))["medium"] && c.low == multiset(Severities(vs))["low"]
  {
    CountsBounded(vs);
    CountSeverityIsMultiplicity(vs, "critical");
    CountSeverityIsMultiplicity(vs, "high");
    CountSeverityIsMultiplicity(vs, "medium");
    CountSeverityIsMultiplicity(vs, "low");
    SummaryCounts(|vs|, CountSeverity(vs, "critical"), CountSeverity(vs, "high"),
                  CountSeverity(vs, "medium"), CountSeverity(vs, "low"),
                  Join(Listings(Listed(vs)), "\n"))
  }

  /** `violations[:20]` */
  function Listed(vs: seq<SummaryItem>): (r: seq<SummaryItem>)
    ensures |r| == if |vs| <= ListedViolations then |vs| else ListedViolations
    ensures r == vs[..|r|]
  {
    if |vs| <= ListedViolations then vs else vs[..ListedViolations]
  }

  /** Violations past the twentieth change the counts but not the listing. */
  lemma ListingCapped(vs: seq<SummaryItem>, more: seq<SummaryItem>)
    requires |vs| >= ListedViolations
    ensures ScanSummaryCounts(vs + more).listing == ScanSummaryCounts(vs).listing
    ensures ScanSummaryCounts(vs + more).total == ScanSummaryCounts(vs).total + |more|
  {
    assert Listed(vs + more) == (vs + more)[..ListedViolations] == vs[..ListedViolations] == Listed(vs);
  }
}
