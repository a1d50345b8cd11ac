// The audit assembler: it collects the scans of an audit case, counts their
// verdicts, writes the executive summary, orders the findings and the
// recommendations, assembles the four-section report outline and renders it
// as HTML blocks.

module ReportGeneration {
  import opened Common
  import AuditOrchestration

  /** A `compliance_scans` row as the report reads it: the regulation id and
      the parsed `final_verdict` column (JNull when it is NULL). */
  datatype ScanRow = ScanRow(regulationId: Json, finalVerdict: Json)

  const Compliant: Json := JStr("compliant")
  const NonCompliant: Json := JStr("non_compliant")
  const Partial: Json := JStr("partial")
  const Unknown: Json := JStr("unknown")

  lemma VerdictsDistinct()
    ensures Compliant != NonCompliant && Compliant != Partial && NonCompliant != Partial
  {
    assert |Compliant.s| == 9 && |NonCompliant.s| == 13 && |Partial.s| == 7;
  }

  /** `scan.get("final_verdict", {})`, which must be a dict for `.get` to
      follow; a NULL column gives None, and None has no `get`. */
  function VerdictFields(scan: ScanRow): (r: Result<map<string, Json>>)
    ensures r.Ok? <==> scan.finalVerdict.JObject?
    ensures r.Ok? ==> r.value == scan.finalVerdict.fields
    ensures r.Err? ==> r.error.AttributeError?
  {
    if scan.finalVerdict.JObject? then Ok(scan.finalVerdict.fields)
    else Err(AttributeError("object has no attribute 'get'"))
  }

  /** `[s.get("final_verdict", {}).get("final_verdict", "unknown") for s in scans]` */
  function Verdicts(scans: seq<ScanRow>): (r: Result<seq<Json>>)
    ensures r.Ok? <==> forall i :: 0 <= i < |scans| ==> scans[i].finalVerdict.JObject?
    ensures r.Err? ==> r.error.AttributeError?
    ensures r.Ok? ==> |r.value| == |scans|
    ensures r.Ok? ==> forall i :: 0 <= i < |scans| ==> r.value[i] == Get(scans[i].finalVerdict.fields, "final_verdict", Unknown)
  {
    if scans == [] then Ok([])
    else match VerdictFields(scans[0])
      case Err(e) => Err(e)
      case Ok(fields) =>
        match Verdicts(scans[1..])
        case Err(e) => Err(e)
        case Ok(rest) => Ok([Get(fields, "final_verdict", Unknown)] + rest)
  }

  /** `list.count(v)` */
  function Count(vs: seq<Json>, v: Json): (n: nat)
    ensures n <= |vs|
  {
    if vs == [] then 0 else (if vs[0] == v then 1 else 0) + Count(vs[1..], v)
  }

  /** Three different values occur at most as often, together, as the list
      is long. */
  lemma {:induction false} CountsWithinTotal(vs: seq<Json>, a: Json, b: Json, c: Json)
    requires a != b && a != c && b != c
    ensures Count(vs, a) + Count(vs, b) + Count(vs, c) <= |vs|
  {
    if vs != [] {
      CountsWithinTotal(vs[1..], a, b, c);
    }
  }

  // ------------------------------------------------------------ coverage

  /** `part / whole * 100` */
  function Percent(part: nat, whole: nat): real
    requires whole > 0
  {
    part as real / whole as real * 100.0
  }

  lemma PercentBounds(part: nat, whole: nat)
    requires 0 < whole && part <= whole
    ensures 0.0 <= Percent(part, whole) <= 100.0
  {
    var q := part as real / whole as real;
    assert q * whole as real == part as real;
  }

  /** `(part / whole * 100) if whole > 0 else 0` */
  function Rate(part: nat, whole: nat): (r: real)
    requires part <= whole
    ensures 0.0 <= r <= 100.0
    ensures whole == 0 ==> r == 0.0
    ensures whole > 0 && part == whole ==> r == 100.0
  {
    if whole == 0 then 0.0
    else
      PercentBounds(part, whole);
      Percent(part, whole)
  }

  datatype Coverage = Coverage(total: nat, compliant: nat, nonCompliant: nat, partial: nat, rate: real)

  /** `_analyze_coverage`: the verdict counts over the collected scans and the
      compliance rate, which is 0 without scans. */
  function CoverageOf(scans: seq<ScanRow>): (r: Result<Coverage>)
    ensures r.Ok? <==> Verdicts(scans).Ok?
    ensures r.Ok? ==> && r.value.total == |scans|
                      && r.value.compliant + r.value.nonCompliant + r.value.partial <= r.value.total
                      && 0.0 <= r.value.rate <= 100.0
                      && (r.value.total == 0 ==> r.value.rate == 0.0)
                      && r.value.compliant == Count(Verdicts(scans).value, Compliant)
  {
    match Verdicts(scans)
    case Err(e) => Err(e)
    case Ok(vs) =>
      var total := |scans|;
      var c := Count(vs, Compliant);
      VerdictsDistinct();
      CountsWithinTotal(vs, Compliant, NonCompliant, Partial);
      Ok(Coverage(total, c, Count(vs, NonCompliant), Count(vs, Partial), Rate(c, total)))
  }

  function CoverageJson(c: Coverage): Json {
    JObject(map["total_rules_checked" := JNum(c.total as real), "compliant" := JNum(c.compliant as real),
                "non_compliant" := JNum(c.nonCompliant as real), "partial" := JNum(c.partial as real),
                "compliance_rate" := JNum(c.rate)])
  }

  // ------------------------------------------------------ executive summary

  /** The figures the executive summary states. */
  datatype Summary = Summary(total: nat, compliant: nat, compliantPercent: real, nonCompliant: nat,
                             nonCompliantPercent: real, partial: nat)

  /** `_generate_executive_summary` as written: both percentages divide by
      the number of scans, unguarded. */
  function ExecutiveSummaryAsWritten(scans: seq<ScanRow>): (r: Result<Summary>)
    ensures scans == [] ==> r == Err(ZeroDivisionError)
    ensures r.Ok? <==> scans != [] && Verdicts(scans).Ok?
    ensures r.Ok? ==> && r.value.total == |scans|
                      && r.value.compliant + r.value.nonCompliant + r.value.partial <= r.value.total
  {
    match Verdicts(scans)
    case Err(e) => Err(e)
    case Ok(vs) =>
      var total := |scans|;
      if total == 0 then Err(ZeroDivisionError)
      else
        VerdictsDistinct();
        CountsWithinTotal(vs, Compliant, NonCompliant, Partial);
        var c := Count(vs, Compliant);
        var n := Count(vs, NonCompliant);
        Ok(Summary(total, c, Percent(c, total), n, Percent(n, total), Count(vs, Partial)))
  }

  /** An audit without scans cannot be summarised as written. */
  lemma NoScansDivideByZero()
    ensures ExecutiveSummaryAsWritten([]) == Err(ZeroDivisionError)
  {
  }

  /** The summary with the guard the coverage already has: no scans give
      0 percent. */
  function ExecutiveSummary(scans: seq<ScanRow>): (r: Result<Summary>)
    ensures r.Ok? <==> Verdicts(scans).Ok?
    ensures r.Ok? ==> && r.value.total == |scans|
                      && r.value.compliant + r.value.nonCompliant + r.value.partial <= r.value.total
                      && 0.0 <= r.value.compliantPercent <= 100.0 && 0.0 <= r.value.nonCompliantPercent <= 100.0
  {
    match Verdicts(scans)
    case Err(e) => Err(e)
    case Ok(vs) =>
      var total := |scans|;
      var c := Count(vs, Compliant);
      var n := Count(vs, NonCompliant);
      VerdictsDistinct();
      CountsWithinTotal(vs, Compliant, NonCompliant, Partial);
      if total == 0 then Ok(Summary(0, 0, 0.0, 0, 0.0, 0))
      else
        PercentBounds(c, total);
        PercentBounds(n, total);
        Ok(Summary(total, c, Percent(c, total), n, Percent(n, total), Count(vs, Partial)))
  }

  /** The guarded summary fails only where the coverage fails, and agrees
      with the one as written whenever there is a scan. */
  lemma SummaryGuarded(scans: seq<ScanRow>)
    ensures ExecutiveSummary(scans).Ok? <==> CoverageOf(scans).Ok?
    ensures scans != [] ==> ExecutiveSummary(scans) == ExecutiveSummaryAsWritten(scans)
  {
  }

  const SummaryOpening: string := "This compliance audit assessed "
  const SummaryResults: string := " regulatory requirements.\n\nResults:\n- Compliant: "
  const SummaryNonCompliant: string := "%)\n- Non-Compliant: "
  const SummaryPartial: string := "%)\n- Partial Compliance: "
  const CriticalLine: string := "Critical issues require immediate attention."
  const NoGapsLine: string := "No critical compliance gaps identified."

  /** The summary text; `percent` is the `:.1f` rendering of a percentage. */
  function SummaryText(s: Summary, percent: real -> string): (text: string)
    ensures StartsWith(text, SummaryOpening)
    ensures EndsWith(text, if s.nonCompliant > 0 then CriticalLine else NoGapsLine)
  {
    var closing := if s.nonCompliant > 0 then CriticalLine else NoGapsLine;
    var body := SummaryOpening + NatToString(s.total) + SummaryResults + NatToString(s.compliant) + " ("
      + percent(s.compliantPercent) + SummaryNonCompliant + NatToString(s.nonCompliant) + " ("
      + percent(s.nonCompliantPercent) + SummaryPartial + NatToString(s.partial) + "\n\n";
    assert (body + closing)[..|SummaryOpening|] == SummaryOpening;
    body + closing
  }

  // ------------------------------------------------------------- findings

  /** One entry of the detailed findings. */
  datatype FindingEntry = FindingEntry(regulation: Json, verdict: Json, reason: Json, evidenceCount: Json, confidence: Json)

  function FindingOf(scan: ScanRow, verdict: map<string, Json>): FindingEntry {
    FindingEntry(scan.regulationId, Get(verdict, "final_verdict", JNull), Get(verdict, "reason", JStr("")),
                 Get(verdict, "evidence_count", JNum(0.0)), Get(verdict, "confidence", JNum(0.0)))
  }

  predicate IsIssue(v: Json) {
    v == NonCompliant || v == Partial
  }

  /** The findings `_organize_findings` collects before sorting: one per
      non-compliant or partial scan, in scan order. */
  function Issues(scans: seq<ScanRow>): (r: Result<seq<FindingEntry>>)
    ensures r.Ok? <==> Verdicts(scans).Ok?
    ensures r.Ok? ==> |r.value| <= |scans| && forall i :: 0 <= i < |r.value| ==> IsIssue(r.value[i].verdict)
  {
    if scans == [] then Ok([])
    else match VerdictFields(scans[0])
      case Err(e) => Err(e)
      case Ok(fields) =>
        match Issues(scans[1..])
        case Err(e) => Err(e)
        case Ok(rest) =>
          var f := FindingOf(scans[0], fields);
          Ok(if IsIssue(f.verdict) then [f] + rest else rest)
  }

  /** The sort key: non-compliant findings first. */
  function SortKey(f: FindingEntry): nat {
    if f.verdict == NonCompliant then 0 else 1
  }

  /** Insertion in front of the first entry whose key is not smaller, so that
      an entry stays ahead of the equal-keyed ones after it. */
  function Insert(f: FindingEntry, sorted: seq<FindingEntry>): seq<FindingEntry> {
    if sorted == [] || SortKey(f) <= SortKey(sorted[0]) then [f] + sorted
    else [sorted[0]] + Insert(f, sorted[1..])
  }

  /** `list.sort(key=...)`: a stable sort by key. */
  function SortByKey(fs: seq<FindingEntry>): seq<FindingEntry> {
    if fs == [] then [] else Insert(fs[0], SortByKey(fs[1..]))
  }

  /** The entries with sort key `k`, in their order. */
  function WithKey(fs: seq<FindingEntry>, k: nat): (r: seq<FindingEntry>)
    ensures forall i :: 0 <= i < |r| ==> SortKey(r[i]) == k
  {
    if fs == [] then [] else (if SortKey(fs[0]) == k then [fs[0]] else []) + WithKey(fs[1..], k)
  }

  /** A key-1 entry inserted into key-0 entries followed by key-1 entries goes
      between them. */
  lemma {:induction false} InsertAfterZeros(f: FindingEntry, zeros: seq<FindingEntry>, ones: seq<FindingEntry>)
    requires SortKey(f) == 1
    requires forall i :: 0 <= i < |zeros| ==> SortKey(zeros[i]) == 0
    requires forall i :: 0 <= i < |ones| ==> SortKey(ones[i]) == 1
    ensures Insert(f, zeros + ones) == zeros + [f] + ones
  {
    if zeros != [] {
      assert (zeros + ones)[0] == zeros[0];
      assert (zeros + ones)[1..] == zeros[1..] + ones;
      InsertAfterZeros(f, zeros[1..], ones);
      assert [zeros[0]] + (zeros[1..] + [f] + ones) == zeros + [f] + ones;
    }
  }

  /** The stable sort puts the non-compliant entries first and the rest
      after them, each group in its original order. */
  lemma {:induction false} SortIsPartition(fs: seq<FindingEntry>)
    ensures SortByKey(fs) == WithKey(fs, 0) + WithKey(fs, 1)
  {
    if fs != [] {
      SortIsPartition(fs[1..]);
      var zeros, ones := WithKey(fs[1..], 0), WithKey(fs[1..], 1);
      if SortKey(fs[0]) == 0 {
        assert SortByKey(fs) == [fs[0]] + (zeros + ones);
        AppendAssoc([fs[0]], zeros, ones);
      } else {
        InsertAfterZeros(fs[0], zeros, ones);
        AppendAssoc(zeros, [fs[0]], ones);
      }
    }
  }

  /** The two groups hold every entry exactly once. */
  lemma {:induction false} PartitionIsPermutation(fs: seq<FindingEntry>)
    ensures multiset(WithKey(fs, 0) + WithKey(fs, 1)) == multiset(fs)
  {
    if fs != [] {
      PartitionIsPermutation(fs[1..]);
      assert fs == [fs[0]] + fs[1..];
    }
  }

  /** `_organize_findings`: the issues, non-compliant ones first. */
  function OrganizeFindings(scans: seq<ScanRow>): (r: Result<seq<FindingEntry>>)
    ensures r.Ok? <==> Verdicts(scans).Ok?
  {
    match Issues(scans)
    case Err(e) => Err(e)
    case Ok(fs) => Ok(SortByKey(fs))
  }

  /** The organised findings are the issues, reordered so that the
      non-compliant ones come first, each group in scan order. */
  lemma OrganizedFindings(scans: seq<ScanRow>)
    requires Verdicts(scans).Ok?
    ensures var fs := Issues(scans).value;
      && OrganizeFindings(scans).value == WithKey(fs, 0) + WithKey(fs, 1)
      && multiset(OrganizeFindings(scans).value) == multiset(fs)
  {
    SortIsPartition(Issues(scans).value);
    PartitionIsPermutation(Issues(scans).value);
  }

  // ------------------------------------------------------ recommendations

  const DefaultRecommendation: string := "Maintain current compliance posture"
  const AddressPrefix: string := "Address: "

  /** `str(j)`; `render` is Python's rendering of a number, list or dict. */
  function Display(j: Json, render: Json -> string): string {
    match j
    case JStr(s) => s
    case JNull => "None"
    case JBool(b) => if b then "True" else "False"
    case _ => render(j)
  }

  /** One `Address: {reason}` line per non-compliant scan, in scan order. */
  function AddressLines(scans: seq<ScanRow>, render: Json -> string): (r: Result<seq<string>>)
    ensures r.Ok? <==> Verdicts(scans).Ok?
    ensures r.Ok? ==> |r.value| == Count(Verdicts(scans).value, NonCompliant)
    ensures r.Ok? ==> forall i :: 0 <= i < |r.value| ==> StartsWith(r.value[i], AddressPrefix)
  {
    if scans == [] then Ok([])
    else match VerdictFields(scans[0])
      case Err(e) => Err(e)
      case Ok(fields) =>
        match AddressLines(scans[1..], render)
        case Err(e) => Err(e)
        case Ok(rest) =>
          var line := AddressPrefix + Display(Get(fields, "reason", JStr("")), render);
          assert line[..|AddressPrefix|] == AddressPrefix;
          assert Verdicts(scans).value == [Get(fields, "final_verdict", Unknown)] + Verdicts(scans[1..]).value;
          Ok(if Get(fields, "final_verdict", JNull) == NonCompliant then [line] + rest else rest)
  }

  /** `_generate_recommendations`: the address lines, or the default line
      when there are none, and at most ten. */
  function Recommendations(scans: seq<ScanRow>, render: Json -> string): (r: Result<seq<string>>)
    ensures r.Ok? <==> Verdicts(scans).Ok?
    ensures r.Ok? ==> 1 <= |r.value| <= 10
  {
    match AddressLines(scans, render)
    case Err(e) => Err(e)
    case Ok(lines) =>
      var recs := if lines == [] then [DefaultRecommendation] else lines;
      Ok(if |recs| > 10 then recs[..10] else recs)
  }

  lemma PrefixHead(s: string, prefix: string)
    requires StartsWith(s, prefix) && prefix != []
    ensures s[0] == prefix[0]
  {
    assert s[..|prefix|][0] == s[0];
  }

  /** The default line appears exactly when no scan is non-compliant;
      otherwise the lines are the first (up to ten) address lines. */
  lemma RecommendationsMeaning(scans: seq<ScanRow>, render: Json -> string)
    requires Verdicts(scans).Ok?
    ensures var n := Count(Verdicts(scans).value, NonCompliant);
      var recs := Recommendations(scans, render).value;
      && (n == 0 <==> recs == [DefaultRecommendation])
      && (n > 0 ==> |recs| == (if n < 10 then n else 10) && recs == AddressLines(scans, render).value[..|recs|])
  {
    var lines := AddressLines(scans, render).value;
    var recs := Recommendations(scans, render).value;
    if lines != [] {
      assert StartsWith(recs[0], AddressPrefix);
      PrefixHead(recs[0], AddressPrefix);
      assert AddressPrefix[0] == 'A' && DefaultRecommendation[0] == 'M';
    }
  }

  // ----------------------------------------------------- collecting scans

  /** The scan an id names: a string that parses as a UUID and is found;
      anything else is skipped (the exception is caught and logged). */
  function Found(id: Json, isUuid: string -> bool, lookup: string -> Option<ScanRow>): (r: seq<ScanRow>)
    ensures |r| <= 1
  {
    if id.JStr? && isUuid(id.s) && lookup(id.s).Some? then [lookup(id.s).value] else []
  }

  /** The scans `_collect_scan_results` gathers, in id order. */
  function Collected(ids: seq<Json>, isUuid: string -> bool, lookup: string -> Option<ScanRow>): (r: seq<ScanRow>)
    ensures |r| <= |ids|
  {
    if ids == [] then [] else Collected(ids[..|ids| - 1], isUuid, lookup) + Found(ids[|ids| - 1], isUuid, lookup)
  }

  /** When every id is a valid, stored scan id, each is collected, in order. */
  lemma {:induction false} CollectedAll(ids: seq<Json>, isUuid: string -> bool, lookup: string -> Option<ScanRow>)
    requires forall i :: 0 <= i < |ids| ==> ids[i].JStr? && isUuid(ids[i].s) && lookup(ids[i].s).Some?
    ensures var r := Collected(ids, isUuid, lookup);
      |r| == |ids| && forall i :: 0 <= i < |ids| ==> r[i] == lookup(ids[i].s).value
  {
    if ids != [] {
      CollectedAll(ids[..|ids| - 1], isUuid, lookup);
    }
  }

  /** When no id names a stored scan, nothing is collected. */
  lemma {:induction false} CollectedNone(ids: seq<Json>, isUuid: string -> bool, lookup: string -> Option<ScanRow>)
    requires forall i :: 0 <= i < |ids| ==> Found(ids[i], isUuid, lookup) == []
    ensures Collected(ids, isUuid, lookup) == []
  {
    if ids != [] {
      CollectedNone(ids[..|ids| - 1], isUuid, lookup);
    }
  }

  /** `_collect_scan_results` */
  method CollectScanResults(ids: seq<Json>, isUuid: string -> bool, lookup: string -> Option<ScanRow>) returns (results: seq<ScanRow>)
    ensures results == Collected(ids, isUuid, lookup)
  {
    results := [];
    for i := 0 to |ids|
      invariant results == Collected(ids[..i], isUuid, lookup)
    {
      assert ids[..i + 1][..i] == ids[..i];
      var id := ids[i];
      if id.JStr? && isUuid(id.s) {
        var scan := lookup(id.s);
        if scan.Some? {
          results := results + [scan.value];
        }
      }
    }
    assert ids[..|ids|] == ids;
  }

  // --------------------------------------------------------------- outline

  const SummaryTitle: string := "Executive Summary"
  const OverviewTitle: string := "Compliance Overview"
  const FindingsTitle: string := "Detailed Findings"
  const RecommendationsTitle: string := "Recommendations"
  const SummaryType: string := "summary"
  const OverviewType: string := "overview"
  const FindingsType: string := "findings"
  const RecommendationsType: string := "recommendations"

  function SectionJson(title: string, kind: string, content: Json): Json {
    JObject(map["title" := JStr(title), "type" := JStr(kind), "content" := content])
  }

  function FindingJson(f: FindingEntry): Json {
    JObject(map["regulation" := f.regulation, "verdict" := f.verdict, "reason" := f.reason,
                "evidence_count" := f.evidenceCount, "confidence" := f.confidence])
  }

  /** The four sections around their contents, in their fixed order. */
  function SectionsJson(summary: Json, overview: Json, findings: Json, recs: Json): seq<Json> {
    [SectionJson(SummaryTitle, SummaryType, summary), SectionJson(OverviewTitle, OverviewType, overview),
     SectionJson(FindingsTitle, FindingsType, findings), SectionJson(RecommendationsTitle, RecommendationsType, recs)]
  }

  function MetadataJson(caseId: string, totalScans: nat, generatedAt: string): Json {
    JObject(map["case_id" := JStr(caseId), "generated_at" := JStr(generatedAt), "total_scans" := JNum(totalScans as real)])
  }

  function OutlineObject(sections: seq<Json>, coverage: Json, metadata: Json): Json {
    JObject(map["sections" := JList(sections), "coverage_summary" := coverage, "metadata" := metadata])
  }

  function FindingsListJson(findings: seq<FindingEntry>): Json {
    JList(seq(|findings|, i requires 0 <= i < |findings| => FindingJson(findings[i])))
  }

  function RecommendationsListJson(recs: seq<string>): Json {
    JList(seq(|recs|, i requires 0 <= i < |recs| => JStr(recs[i])))
  }

  /** The outline's JSON: the four sections, the coverage and the metadata. */
  function OutlineJson(caseId: string, totalScans: nat, coverage: Coverage, summary: string,
                       findings: seq<FindingEntry>, recs: seq<string>, generatedAt: string): Json
  {
    OutlineObject(SectionsJson(JStr(summary), CoverageJson(coverage), FindingsListJson(findings), RecommendationsListJson(recs)),
                  CoverageJson(coverage), MetadataJson(caseId, totalScans, generatedAt))
  }

  /** `build_report_outline` with the guarded summary. `isUuid` and `lookup`
      stand for the UUID parse and the scan table, `percent` and `render`
      for Python's number formatting. */
  function ReportOutline(caseId: string, scanIds: seq<Json>, isUuid: string -> bool, lookup: string -> Option<ScanRow>,
                         percent: real -> string, render: Json -> string, generatedAt: string): (r: Result<Json>)
    ensures r.Ok? <==> Verdicts(Collected(scanIds, isUuid, lookup)).Ok?
  {
    var scans := Collected(scanIds, isUuid, lookup);
    match CoverageOf(scans)
    case Err(e) => Err(e)
    case Ok(coverage) =>
      var summary := ExecutiveSummary(scans).value;
      var findings := OrganizeFindings(scans).value;
      var recs := Recommendations(scans, render).value;
      Ok(OutlineJson(caseId, |scanIds|, coverage, SummaryText(summary, percent), findings, recs, generatedAt))
  }

  /** `build_report_outline` as written, with the unguarded summary. */
  function ReportOutlineAsWritten(caseId: string, scanIds: seq<Json>, isUuid: string -> bool, lookup: string -> Option<ScanRow>,
                                  percent: real -> string, render: Json -> string, generatedAt: string): (r: Result<Json>)
    ensures r.Ok? ==> Collected(scanIds, isUuid, lookup) != []
  {
    var scans := Collected(scanIds, isUuid, lookup);
    match CoverageOf(scans)
    case Err(e) => Err(e)
    case Ok(coverage) =>
      match ExecutiveSummaryAsWritten(scans)
      case Err(e) => Err(e)
      case Ok(summary) =>
        var findings := OrganizeFindings(scans).value;
        var recs := Recommendations(scans, render).value;
        Ok(OutlineJson(caseId, |scanIds|, coverage, SummaryText(summary, percent), findings, recs, generatedAt))
  }

  /** As written, an outline over ids none of which names a stored scan
      fails with a division by zero; the guarded one succeeds. */
  lemma NothingFoundFails(caseId: string, scanIds: seq<Json>, isUuid: string -> bool, lookup: string -> Option<ScanRow>,
                          percent: real -> string, render: Json -> string, generatedAt: string)
    requires forall i :: 0 <= i < |scanIds| ==> Found(scanIds[i], isUuid, lookup) == []
    ensures ReportOutlineAsWritten(caseId, scanIds, isUuid, lookup, percent, render, generatedAt) == Err(ZeroDivisionError)
    ensures ReportOutline(caseId, scanIds, isUuid, lookup, percent, render, generatedAt).Ok?
  {
    CollectedNone(scanIds, isUuid, lookup);
  }

  /** With at least one scan collected, both outlines agree. */
  lemma OutlinesAgree(caseId: string, scanIds: seq<Json>, isUuid: string -> bool, lookup: string -> Option<ScanRow>,
                      percent: real -> string, render: Json -> string, generatedAt: string)
    requires Collected(scanIds, isUuid, lookup) != []
    ensures ReportOutlineAsWritten(caseId, scanIds, isUuid, lookup, percent, render, generatedAt)
         == ReportOutline(caseId, scanIds, isUuid, lookup, percent, render, generatedAt)
  {
    SummaryGuarded(Collected(scanIds, isUuid, lookup));
  }

  /** The ids of a `scan_ids` list (the workflow only ever records lists). */
  function IdList(j: Json): seq<Json> {
    if j.JList? then j.items else []
  }

  /** The audit workflow's report step as written: the scan ids it reads are
      never recorded, so the outline is built from none and divides by
      zero; every audit therefore ends `failed` at the report step. */
  lemma AuditReportStepFails(row: AuditOrchestration.CaseRow, r0: AuditOrchestration.Object, r1: AuditOrchestration.Object,
                             r2: AuditOrchestration.Object, clock: nat, caseId: string, isUuid: string -> bool,
                             lookup: string -> Option<ScanRow>, percent: real -> string, render: Json -> string, generatedAt: string)
    requires AuditOrchestration.StepColumnsOnly(row)
    ensures var row3 := AuditOrchestration.Marked(AuditOrchestration.Marked(AuditOrchestration.Marked(
                          row, AuditOrchestration.RuleIngestion, r0, clock), AuditOrchestration.CodeScanning, r1, clock),
                          AuditOrchestration.ComplianceChecking, r2, clock);
      ReportOutlineAsWritten(caseId, IdList(AuditOrchestration.ReportScanIdsAsWritten(row3)), isUuid, lookup, percent, render, generatedAt)
        == Err(ZeroDivisionError)
  {
    var row3 := AuditOrchestration.Marked(AuditOrchestration.Marked(AuditOrchestration.Marked(
                  row, AuditOrchestration.RuleIngestion, r0, clock), AuditOrchestration.CodeScanning, r1, clock),
                  AuditOrchestration.ComplianceChecking, r2, clock);
    AuditOrchestration.ReportAfterStepsSeesNoScans(row, r0, r1, r2, clock);
    var ids := IdList(AuditOrchestration.ReportScanIdsAsWritten(row3));
    assert ids == [];
    NothingFoundFails(caseId, ids, isUuid, lookup, percent, render, generatedAt);
  }

  const Titles: seq<string> := [SummaryTitle, OverviewTitle, FindingsTitle, RecommendationsTitle]
  const Kinds: seq<string> := [SummaryType, OverviewType, FindingsType, RecommendationsType]

  predicate SectionIs(sec: Json, title: string, kind: string) {
    sec.JObject? && "title" in sec.fields && "type" in sec.fields
    && sec.fields["title"] == JStr(title) && sec.fields["type"] == JStr(kind)
  }

  lemma SectionFields(title: string, kind: string, content: Json)
    ensures SectionIs(SectionJson(title, kind, content), title, kind)
    ensures "content" in SectionJson(title, kind, content).fields && SectionJson(title, kind, content).fields["content"] == content
  {
    var keys: seq<string> := ["title", "type", "content"];
    assert |keys[0]| == 5 && |keys[1]| == 4 && |keys[2]| == 7;
  }

  /** The outline's sections in order, and its scan count. */
  predicate ShapedOutline(o: Json, totalScans: nat) {
    && o.JObject? && "sections" in o.fields && "metadata" in o.fields
    && o.fields["sections"].JList? && |o.fields["sections"].items| == 4
    && (forall k :: 0 <= k < 4 ==> SectionIs(o.fields["sections"].items[k], Titles[k], Kinds[k]))
    && o.fields["metadata"].JObject? && "total_scans" in o.fields["metadata"].fields
    && o.fields["metadata"].fields["total_scans"] == JNum(totalScans as real)
  }

  lemma OutlineObjectFields(sections: seq<Json>, coverage: Json, metadata: Json)
    ensures var o := OutlineObject(sections, coverage, metadata);
      "sections" in o.fields && o.fields["sections"] == JList(sections)
      && "metadata" in o.fields && o.fields["metadata"] == metadata
  {
    var keys: seq<string> := ["sections", "coverage_summary", "metadata"];
    assert |keys[0]| == 8 && |keys[1]| == 16 && |keys[2]| == 8 && keys[0][0] != keys[2][0];
  }

  lemma MetadataFields(caseId: string, totalScans: nat, generatedAt: string)
    ensures var m := MetadataJson(caseId, totalScans, generatedAt);
      m.JObject? && "total_scans" in m.fields && m.fields["total_scans"] == JNum(totalScans as real)
  {
    var keys: seq<string> := ["case_id", "generated_at", "total_scans"];
    assert |keys[0]| == 7 && |keys[1]| == 12 && |keys[2]| == 11;
  }

  lemma SectionsShaped(summary: Json, overview: Json, findings: Json, recs: Json)
    ensures var sections := SectionsJson(summary, overview, findings, recs);
      |sections| == 4 && forall k :: 0 <= k < 4 ==> SectionIs(sections[k], Titles[k], Kinds[k])
  {
    SectionFields(SummaryTitle, SummaryType, summary);
    SectionFields(OverviewTitle, OverviewType, overview);
    SectionFields(FindingsTitle, FindingsType, findings);
    SectionFields(RecommendationsTitle, RecommendationsType, recs);
  }

  lemma OutlineJsonShape(caseId: string, totalScans: nat, coverage: Coverage, summary: string,
                         findings: seq<FindingEntry>, recs: seq<string>, generatedAt: string)
    ensures ShapedOutline(OutlineJson(caseId, totalScans, coverage, summary, findings, recs, generatedAt), totalScans)
  {
    var sections := SectionsJson(JStr(summary), CoverageJson(coverage), FindingsListJson(findings), RecommendationsListJson(recs));
    SectionsShaped(JStr(summary), CoverageJson(coverage), FindingsListJson(findings), RecommendationsListJson(recs));
    OutlineObjectFields(sections, CoverageJson(coverage), MetadataJson(caseId, totalScans, generatedAt));
    MetadataFields(caseId, totalScans, generatedAt);
  }

  /** The outline has the four sections in their fixed order, and counts the
      ids it was given, found or not. */
  lemma OutlineShape(caseId: string, scanIds: seq<Json>, isUuid: string -> bool, lookup: string -> Option<ScanRow>,
                     percent: real -> string, render: Json -> string, generatedAt: string)
    requires ReportOutline(caseId, scanIds, isUuid, lookup, percent, render, generatedAt).Ok?
    ensures ShapedOutline(ReportOutline(caseId, scanIds, isUuid, lookup, percent, render, generatedAt).value, |scanIds|)
  {
    var scans := Collected(scanIds, isUuid, lookup);
    OutlineJsonShape(caseId, |scanIds|, CoverageOf(scans).value, SummaryText(ExecutiveSummary(scans).value, percent),
                     OrganizeFindings(scans).value, Recommendations(scans, render).value, generatedAt);
  }

  // ------------------------------------------------------------------ HTML

  /** What the HTML report shows, block by block: a heading per section, the
      summary text, a findings table with its row count and a list with its
      item count. */
  datatype Block = Heading(title: Json) | SummaryBlock(content: Json) | FindingsTable(rows: nat) | RecommendationList(items: nat)

  /** `report_data.get("sections", []) if report_data else []`, and what
      iterating it yields. */
  function SectionsOf(report: Json): (r: Result<seq<Json>>)
    ensures !Truthy(report) ==> r == Ok([])
  {
    if !Truthy(report) then Ok([])
    else if !report.JObject? then Err(AttributeError("object has no attribute 'get'"))
    else match Get(report.fields, "sections", JList([]))
      case JList(items) => Ok(items)
      case JStr(t) => if t == [] then Ok([]) else Err(TypeError("string indices must be integers"))
      case JObject(f) => if f == map[] then Ok([]) else Err(TypeError("string indices must be integers"))
      case _ => Err(TypeError("object is not iterable"))
  }

  /** A findings row needs the regulation, verdict and reason keys. */
  function RowCheck(f: Json): Result<()> {
    if !f.JObject? then Err(TypeError("object is not subscriptable"))
    else if "regulation" !in f.fields then Err(KeyError("regulation"))
    else if "verdict" !in f.fields then Err(KeyError("verdict"))
    else if "reason" !in f.fields then Err(KeyError("reason"))
    else Ok(())
  }

  function RowsCheck(rows: seq<Json>): (r: Result<()>)
    ensures r.Ok? <==> forall i :: 0 <= i < |rows| ==> RowCheck(rows[i]).Ok?
  {
    if rows == [] then Ok(())
    else if RowCheck(rows[0]).Err? then RowCheck(rows[0])
    else RowsCheck(rows[1..])
  }

  /** The blocks of one section, or the error its rendering raises. */
  function SectionBlocks(section: Json): Result<seq<Block>> {
    if !section.JObject? then Err(TypeError("object is not subscriptable"))
    else if "title" !in section.fields then Err(KeyError("title"))
    else if "type" !in section.fields then Err(KeyError("type"))
    else
      var heading := Heading(section.fields["title"]);
      var kind := section.fields["type"];
      if kind != JStr(SummaryType) && kind != JStr(FindingsType) && kind != JStr(RecommendationsType) then Ok([heading])
      else if "content" !in section.fields then Err(KeyError("content"))
      else
        var content := section.fields["content"];
        if kind == JStr(SummaryType) then Ok([heading, SummaryBlock(content)])
        else if kind == JStr(FindingsType) then FindingsBlocks(heading, content)
        else RecommendationBlocks(heading, content)
  }

  /** A findings section: a table when there are rows. */
  function FindingsBlocks(heading: Block, content: Json): Result<seq<Block>> {
    if !Truthy(content) then Ok([heading])
    else match content
      case JList(rows) => if RowsCheck(rows).Err? then Err(RowsCheck(rows).error) else Ok([heading, FindingsTable(|rows|)])
      case _ => Err(TypeError("string indices must be integers"))
  }

  /** A recommendations section: a list when there are items. */
  function RecommendationBlocks(heading: Block, content: Json): Result<seq<Block>> {
    if !Truthy(content) then Ok([heading])
    else match content
      case JList(items) => Ok([heading, RecommendationList(|items|)])
      case JStr(t) => Ok([heading, RecommendationList(|t|)])
      case JObject(f) => Ok([heading, RecommendationList(|f.Keys|)])
      case _ => Err(TypeError("object is not iterable"))
  }

  /** The blocks of the sections in order; the first error ends the report. */
  function BlocksOf(sections: seq<Json>): Result<seq<Block>> {
    if sections == [] then Ok([])
    else match BlocksOf(sections[..|sections| - 1])
      case Err(e) => Err(e)
      case Ok(before) =>
        match SectionBlocks(sections[|sections| - 1])
        case Err(e) => Err(e)
        case Ok(more) => Ok(before + more)
  }

  function HtmlBlocks(report: Json): Result<seq<Block>> {
    match SectionsOf(report)
    case Err(e) => Err(e)
    case Ok(sections) => BlocksOf(sections)
  }

  /** `_build_html_template`: the page grows section by section. */
  method BuildHtml(report: Json) returns (r: Result<seq<Block>>)
    ensures r == HtmlBlocks(report)
  {
    var sections := SectionsOf(report);
    if sections.Err? {
      return Err(sections.error);
    }
    var ss := sections.value;
    var html: seq<Block> := [];
    for i := 0 to |ss|
      invariant BlocksOf(ss[..i]) == Ok(html)
    {
      assert ss[..i + 1][..i] == ss[..i];
      var more := SectionBlocks(ss[i]);
      if more.Err? {
        assert BlocksOf(ss[..i + 1]) == Err(more.error);
        PrefixErrorStays(ss, i + 1);
        assert ss[..|ss|] == ss;
        return Err(more.error);
      }
      html := html + more.value;
    }
    assert ss[..|ss|] == ss;
    r := Ok(html);
  }

  /** Once a prefix of the sections fails, the whole rendering fails the
      same way. */
  lemma {:induction false} PrefixErrorStays(ss: seq<Json>, n: nat)
    requires n <= |ss| && BlocksOf(ss[..n]).Err?
    ensures BlocksOf(ss) == BlocksOf(ss[..n])
    decreases |ss| - n
  {
    if n < |ss| {
      assert ss[..n + 1][..n] == ss[..n];
      PrefixErrorStays(ss, n + 1);
    } else {
      assert ss[..n] == ss;
    }
  }

  /** `generate_html_report`: an unknown case raises ValueError; a case
      without report data renders no sections. */
  method GenerateHtmlReport(cases: map<string, AuditOrchestration.CaseRow>, caseId: string) returns (r: Result<seq<Block>>)
    ensures caseId !in cases ==> r.Err? && r.error.ValueError?
    ensures caseId in cases ==> r == HtmlBlocks(match cases[caseId].reportData case Some(d) => d case None => JNull)
  {
    if caseId !in cases {
      return Err(ValueError("Case " + caseId + " not found"));
    }
    var data := match cases[caseId].reportData case Some(d) => d case None => JNull;
    r := BuildHtml(data);
  }

  // ------------------------------------------------ outline to HTML blocks

  lemma KindsDistinct()
    ensures JStr(OverviewType) != JStr(SummaryType) && JStr(OverviewType) != JStr(FindingsType)
    ensures JStr(OverviewType) != JStr(RecommendationsType) && JStr(FindingsType) != JStr(SummaryType)
    ensures JStr(RecommendationsType) != JStr(SummaryType) && JStr(RecommendationsType) != JStr(FindingsType)
  {
    assert OverviewType[0] == 'o' && FindingsType[0] == 'f' && SummaryType[0] == 's' && RecommendationsType[0] == 'r';
  }

  lemma FindingRowsRender(findings: seq<FindingEntry>)
    ensures var rows := seq(|findings|, i requires 0 <= i < |findings| => FindingJson(findings[i]));
      RowsCheck(rows).Ok?
  {
    var rows := seq(|findings|, i requires 0 <= i < |findings| => FindingJson(findings[i]));
    var keys: seq<string> := ["regulation", "verdict", "reason"];
    forall i | 0 <= i < |rows| ensures RowCheck(rows[i]).Ok? {
      assert keys[0] in rows[i].fields && keys[1] in rows[i].fields && keys[2] in rows[i].fields;
    }
  }

  /** The blocks each outline section renders to. */
  lemma SummaryRenders(title: string, content: Json)
    ensures SectionBlocks(SectionJson(title, SummaryType, content)) == Ok([Heading(JStr(title)), SummaryBlock(content)])
  {
    SectionFields(title, SummaryType, content);
  }

  lemma OverviewRenders(title: string, content: Json)
    ensures SectionBlocks(SectionJson(title, OverviewType, content)) == Ok([Heading(JStr(title))])
  {
    SectionFields(title, OverviewType, content);
    KindsDistinct();
  }

  lemma FindingsRender(title: string, rows: seq<Json>)
    requires RowsCheck(rows).Ok?
    ensures SectionBlocks(SectionJson(title, FindingsType, JList(rows)))
         == Ok([Heading(JStr(title))] + (if rows != [] then [FindingsTable(|rows|)] else []))
  {
    var sec := SectionJson(title, FindingsType, JList(rows));
    SectionFields(title, FindingsType, JList(rows));
    KindsDistinct();
    assert SectionBlocks(sec) == FindingsBlocks(Heading(JStr(title)), JList(rows));
    var heading := Heading(JStr(title));
    if rows == [] {
      assert [heading] + [] == [heading];
    } else {
      assert Truthy(JList(rows));
      assert FindingsBlocks(heading, JList(rows)) == Ok([heading, FindingsTable(|rows|)]);
      assert [heading] + [FindingsTable(|rows|)] == [heading, FindingsTable(|rows|)];
    }
  }

  lemma RecommendationsRender(title: string, items: seq<Json>)
    requires items != []
    ensures SectionBlocks(SectionJson(title, RecommendationsType, JList(items))) == Ok([Heading(JStr(title)), RecommendationList(|items|)])
  {
    SectionFields(title, RecommendationsType, JList(items));
    KindsDistinct();
  }

  lemma BlocksOfFour(a: Json, b: Json, c: Json, d: Json)
    requires SectionBlocks(a).Ok? && SectionBlocks(b).Ok? && SectionBlocks(c).Ok? && SectionBlocks(d).Ok?
    ensures BlocksOf([a, b, c, d])
         == Ok(SectionBlocks(a).value + SectionBlocks(b).value + SectionBlocks(c).value + SectionBlocks(d).value)
  {
    var sa, sb, sc, sd := SectionBlocks(a).value, SectionBlocks(b).value, SectionBlocks(c).value, SectionBlocks(d).value;
    assert [a][..0] == [];
    assert BlocksOf([a]) == Ok([] + sa);
    assert [] + sa == sa;
    assert [a, b][..1] == [a];
    assert BlocksOf([a, b]) == Ok(sa + sb);
    assert [a, b, c][..2] == [a, b];
    assert BlocksOf([a, b, c]) == Ok(sa + sb + sc);
    assert [a, b, c, d][..3] == [a, b, c];
  }

  /** The blocks an outline renders to: the summary text, the overview
      heading alone, the findings table when there are findings, and the
      recommendations list, which is never empty. */
  function OutlineBlocks(summary: string, findings: nat, recs: nat): seq<Block> {
    [Heading(JStr(SummaryTitle)), SummaryBlock(JStr(summary)), Heading(JStr(OverviewTitle)), Heading(JStr(FindingsTitle))]
    + (if findings > 0 then [FindingsTable(findings)] else [])
    + [Heading(JStr(RecommendationsTitle)), RecommendationList(recs)]
  }

  /** Every outline `build_report_outline` produces renders without error. */
  lemma OutlineJsonRenders(caseId: string, totalScans: nat, coverage: Coverage, summary: string,
                           findings: seq<FindingEntry>, recs: seq<string>, generatedAt: string)
    requires 1 <= |recs|
    ensures HtmlBlocks(OutlineJson(caseId, totalScans, coverage, summary, findings, recs, generatedAt))
         == Ok(OutlineBlocks(summary, |findings|, |recs|))
  {
    var o := OutlineJson(caseId, totalScans, coverage, summary, findings, recs, generatedAt);
    OutlineJsonShape(caseId, totalScans, coverage, summary, findings, recs, generatedAt);
    var rows := FindingsListJson(findings).items;
    var items := RecommendationsListJson(recs).items;
    var s0, s1 := SectionJson(SummaryTitle, SummaryType, JStr(summary)), SectionJson(OverviewTitle, OverviewType, CoverageJson(coverage));
    var s2, s3 := SectionJson(FindingsTitle, FindingsType, JList(rows)), SectionJson(RecommendationsTitle, RecommendationsType, JList(items));
    OutlineObjectFields(SectionsJson(JStr(summary), CoverageJson(coverage), JList(rows), JList(items)), CoverageJson(coverage),
                        MetadataJson(caseId, totalScans, generatedAt));
    assert o.fields["sections"] == JList([s0, s1, s2, s3]);
    assert SectionsOf(o) == Ok([s0, s1, s2, s3]);
    SummaryRenders(SummaryTitle, JStr(summary));
    OverviewRenders(OverviewTitle, CoverageJson(coverage));
    FindingRowsRender(findings);
    FindingsRender(FindingsTitle, rows);
    RecommendationsRender(RecommendationsTitle, items);
    BlocksOfFour(s0, s1, s2, s3);
    var opt := if findings != [] then [FindingsTable(|findings|)] else [];
    assert SectionBlocks(s2).value == [Heading(JStr(FindingsTitle))] + opt;
    var head := [Heading(JStr(SummaryTitle)), SummaryBlock(JStr(summary)), Heading(JStr(OverviewTitle))];
    assert SectionBlocks(s0).value + SectionBlocks(s1).value == head;
    AppendAssoc(head, [Heading(JStr(FindingsTitle))], opt);
    assert HtmlBlocks(o) == BlocksOf([s0, s1, s2, s3]);
    assert (rows != []) == (findings != []) && |rows| == |findings| && |items| == |recs|;
    var all := SectionBlocks(s0).value + SectionBlocks(s1).value + SectionBlocks(s2).value + SectionBlocks(s3).value;
    assert all == head + [Heading(JStr(FindingsTitle))] + opt + [Heading(JStr(RecommendationsTitle)), RecommendationList(|recs|)];
    assert head + [Heading(JStr(FindingsTitle))]
        == [Heading(JStr(SummaryTitle)), SummaryBlock(JStr(summary)), Heading(JStr(OverviewTitle)), Heading(JStr(FindingsTitle))];
    assert opt == if |findings| > 0 then [FindingsTable(|findings|)] else [];
  }

  /** Rendering an outline shows its summary, a findings table exactly when
      some scan is non-compliant or partial, and between one and ten
      recommendations. */
  lemma OutlineRenders(caseId: string, scanIds: seq<Json>, isUuid: string -> bool, lookup: string -> Option<ScanRow>,
                       percent: real -> string, render: Json -> string, generatedAt: string)
    requires ReportOutline(caseId, scanIds, isUuid, lookup, percent, render, generatedAt).Ok?
    ensures var scans := Collected(scanIds, isUuid, lookup);
      var recs := Recommendations(scans, render).value;
      && 1 <= |recs| <= 10
      && HtmlBlocks(ReportOutline(caseId, scanIds, isUuid, lookup, percent, render, generatedAt).value)
         == Ok(OutlineBlocks(SummaryText(ExecutiveSummary(scans).value, percent), |Issues(scans).value|, |recs|))
  {
    var scans := Collected(scanIds, isUuid, lookup);
    OrganizedFindings(scans);
    var fs := OrganizeFindings(scans).value;
    assert |fs| == |Issues(scans).value| by {
      assert |multiset(fs)| == |multiset(Issues(scans).value)|;
    }
    OutlineJsonRenders(caseId, |scanIds|, CoverageOf(scans).value, SummaryText(ExecutiveSummary(scans).value, percent),
                       fs, Recommendations(scans, render).value, generatedAt);
  }
}
