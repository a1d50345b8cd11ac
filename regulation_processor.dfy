// Regulation processing: normalisation of pre-chunked JSON regulations, the
// PDF entry point's guards, the missing-step checks of the flow analyser,
// and the merge of static and semantic facts.

module RegulationProcessor {
  import opened Common
  import opened Hashing
  import opened Llm

  // ------------------------------------------------------------ process_pdf

  /** `process_pdf`: empty bytes are rejected; with document intelligence
      off the result is empty, with it on the integration is missing. */
  function ProcessPdf(pdfBytes: seq<byte>, docIntelligenceEnabled: bool): (r: Result<seq<Json>>)
    ensures pdfBytes == [] ==> r.Err? && r.error.ValueError?
    ensures pdfBytes != [] && !docIntelligenceEnabled ==> r == Ok([])
    ensures pdfBytes != [] && docIntelligenceEnabled ==> r.Err? && r.error.NotImplementedError?
  {
    if pdfBytes == [] then Err(ValueError("PDF bytes cannot be empty"))
    else if docIntelligenceEnabled then Err(NotImplementedError("Azure Document Intelligence integration not yet implemented"))
    else Ok([])
  }

  // ------------------------------------------------------------ JSON chunks

  datatype RegulationChunk = RegulationChunk(
    ruleId: string,
    ruleSection: Json,
    sourceDocument: string,
    chunkText: string,
    chunkIndex: nat,
    chunkHash: Digest,
    metadata: Json)

  /** `chunk.get("text", chunk.get("chunk_text", ""))` */
  function TextOf(fields: map<string, Json>): Json {
    Get(fields, "text", Get(fields, "chunk_text", JStr("")))
  }

  /** What one entry of the input gives: nothing (skipped), a chunk, or the
      exception reading it raises (an entry that is not an object, or a
      non-empty text that is not a string). */
  datatype EntryOutcome = Skipped | Made(chunk: RegulationChunk) | Raises(detail: string)

  function ProcessEntry(entry: Json, i: nat, ruleId: string, sourceDocument: string): (o: EntryOutcome)
    ensures o.Made? ==> && entry.JObject? && TextOf(entry.fields) == JStr(o.chunk.chunkText)
                        && o.chunk.chunkText != [] && o.chunk.chunkIndex == i
                        && o.chunk.chunkHash == Sha256Text(o.chunk.chunkText)
                        && o.chunk.ruleId == ruleId && o.chunk.sourceDocument == sourceDocument
    ensures o.Skipped? <==> entry.JObject? && !Truthy(TextOf(entry.fields))
  {
    if !entry.JObject? then Raises("object has no attribute 'get'")
    else
      var text := TextOf(entry.fields);
      if !Truthy(text) then Skipped
      else if !text.JStr? then Raises("object has no attribute 'encode'")
      else
        Made(RegulationChunk(
          ruleId,
          Get(entry.fields, "section", Get(entry.fields, "rule_section", JNull)),
          sourceDocument, text.s, i, Sha256Text(text.s),
          Get(entry.fields, "metadata", JObject(map[]))))
  }

  /** The entries from position `i` on. */
  function ChunksFrom(entries: seq<Json>, i: nat, ruleId: string, sourceDocument: string): (r: Result<seq<RegulationChunk>>)
    requires i <= |entries|
    ensures r.Err? ==> r.error.ValueError?
    decreases |entries| - i
  {
    if i == |entries| then Ok([])
    else
      match ProcessEntry(entries[i], i, ruleId, sourceDocument)
      case Raises(detail) => Err(ValueError("Invalid chunk data: " + detail))
      case Skipped => ChunksFrom(entries, i + 1, ruleId, sourceDocument)
      case Made(c) =>
        match ChunksFrom(entries, i + 1, ruleId, sourceDocument)
        case Err(e) => Err(e)
        case Ok(rest) => Ok([c] + rest)
  }

  /** Each chunk of `cs` is what its own entry makes, at the entry's
      position from `i` on, and the chunks keep the entries' order. */
  predicate MadeInOrder(entries: seq<Json>, i: nat, cs: seq<RegulationChunk>, ruleId: string, sourceDocument: string) {
    && (forall k :: 0 <= k < |cs| ==>
         && i <= cs[k].chunkIndex < |entries|
         && ProcessEntry(entries[cs[k].chunkIndex], cs[k].chunkIndex, ruleId, sourceDocument) == Made(cs[k]))
    && (forall a, b :: 0 <= a < b < |cs| ==> cs[a].chunkIndex < cs[b].chunkIndex)
  }

  lemma MadeInOrderCons(entries: seq<Json>, i: nat, c: RegulationChunk, rest: seq<RegulationChunk>, ruleId: string, sourceDocument: string)
    requires i < |entries| && ProcessEntry(entries[i], i, ruleId, sourceDocument) == Made(c)
    requires MadeInOrder(entries, i + 1, rest, ruleId, sourceDocument)
    ensures MadeInOrder(entries, i, [c] + rest, ruleId, sourceDocument)
  {
    var cs := [c] + rest;
    assert c.chunkIndex == i;
    assert forall k :: 1 <= k < |cs| ==> cs[k] == rest[k - 1];
  }

  /** The chunks `ChunksFrom` returns are made by their own entries, in the
      entries' order. */
  lemma {:induction false} ChunksFromSound(entries: seq<Json>, i: nat, ruleId: string, sourceDocument: string)
    requires i <= |entries| && ChunksFrom(entries, i, ruleId, sourceDocument).Ok?
    ensures MadeInOrder(entries, i, ChunksFrom(entries, i, ruleId, sourceDocument).value, ruleId, sourceDocument)
    decreases |entries| - i
  {
    if i < |entries| {
      var o := ProcessEntry(entries[i], i, ruleId, sourceDocument);
      ChunksFromSound(entries, i + 1, ruleId, sourceDocument);
      var rest := ChunksFrom(entries, i + 1, ruleId, sourceDocument).value;
      if o.Made? {
        assert ChunksFrom(entries, i, ruleId, sourceDocument).value == [o.chunk] + rest;
        MadeInOrderCons(entries, i, o.chunk, rest, ruleId, sourceDocument);
      } else {
        assert ChunksFrom(entries, i, ruleId, sourceDocument).value == rest;
      }
    }
  }

  /** `process_json_chunks` */
  function ProcessJsonChunks(chunksData: Json, ruleId: string, sourceDocument: string): (r: Result<seq<RegulationChunk>>)
    ensures !Truthy(chunksData) ==> r == Err(ValueError("chunks_data cannot be empty"))
    ensures Truthy(chunksData) && !chunksData.JList? ==> r == Err(ValueError("chunks_data must be a list"))
    ensures r.Err? ==> r.error.ValueError?
  {
    if !Truthy(chunksData) then Err(ValueError("chunks_data cannot be empty"))
    else if !chunksData.JList? then Err(ValueError("chunks_data must be a list"))
    else ChunksFrom(chunksData.items, 0, ruleId, sourceDocument)
  }

  /** Every entry with a non-empty string text yields a chunk carrying its
      position, unless some entry raises. */
  lemma {:induction false} EntryKept(entries: seq<Json>, i: nat, j: nat, ruleId: string, sourceDocument: string) returns (k: nat)
    requires i <= j < |entries|
    requires ProcessEntry(entries[j], j, ruleId, sourceDocument).Made?
    requires ChunksFrom(entries, i, ruleId, sourceDocument).Ok?
    ensures k < |ChunksFrom(entries, i, ruleId, sourceDocument).value|
    ensures ChunksFrom(entries, i, ruleId, sourceDocument).value[k].chunkIndex == j
    decreases |entries| - i
  {
    var o := ProcessEntry(entries[i], i, ruleId, sourceDocument);
    ChunksFromSound(entries, i, ruleId, sourceDocument);
    if j == i {
      k := 0;
    } else {
      var m := EntryKept(entries, i + 1, j, ruleId, sourceDocument);
      k := if o.Made? then m + 1 else m;
    }
  }

  /** The whole input is rejected exactly when some entry raises. */
  lemma {:induction false} RejectedIffRaises(entries: seq<Json>, i: nat, ruleId: string, sourceDocument: string)
    requires i <= |entries|
    ensures ChunksFrom(entries, i, ruleId, sourceDocument).Err?
      <==> exists j :: i <= j < |entries| && ProcessEntry(entries[j], j, ruleId, sourceDocument).Raises?
    decreases |entries| - i
  {
    if i < |entries| {
      RejectedIffRaises(entries, i + 1, ruleId, sourceDocument);
      if ProcessEntry(entries[i], i, ruleId, sourceDocument).Raises? {
        assert ChunksFrom(entries, i, ruleId, sourceDocument).Err?;
      } else {
        assert (exists j :: i <= j < |entries| && ProcessEntry(entries[j], j, ruleId, sourceDocument).Raises?)
          <==> (exists j :: i + 1 <= j < |entries| && ProcessEntry(entries[j], j, ruleId, sourceDocument).Raises?);
      }
    }
  }

  /** The chunks made so far, in front of what the rest of the input gives. */
  function Prefixed(processed: seq<RegulationChunk>, rest: Result<seq<RegulationChunk>>): Result<seq<RegulationChunk>> {
    match rest
    case Ok(tail) => Ok(processed + tail)
    case Err(e) => Err(e)
  }

  /** One entry of the loop below: a skipped entry adds nothing, a made
      one moves its chunk from the rest to the processed prefix. */
  lemma ChunksStep(entries: seq<Json>, i: nat, processed: seq<RegulationChunk>, ruleId: string, sourceDocument: string)
    requires i < |entries| && !ProcessEntry(entries[i], i, ruleId, sourceDocument).Raises?
    ensures var o := ProcessEntry(entries[i], i, ruleId, sourceDocument);
      Prefixed(processed, ChunksFrom(entries, i, ruleId, sourceDocument))
      == Prefixed(if o.Made? then processed + [o.chunk] else processed, ChunksFrom(entries, i + 1, ruleId, sourceDocument))
  {
    var o := ProcessEntry(entries[i], i, ruleId, sourceDocument);
    if o.Made? {
      match ChunksFrom(entries, i + 1, ruleId, sourceDocument) {
        case Ok(tail) => AppendAssoc(processed, [o.chunk], tail);
        case Err(_) =>
      }
    }
  }

  /** The entry loop of `process_json_chunks`. */
  method ProcessJsonChunksMethod(chunksData: Json, ruleId: string, sourceDocument: string)
    returns (r: Result<seq<RegulationChunk>>)
    ensures r == ProcessJsonChunks(chunksData, ruleId, sourceDocument)
  {
    if !Truthy(chunksData) {
      return Err(ValueError("chunks_data cannot be empty"));
    }
    if !chunksData.JList? {
      return Err(ValueError("chunks_data must be a list"));
    }
    var entries := chunksData.items;
    var processed: seq<RegulationChunk> := [];
    var i := 0;
    match ChunksFrom(entries, 0, ruleId, sourceDocument) {
      case Ok(tail) => assert [] + tail == tail;
      case Err(_) =>
    }
    while i < |entries|
      invariant 0 <= i <= |entries|
      invariant ChunksFrom(entries, 0, ruleId, sourceDocument) == Prefixed(processed, ChunksFrom(entries, i, ruleId, sourceDocument))
    {
      var o := ProcessEntry(entries[i], i, ruleId, sourceDocument);
      if o.Raises? {
        return Err(ValueError("Invalid chunk data: " + o.detail));
      }
      ChunksStep(entries, i, processed, ruleId, sourceDocument);
      if o.Made? {
        processed := processed + [o.chunk];
      }
      i := i + 1;
    }
    assert processed + [] == processed;
    r := Ok(processed);
  }

  // ------------------------------------------------------------ analyze_flow

  datatype MissingStep = MissingKeywords(keywords: seq<string>) | MissingSequence(sequence: seq<string>)

  /** `repr` of a list of strings without quotes or escapes in them. */
  function ListRepr(xs: seq<string>): string {
    "[" + Join(Quoted(xs), ", ") + "]"
  }

  function Quoted(xs: seq<string>): (qs: seq<string>)
    ensures |qs| == |xs|
  {
    if xs == [] then [] else ["'" + xs[0] + "'"] + Quoted(xs[1..])
  }

  function Describe(m: MissingStep): string {
    match m
    case MissingKeywords(kws) => "Missing required keyword(s): " + ListRepr(kws)
    case MissingSequence(sq) => "Missing required sequence: " + ListRepr(sq)
  }

  function Describes(ms: seq<MissingStep>): (ds: seq<string>)
    ensures |ds| == |ms|
  {
    if ms == [] then [] else [Describe(ms[0])] + Describes(ms[1..])
  }

  /** Some summary mentions some keyword, ignoring case. */
  predicate Mentioned(summaries: seq<string>, keywords: seq<string>) {
    exists i, k :: 0 <= i < |summaries| && 0 <= k < |keywords| && Contains(Lower(summaries[i]), Lower(keywords[k]))
  }

  const ContextSeparator: string := "\n---\n"

  /** The steps `analyze_flow` reports missing: the keyword step when
      keywords are required and no summary mentions one, the sequence step
      when a sequence is required and its space-joined text is not in the
      joined summaries, ignoring case. */
  function MissingSteps(summaries: seq<string>, keywords: Option<seq<string>>, sequence: Option<seq<string>>): (ms: seq<MissingStep>)
    ensures (exists k :: 0 <= k < |ms| && ms[k].MissingKeywords?) <==>
      (keywords.Some? && keywords.value != [] && !Mentioned(summaries, keywords.value))
    ensures (exists k :: 0 <= k < |ms| && ms[k].MissingSequence?) <==>
      (sequence.Some? && sequence.value != []
       && !Contains(Lower(Join(summaries, ContextSeparator)), Lower(Join(sequence.value, " "))))
  {
    var kw := if keywords.Some? && keywords.value != [] && !Mentioned(summaries, keywords.value)
              then [MissingKeywords(keywords.value)] else [];
    var sq := if sequence.Some? && sequence.value != []
                 && !Contains(Lower(Join(summaries, ContextSeparator)), Lower(Join(sequence.value, " ")))
              then [MissingSequence(sequence.value)] else [];
    var ms := kw + sq;
    assert kw != [] ==> ms[0].MissingKeywords?;
    assert sq != [] ==> ms[|kw|].MissingSequence?;
    ms
  }

  datatype FlowResult = FlowResult(verdict: string, missingSteps: seq<MissingStep>, summaries: seq<string>, explanation: string)

  /** `analyze_flow`: `summarize` and `complete` are the LLM's answers. */
  function AnalyzeFlow(ruleText: string, chunks: seq<string>, summarize: string -> string, complete: string -> string,
                       keywords: Option<seq<string>>, sequence: Option<seq<string>>): (r: FlowResult)
    ensures |r.summaries| == |chunks| && forall k :: 0 <= k < |chunks| ==> r.summaries[k] == summarize(chunks[k])
    ensures r.verdict == complete(MacroCompliancePrompt(ruleText, Join(r.summaries, ContextSeparator)))
    ensures r.missingSteps == MissingSteps(r.summaries, keywords, sequence)
    ensures r.explanation == (if r.missingSteps == [] then "" else "Violation: " + Join(Describes(r.missingSteps), ", "))
  {
    var summaries := seq(|chunks|, k requires 0 <= k < |chunks| => summarize(chunks[k]));
    var missing := MissingSteps(summaries, keywords, sequence);
    FlowResult(complete(MacroCompliancePrompt(ruleText, Join(summaries, ContextSeparator))), missing, summaries,
               if missing == [] then "" else "Violation: " + Join(Describes(missing), ", "))
  }

  /** The summary loop of `analyze_flow`. */
  method Summarize(chunks: seq<string>, summarize: string -> string) returns (summaries: seq<string>)
    ensures |summaries| == |chunks| && forall k :: 0 <= k < |chunks| ==> summaries[k] == summarize(chunks[k])
  {
    summaries := [];
    for i := 0 to |chunks|
      invariant |summaries| == i && forall k :: 0 <= k < i ==> summaries[k] == summarize(chunks[k])
    {
      summaries := summaries + [summarize(chunks[i])];
    }
  }

  /** A piece of a join lies inside it. */
  lemma {:induction false} PieceInJoin(parts: seq<string>, sep: string, k: nat) returns (at: nat)
    requires k < |parts|
    ensures at + |parts[k]| <= |Join(parts, sep)| && Join(parts, sep)[at..at + |parts[k]|] == parts[k]
  {
    if |parts| == 1 {
      at := 0;
    } else if k == 0 {
      at := 0;
      assert Join(parts, sep) == parts[0] + (sep + Join(parts[1..], sep));
    } else {
      var inner := PieceInJoin(parts[1..], sep, k - 1);
      var prefix := parts[0] + sep;
      at := |prefix| + inner;
      assert Join(parts, sep) == prefix + Join(parts[1..], sep);
    }
  }

  /** Text found in one lower-cased piece is found in the lower-cased join. */
  lemma FoundInPiece(parts: seq<string>, sep: string, k: nat, needle: string)
    requires k < |parts| && Contains(Lower(parts[k]), needle)
    ensures Contains(Lower(Join(parts, sep)), needle)
  {
    var block := Join(parts, sep);
    var at := PieceInJoin(parts, sep, k);
    var s := parts[k];
    var lb := Lower(block);
    assert lb[at..at + |s|] == Lower(s) by {
      assert forall i :: 0 <= i < |s| ==> lb[at + i] == LowerChar(block[at + i]) == LowerChar(s[i]);
    }
    var j := FindFrom(Lower(s), needle, 0).value;
    OccursInPiece(lb, needle, at, Lower(s), j);
    ContainsIff(lb, needle);
  }

  /** A sequence found inside a single summary is found in the context
      block, so the sequence step is not missing. */
  lemma SequenceInOneSummary(summaries: seq<string>, sequence: seq<string>, k: nat)
    requires k < |summaries| && Contains(Lower(summaries[k]), Lower(Join(sequence, " ")))
    ensures forall m :: m in MissingSteps(summaries, None, Some(sequence)) ==> !m.MissingSequence?
  {
    FoundInPiece(summaries, ContextSeparator, k, Lower(Join(sequence, " ")));
    var ms := MissingSteps(summaries, None, Some(sequence));
    forall m | m in ms
      ensures !m.MissingSequence?
    {
      var i :| 0 <= i < |ms| && ms[i] == m;
    }
  }

  /** More summaries never add a missing keyword step. */
  lemma MoreSummariesKeepKeywords(summaries: seq<string>, more: seq<string>, keywords: seq<string>)
    requires Mentioned(summaries, keywords)
    ensures Mentioned(summaries + more, keywords)
  {
    var i, k :| 0 <= i < |summaries| && 0 <= k < |keywords| && Contains(Lower(summaries[i]), Lower(keywords[k]));
    assert (summaries + more)[i] == summaries[i];
  }

  // ------------------------------------------------------------ facts

  const ConfigSuffixes: seq<string> := [".json", ".yaml", ".yml", ".env"]

  predicate IsConfigPath(path: string) {
    exists k :: 0 <= k < |ConfigSuffixes| && EndsWith(path, ConfigSuffixes[k])
  }

  /** `merge_static_and_semantic_facts`: the static constants of the chunk's
      code, overridden by the file's config facts (read only for config
      files), overridden by the embedding facts. */
  function MergeFacts<V>(path: string, staticFacts: map<string, V>, configFacts: map<string, V>,
                         embeddingFacts: map<string, V>): (merged: map<string, V>)
    ensures merged.Keys == staticFacts.Keys + (if IsConfigPath(path) then configFacts.Keys else {}) + embeddingFacts.Keys
    ensures forall key :: key in embeddingFacts ==> merged[key] == embeddingFacts[key]
    ensures forall key :: key in configFacts && key !in embeddingFacts && IsConfigPath(path) ==> merged[key] == configFacts[key]
    ensures forall key :: key in staticFacts && key !in embeddingFacts && (key !in configFacts || !IsConfigPath(path)) ==> merged[key] == staticFacts[key]
  {
    var config := if IsConfigPath(path) then configFacts else map[];
    staticFacts + config + embeddingFacts
  }
}
