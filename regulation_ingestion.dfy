// The ingestion of one regulatory document into versioned policy rules
// (`RegulationIngestionService`): the content hash, the rule-extraction
// prompt and the cleaning of the model's reply, the rule code, and the
// per-rule versioning that keeps one active row per rule code.
//
// The database is the `PolicyStore` class: the tables `policy_documents`,
// `policy_rules` and `policy_vectors` are sequences, and a row's generated
// identifier is the decimal text of its index. The chat completion, the
// embedding service, the PDF text extraction and the decoding of the reply
// into a validated extraction are parameters.

module RegulationIngestion {
  import opened Common
  import opened Hashing
  import opened Database
  import Llm
  import Embeddings

  // ---------------------------------------------------------------- hash

  /** What `ingest_document` receives: HTML text or PDF bytes. */
  datatype Content = Text(text: string) | Bytes(data: seq<byte>)

  /** The bytes `_compute_hash` feeds to SHA-256. */
  function ContentBytes(content: Content): seq<byte>
  {
    match content
    case Text(s) => Utf8(s)
    case Bytes(b) => b
  }

  /** `_compute_hash` (before hex rendering): a text is hashed as its UTF-8
      encoding, bytes as they are. */
  function ContentDigest(content: Content): (d: Digest)
    ensures d.Sha256?
    ensures content.Text? ==> d == Sha256Text(content.text)
    ensures content.Bytes? ==> d.data == content.data
  {
    Sha256(ContentBytes(content))
  }

  /** A text and its UTF-8 bytes hash alike, and two texts hash alike only
      when they are equal. */
  lemma TextDigests(a: string, b: string)
    ensures ContentDigest(Text(a)) == ContentDigest(Bytes(Utf8(a)))
    ensures ContentDigest(Text(a)) == ContentDigest(Text(b)) <==> a == b
  {
    if Utf8(a) == Utf8(b) {
      Utf8Injective(a, b);
    }
  }

  // ---------------------------------------------------------------- prompt

  const TextLimit: nat := 15000

  const PromptHead: string :=
    "\nYou are a legal analyst converting Indian Financial Regulations (RBI/SEBI) into atomic computing rules.\n\nInput Text:\n"
  const PromptDocument: string := "\n\nContext:\nDocument: "
  const PromptRegulator: string := "\nRegulator: "
  const PromptTail: string :=
    "\n\nTask:\n"
    + "1. Extract atomic rules. Split complex paragraphs into specific requirements.\n"
    + "2. Identify Actor, Action, Object, Constraints, and Exceptions.\n"
    + "3. CRITICAL: Determine if this is an AMENDMENT. Does it say \"In partial modification of...\" or \"Reference Master Direction X\"?\n"
    + "   If yes, extract the reference or the likely Rule Code it is modifying into the 'amendment_of' field.\n"
    + "\nOutput JSON:\n{\n  \"rules\": [\n    {\n"
    + "      \"actor\": \"string\",\n      \"action\": \"string\",\n      \"object\": \"string\",\n"
    + "      \"condition\": \"string\",\n      \"constraint\": \"string\",\n      \"exception\": \"string\",\n"
    + "      \"full_text\": \"string\"\n    }\n  ],\n  \"amendment_of\": \"string or null\", \n"
    + "  \"summary\": \"string\"\n}\n"

  /** A template with three slots, filled in: at most the first 15000
      characters of the text, then the title and the regulator, each
      between the template's fixed pieces. */
  function Fill(head: string, text: string, document: string, title: string, before: string,
                regulator: string, tail: string): (p: string)
    ensures var sent := Take(text, TextLimit);
      && |sent| <= TextLimit
      && |p| == |head| + |sent| + |document| + |title| + |before| + |regulator| + |tail|
      && p[|head|..|head| + |sent|] == sent
      && p[|head| + |sent| + |document|..|head| + |sent| + |document| + |title|] == title
      && p[|p| - |tail| - |regulator|..|p| - |tail|] == regulator
  {
    var sent := Take(text, TextLimit);
    var p := head + sent + document + title + before + regulator + tail;
    assert p[|head|..|head| + |sent|] == sent;
    assert p[|head| + |sent| + |document|..|head| + |sent| + |document| + |title|] == title;
    assert p[|p| - |tail| - |regulator|..|p| - |tail|] == regulator;
    p
  }

  /** Texts that agree on their first 15000 characters fill a template alike. */
  lemma FillSeesOnlyLimit(head: string, t1: string, t2: string, document: string, title: string,
                          regulator: string, before: string, tail: string)
    requires |t1| >= TextLimit && |t2| >= TextLimit && t1[..TextLimit] == t2[..TextLimit]
    ensures Fill(head, t1, document, title, before, regulator, tail)
         == Fill(head, t2, document, title, before, regulator, tail)
  {
  }

  /** `RULE_EXTRACTION_PROMPT.format(text=text[:15000], doc_title=..., regulator=...)` */
  function ExtractionPrompt(text: string, title: string, regulator: string): string
  {
    Fill(PromptHead, text, PromptDocument, title, PromptRegulator, regulator, PromptTail)
  }

  // ---------------------------------------------------------------- reply

  /** `s.replace(pat, with)`: every non-overlapping occurrence, leftmost first. */
  function ReplaceAll(s: string, pat: string, with: string): (r: string)
    requires |pat| > 0
    ensures !Contains(s, pat) ==> r == s
    decreases |s|
  {
    match FindFrom(s, pat, 0)
    case None => s
    case Some(k) => s[..k] + with + ReplaceAll(s[k + |pat|..], pat, with)
  }

  const JsonFence: string := "```json"
  const Fence: string := "```"

  /** The reply with its markdown code fences removed. */
  function CleanReply(reply: string): string
  {
    ReplaceAll(ReplaceAll(reply, JsonFence, ""), Fence, "")
  }

  predicate NoBacktick(s: string) {
    forall i :: 0 <= i < |s| ==> s[i] != '`'
  }

  /** A pattern that starts with a backtick does not occur in a text
      without backticks. */
  lemma NoBacktickNoFence(s: string, pat: string)
    requires |pat| > 0 && pat[0] == '`' && NoBacktick(s)
    ensures !Contains(s, pat)
  {
    assert forall k :: OccursAt(s, pat, k) ==> s[k..k + |pat|][0] == s[k];
    ContainsIff(s, pat);
  }

  /** A reply without backticks is decoded as it is. */
  lemma PlainReplyKept(reply: string)
    requires NoBacktick(reply)
    ensures CleanReply(reply) == reply
  {
    NoBacktickNoFence(reply, JsonFence);
    NoBacktickNoFence(reply, Fence);
  }

  /** No backtick-led pattern starts inside a backtick-free prefix. */
  lemma NoFenceInPrefix(body: string, tail: string, pat: string)
    requires |pat| > 0 && pat[0] == '`' && NoBacktick(body)
    ensures forall k :: 0 <= k < |body| ==> !OccursAt(body + tail, pat, k)
  {
    var t := body + tail;
    forall k | 0 <= k < |body|
      ensures !OccursAt(t, pat, k)
    {
      assert t[k] == body[k] != pat[0];
      assert k + |pat| <= |t| ==> t[k..k + |pat|][0] == t[k];
    }
  }

  /** The first occurrence is the one `FindFrom` reports. */
  lemma FindsFirst(s: string, sub: string, j: nat)
    requires OccursAt(s, sub, j) && forall k :: 0 <= k < j ==> !OccursAt(s, sub, k)
    ensures FindFrom(s, sub, 0) == Some(j)
  {
  }

  /** A body wrapped in a ```json … ``` block comes out unwrapped. */
  lemma FencedReplyCleaned(body: string)
    requires NoBacktick(body)
    ensures CleanReply(JsonFence + body + Fence) == body
  {
    var s := JsonFence + body + Fence;
    var t := body + Fence;
    assert s == JsonFence + t;
    assert s[..|JsonFence|] == JsonFence;
    FindsFirst(s, JsonFence, 0);
    assert s[|JsonFence|..] == t;
    assert ReplaceAll(s, JsonFence, "") == ReplaceAll(t, JsonFence, "");
    NoFenceInPrefix(body, Fence, JsonFence);
    assert forall k :: OccursAt(t, JsonFence, k) ==> k < |body|;
    ContainsIff(t, JsonFence);
    assert ReplaceAll(t, JsonFence, "") == t;
    NoFenceInPrefix(body, Fence, Fence);
    assert t[|body|..|body| + |Fence|] == Fence;
    FindsFirst(t, Fence, |body|);
    assert t[|body| + |Fence|..] == [];
    assert t[..|body|] == body;
  }

  // ---------------------------------------------------------------- extraction

  /** `AtomicRuleSpec`; `object` is `target` here. */
  datatype RuleSpec = RuleSpec(
    actor: string, action: string, target: string, condition: Option<string>,
    constraint: Option<string>, exception: Option<string>, fullText: string)

  /** `RuleExtractionResult` */
  datatype Extraction = Extraction(rules: seq<RuleSpec>, amendmentOf: Option<string>, summary: string)

  function OptionalJson(o: Option<string>): Json {
    if o.Some? then JStr(o.value) else JNull
  }

  /** `spec.model_dump_json()`, as the JSON value it encodes. */
  function SpecJson(spec: RuleSpec): Json {
    JObject(map[
      "actor" := JStr(spec.actor), "action" := JStr(spec.action), "object" := JStr(spec.target),
      "condition" := OptionalJson(spec.condition), "constraint" := OptionalJson(spec.constraint),
      "exception" := OptionalJson(spec.exception), "full_text" := JStr(spec.fullText)])
  }

  /** `str(value)` of an optional string: an absent one prints as `None`. */
  function Shown(o: Option<string>): string {
    if o.Some? then o.value else "None"
  }

  /** The text whose embedding is stored for a rule: the actor, the action
      and the target, then the constraint, which reads `None` when absent. */
  function SemanticText(spec: RuleSpec): (t: string)
    ensures StartsWith(t, spec.actor + " must " + spec.action + " ")
    ensures spec.constraint.None? ==> EndsWith(t, ". None")
    ensures spec.constraint.Some? ==> EndsWith(t, ". " + spec.constraint.value)
  {
    var head := spec.actor + " must " + spec.action + " ";
    var tail := ". " + Shown(spec.constraint);
    var t := head + spec.target + tail;
    assert t[..|head|] == head;
    assert t[|t| - |tail|..] == tail;
    t
  }

  // ---------------------------------------------------------------- rule code

  const RbiMarker: string := "RBI-"

  /** The length of the run of non-whitespace characters at the start of `s`. */
  function NonSpaceRun(s: string): (n: nat)
    ensures n <= |s|
    ensures forall i :: 0 <= i < n ==> !IsSpace(s[i])
    ensures n < |s| ==> IsSpace(s[n])
  {
    if s == [] || IsSpace(s[0]) then 0 else 1 + NonSpaceRun(s[1..])
  }

  predicate SpaceFree(s: string) {
    forall i :: 0 <= i < |s| ==> !IsSpace(s[i])
  }

  /** `s.split()`: the maximal runs of non-whitespace characters, in order. */
  function Tokens(s: string): (ts: seq<string>)
    ensures forall t :: t in ts ==> |t| > 0 && SpaceFree(t)
    decreases |s|
  {
    if s == [] then []
    else if IsSpace(s[0]) then Tokens(s[1..])
    else
      var n := NonSpaceRun(s);
      [s[..n]] + Tokens(s[n..])
  }

  /** An occurrence of a whitespace-free text that does not end inside a
      run of non-whitespace ended by a space starts after that run. */
  lemma RunEndsBeforeOccurrence(s: string, sub: string, k: nat, n: nat)
    requires SpaceFree(sub) && k + |sub| <= |s| && n < k + |sub|
    requires forall i :: k <= i < k + |sub| ==> s[i] == sub[i - k]
    requires n < |s| ==> IsSpace(s[n])
    ensures n <= k
  {
    if k < n {
      assert false;
    }
  }

  /** An occurrence of a whitespace-free text lies inside one token. */
  lemma {:induction false} OccurrenceInToken(s: string, sub: string, k: nat)
    requires |sub| > 0 && SpaceFree(sub) && OccursAt(s, sub, k)
    ensures exists t :: t in Tokens(s) && Contains(t, sub)
    decreases |s|
  {
    assert forall i :: k <= i < k + |sub| ==> s[i] == sub[i - k] by {
      forall i | k <= i < k + |sub| ensures s[i] == sub[i - k] {
        assert s[k..k + |sub|][i - k] == s[i];
      }
    }
    if IsSpace(s[0]) {
      assert s[k] == sub[0] && !IsSpace(sub[0]);
      assert k != 0;
      assert s[1..][k - 1..k - 1 + |sub|] == s[k..k + |sub|];
      OccurrenceInToken(s[1..], sub, k - 1);
    } else {
      var n := NonSpaceRun(s);
      assert Tokens(s) == [s[..n]] + Tokens(s[n..]);
      if k + |sub| <= n {
        assert s[..n][k..k + |sub|] == s[k..k + |sub|];
        assert OccursAt(s[..n], sub, k);
        ContainsIff(s[..n], sub);
        assert s[..n] in Tokens(s);
      } else {
        RunEndsBeforeOccurrence(s, sub, k, n);
        assert s[n..][k - n..k - n + |sub|] == s[k..k + |sub|];
        OccurrenceInToken(s[n..], sub, k - n);
      }
    }
  }

  /** A text containing the marker has a token containing it. */
  lemma MarkerInToken(s: string)
    requires Contains(s, RbiMarker)
    ensures exists t :: t in Tokens(s) && Contains(t, RbiMarker)
  {
    var k := FindFrom(s, RbiMarker, 0).value;
    OccurrenceInToken(s, RbiMarker, k);
  }

  /** The first of `ts` that contains `sub`. */
  function FirstWith(ts: seq<string>, sub: string): (r: Option<string>)
    ensures r.Some? ==> r.value in ts && Contains(r.value, sub)
    ensures r.None? ==> forall t :: t in ts ==> !Contains(t, sub)
  {
    if ts == [] then None
    else if Contains(ts[0], sub) then Some(ts[0])
    else FirstWith(ts[1..], sub)
  }

  /** The code generated when no usable reference is given:
      `"{regulator}-RULE-"` and the first six hex digits of the MD5 of the
      action, upper-cased. */
  function GeneratedCode(regulator: string, action: string, hex: Digest -> string): (code: string)
    ensures StartsWith(code, regulator + "-RULE-")
    ensures |code| <= |regulator| + 6 + 6
  {
    var suffix := Upper(Take(hex(Md5(Utf8(action))), 6));
    var code := regulator + "-RULE-" + suffix;
    assert code[..|regulator + "-RULE-"|] == regulator + "-RULE-";
    code
  }

  /** `_determine_rule_code` as written: a reference containing `RBI-` gives
      its first whitespace-separated token, whatever that token is; the rule's
      index plays no part. */
  function RuleCodeAsWritten(regulator: string, reference: Option<string>, index: nat, action: string,
                             hex: Digest -> string): (code: string)
    ensures reference.Some? && Contains(reference.value, RbiMarker) ==>
      |Tokens(reference.value)| > 0 && code == Tokens(reference.value)[0]
    ensures !(reference.Some? && Contains(reference.value, RbiMarker)) ==>
      code == GeneratedCode(regulator, action, hex)
  {
    if reference.Some? && Contains(reference.value, RbiMarker) then
      MarkerInToken(reference.value);
      Tokens(reference.value)[0]
    else GeneratedCode(regulator, action, hex)
  }

  /** `_determine_rule_code` as its documentation intends: a reference
      containing `RBI-` gives the token that carries the code. */
  function RuleCode(regulator: string, reference: Option<string>, index: nat, action: string,
                    hex: Digest -> string): (code: string)
    ensures reference.Some? && Contains(reference.value, RbiMarker) ==>
      code in Tokens(reference.value) && Contains(code, RbiMarker) && SpaceFree(code)
    ensures !(reference.Some? && Contains(reference.value, RbiMarker)) ==>
      code == GeneratedCode(regulator, action, hex)
  {
    if reference.Some? && Contains(reference.value, RbiMarker) then
      MarkerInToken(reference.value);
      FirstWith(Tokens(reference.value), RbiMarker).value
    else GeneratedCode(regulator, action, hex)
  }

  /** A non-empty run of non-whitespace characters followed by nothing or by
      whitespace is the first token. */
  lemma {:induction false} NonSpaceRunOf(w: string, rest: string)
    requires SpaceFree(w) && (rest == [] || IsSpace(rest[0]))
    ensures NonSpaceRun(w + rest) == |w|
    decreases |w|
  {
    if w != [] {
      assert (w + rest)[1..] == w[1..] + rest;
      NonSpaceRunOf(w[1..], rest);
    }
  }

  /** A first word followed by nothing or by whitespace is the first token. */
  lemma TokensOfWord(w: string, rest: string)
    requires |w| > 0 && SpaceFree(w) && (rest == [] || IsSpace(rest[0]))
    ensures Tokens(w + rest) == [w] + Tokens(rest)
  {
    var s := w + rest;
    NonSpaceRunOf(w, rest);
    assert s[0] == w[0];
    assert s[..|w|] == w && s[|w|..] == rest;
  }

  lemma TwoTokens(w: string, c: string)
    requires |w| > 0 && |c| > 0 && SpaceFree(w) && SpaceFree(c)
    ensures Tokens(w + " " + c) == [w, c]
  {
    TokensOfWord(w, " " + c);
    assert w + " " + c == w + (" " + c);
    assert (" " + c)[1..] == c;
    assert Tokens(" " + c) == Tokens(c);
    TokensOfWord(c, []);
    assert c + [] == c;
  }

  /** A prose reference such as "See RBI-MD-KYC" gives the code "See" as
      written, and the marked token once corrected. */
  lemma ProseReferenceMisread(regulator: string, w: string, c: string, index: nat, action: string,
                              hex: Digest -> string)
    requires |w| > 0 && SpaceFree(w) && !Contains(w, RbiMarker)
    requires |c| > 0 && SpaceFree(c) && Contains(c, RbiMarker)
    ensures RuleCodeAsWritten(regulator, Some(w + " " + c), index, action, hex) == w
    ensures RuleCode(regulator, Some(w + " " + c), index, action, hex) == c
  {
    var s := w + " " + c;
    TwoTokens(w, c);
    var k := FindFrom(c, RbiMarker, 0).value;
    assert s[|w| + 1 + k..|w| + 1 + k + |RbiMarker|] == c[k..k + |RbiMarker|];
    assert OccursAt(s, RbiMarker, |w| + 1 + k);
    ContainsIff(s, RbiMarker);
    assert Contains(s, RbiMarker);
    assert [w, c][1..] == [c];
  }

  // ---------------------------------------------------------------- rows

  /** The metadata keys `ingest_document` reads. */
  datatype Metadata = Metadata(
    regulator: string, docType: string, date: string, title: string,
    sourceUrl: Option<string>, status: string)

  datatype DocumentRow = DocumentRow(
    title: string, regulator: string, docType: string, publishDate: string,
    sourceUrl: Option<string>, contentHash: string, status: string)

  datatype VectorRow = VectorRow(ruleId: string, chunkText: string, embedding: Vector)

  /** `policy_documents` has seven columns, bound to `$1`…`$7`. */
  const DocumentColumns: nat := 7

  function Value(o: Option<string>): string {
    if o.Some? then o.value else ""
  }

  /** The document insert: the driver refuses a call whose number of values
      differs from the number of placeholders. */
  function InsertDocument(args: seq<Option<string>>): (r: Result<DocumentRow>)
    ensures r.Ok? <==> |args| == DocumentColumns
    ensures r.Err? ==> r.error.InterfaceError?
    ensures r.Ok? ==> r.value.sourceUrl == args[4] && r.value.contentHash == Value(args[5])
                      && r.value.status == Value(args[6])
  {
    if |args| != DocumentColumns then
      Err(InterfaceError("the server expects 7 arguments for this query, " + NatToString(|args|) + " were given"))
    else
      Ok(DocumentRow(Value(args[0]), Value(args[1]), Value(args[2]), Value(args[3]), args[4],
                     Value(args[5]), Value(args[6])))
  }

  /** `_store_document` as written: six values for seven placeholders, the
      content hash left out. */
  function StoreDocumentAsWritten(title: string, meta: Metadata, hash: string): (r: Result<DocumentRow>)
    ensures r.Err? && r.error.InterfaceError?
  {
    InsertDocument([Some(title), Some(meta.regulator), Some(meta.docType), Some(meta.date), meta.sourceUrl,
                    Some(meta.status)])
  }

  /** `_store_document` with the content hash bound to its column. */
  function StoreDocument(title: string, meta: Metadata, hash: string): (r: Result<DocumentRow>)
    ensures r.Ok?
    ensures r.value.title == title && r.value.regulator == meta.regulator && r.value.sourceUrl == meta.sourceUrl
    ensures r.value.contentHash == hash && r.value.status == meta.status
  {
    InsertDocument([Some(title), Some(meta.regulator), Some(meta.docType), Some(meta.date), meta.sourceUrl,
                    Some(hash), Some(meta.status)])
  }

  /** `_is_duplicate`: a document with the same (non-empty) source URL, or
      with the same content hash, is already stored. */
  predicate IsDuplicate(documents: seq<DocumentRow>, hash: string, sourceUrl: Option<string>) {
    (sourceUrl.Some? && sourceUrl.value != ""
     && exists i :: 0 <= i < |documents| && documents[i].sourceUrl == sourceUrl)
    || exists i :: 0 <= i < |documents| && documents[i].contentHash == hash
  }

  // ---------------------------------------------------------------- versions

  predicate ActiveOf(row: PolicyRuleRow, code: string) {
    row.ruleCode == code && row.isActive
  }

  /** The code of row `i` when that row is active. */
  function ActiveCode(rules: seq<PolicyRuleRow>, i: nat): (r: Option<string>)
    requires i < |rules|
    ensures r.Some? <==> rules[i].isActive
    ensures r.Some? ==> r.value == rules[i].ruleCode
  {
    if rules[i].isActive then Some(rules[i].ruleCode) else None
  }

  /** At most one active row per rule code. */
  predicate SingleActive(rules: seq<PolicyRuleRow>) {
    forall i: nat, j: nat {:trigger ActiveCode(rules, i), ActiveCode(rules, j)} ::
      i < |rules| && j < |rules| && ActiveCode(rules, i).Some? && ActiveCode(rules, i) == ActiveCode(rules, j) ==> i == j
  }

  function FindActiveFrom(rules: seq<PolicyRuleRow>, code: string, from: nat): (r: Option<nat>)
    requires from <= |rules|
    ensures r.Some? ==> from <= r.value < |rules| && ActiveOf(rules[r.value], code)
    ensures forall i :: from <= i < |rules| && (r.None? || i < r.value) ==> !ActiveOf(rules[i], code)
    decreases |rules| - from
  {
    if from == |rules| then None
    else if ActiveOf(rules[from], code) then Some(from)
    else FindActiveFrom(rules, code, from + 1)
  }

  /** `_find_active_rule`: an active row of the code (the first one). */
  function FindActive(rules: seq<PolicyRuleRow>, code: string): (r: Option<nat>)
    ensures r.Some? ==> r.value < |rules| && ActiveOf(rules[r.value], code)
    ensures r.None? <==> forall i :: 0 <= i < |rules| ==> !ActiveOf(rules[i], code)
  {
    FindActiveFrom(rules, code, 0)
  }

  /** Under the single-active invariant the active row of a code is unique. */
  lemma ActiveIsFound(rules: seq<PolicyRuleRow>, code: string, i: nat)
    requires SingleActive(rules) && i < |rules| && ActiveOf(rules[i], code)
    ensures FindActive(rules, code) == Some(i)
  {
    var r := FindActive(rules, code);
    assert r.Some?;
    assert ActiveCode(rules, r.value) == ActiveCode(rules, i);
  }

  /** The version a new row of `code` gets: one more than the active row's,
      or 1. */
  function NextVersion(rules: seq<PolicyRuleRow>, code: string): int
  {
    var prev := FindActive(rules, code);
    if prev.Some? then rules[prev.value].version + 1 else 1
  }

  /** The row `_store_rule` inserts. */
  function NewRule(id: nat, docId: nat, code: string, spec: RuleSpec, version: int, active: bool): PolicyRuleRow
  {
    PolicyRuleRow(NatToString(id), code, Some(NatToString(docId)), SpecJson(spec), [], None, active, version,
                  None, None)
  }

  /** `_mark_superseded` */
  function Superseded(row: PolicyRuleRow, successor: nat, now: nat): PolicyRuleRow
  {
    row.(isActive := false, supersededBy := Some(NatToString(successor)), validUntil := Some(now))
  }

  datatype Tables = Tables(rules: seq<PolicyRuleRow>, vectors: seq<VectorRow>)

  /** One rule as written: the row is stored, then the embedding is asked
      for; only if it is given are the vector stored and the previous active
      row superseded (and only when the new row is active). */
  function RuleStepAsWritten(t: Tables, docId: nat, code: string, spec: RuleSpec, active: bool,
                             embedding: Result<Vector>, now: nat): (r: (Tables, Result<nat>))
    ensures var n := |t.rules|;
      && |r.0.rules| == n + 1
      && r.0.rules[n] == NewRule(n, docId, code, spec, NextVersion(t.rules, code), active)
      && r.0.rules[n].version == (if FindActive(t.rules, code).Some? then t.rules[FindActive(t.rules, code).value].version + 1 else 1)
    ensures embedding.Err? ==>
      (r.1 == Err(embedding.error) && r.0.rules[..|t.rules|] == t.rules && r.0.vectors == t.vectors)
    ensures embedding.Ok? ==>
      (&& r.1 == Ok(|t.rules|)
       && r.0.vectors == t.vectors + [VectorRow(NatToString(|t.rules|), spec.fullText, embedding.value)]
       && forall i :: 0 <= i < |t.rules| ==>
            r.0.rules[i] == (if active && FindActive(t.rules, code) == Some(i)
                             then Superseded(t.rules[i], |t.rules|, now) else t.rules[i]))
  {
    var prev := FindActive(t.rules, code);
    var id := |t.rules|;
    var rules := t.rules + [NewRule(id, docId, code, spec, NextVersion(t.rules, code), active)];
    if embedding.Err? then (Tables(rules, t.vectors), Err(embedding.error))
    else
      var vectors := t.vectors + [VectorRow(NatToString(id), spec.fullText, embedding.value)];
      if prev.Some? && active then (Tables(rules[prev.value := Superseded(rules[prev.value], id, now)], vectors), Ok(id))
      else (Tables(rules, vectors), Ok(id))
  }

  /** One rule with the embedding asked for first: a failure leaves the
      tables as they were, a success does what the written step does. */
  function RuleStep(t: Tables, docId: nat, code: string, spec: RuleSpec, active: bool,
                    embedding: Result<Vector>, now: nat): (r: (Tables, Result<nat>))
    ensures embedding.Err? ==> r == (t, Err(embedding.error))
    ensures embedding.Ok? ==> r == RuleStepAsWritten(t, docId, code, spec, active, embedding, now)
  {
    if embedding.Err? then (t, Err(embedding.error))
    else RuleStepAsWritten(t, docId, code, spec, active, embedding, now)
  }

  /** A failed embedding after an active new version leaves two active rows
      of the same code in the written step. */
  lemma EmbedFailureLeavesTwoActive(t: Tables, docId: nat, code: string, spec: RuleSpec,
                                    embedding: Result<Vector>, now: nat)
    requires embedding.Err? && FindActive(t.rules, code).Some?
    ensures !SingleActive(RuleStepAsWritten(t, docId, code, spec, true, embedding, now).0.rules)
  {
    var rules := RuleStepAsWritten(t, docId, code, spec, true, embedding, now).0.rules;
    var p := FindActive(t.rules, code).value;
    assert rules[p] == t.rules[p];
    assert rules[|t.rules|].isActive && rules[|t.rules|].ruleCode == code;
    assert ActiveCode(rules, p) == ActiveCode(rules, |t.rules|);
  }

  /** The step with the embedding asked for first keeps at most one active
      row per code, whatever the embedding service answers. */
  lemma StepKeepsSingleActive(t: Tables, docId: nat, code: string, spec: RuleSpec, active: bool,
                              embedding: Result<Vector>, now: nat)
    requires SingleActive(t.rules)
    ensures SingleActive(RuleStep(t, docId, code, spec, active, embedding, now).0.rules)
  {
    if embedding.Ok? {
      var rules := RuleStep(t, docId, code, spec, active, embedding, now).0.rules;
      var n := |t.rules|;
      forall i | 0 <= i < n
        ensures rules[i].isActive ==> rules[i] == t.rules[i] && !(active && ActiveOf(t.rules[i], code))
      {
        if active && ActiveOf(t.rules[i], code) {
          ActiveIsFound(t.rules, code, i);
        }
      }
      assert rules[n].isActive ==> active && rules[n].ruleCode == code;
      forall i: nat, j: nat | i < |rules| && j < |rules| && ActiveCode(rules, i).Some? && ActiveCode(rules, i) == ActiveCode(rules, j)
        ensures i == j
      {
        if i < n && j < n {
          assert ActiveCode(t.rules, i) == ActiveCode(t.rules, j);
        }
      }
    }
  }

  /** A draft that succeeds does not move the version: a draft and the
      active ingest after it give the same version number. */
  lemma DraftKeepsVersion(t: Tables, docId: nat, code: string, spec: RuleSpec,
                          embedding: Result<Vector>, now: nat)
    requires embedding.Ok?
    ensures var t1 := RuleStep(t, docId, code, spec, false, embedding, now).0;
      NextVersion(t1.rules, code) == NextVersion(t.rules, code)
      && t1.rules[|t.rules|].version == NextVersion(t.rules, code)
  {
    var t1 := RuleStep(t, docId, code, spec, false, embedding, now).0;
    assert t1.rules[..|t.rules|] == t.rules;
    assert !ActiveOf(t1.rules[|t.rules|], code);
    var prev := FindActive(t.rules, code);
    var prev1 := FindActive(t1.rules, code);
    assert prev1.Some? ==> prev1.value < |t.rules|;
    assert prev.Some? ==> ActiveOf(t1.rules[prev.value], code);
  }

  // ---------------------------------------------------------------- ingest

  /** The first `n` extracted rules stored one after the other; the first
      failure stops the loop. Rule `i` is embedded by the `call + i`-th call. */
  function Ingested(t: Tables, docId: nat, meta: Metadata, ex: Extraction, embed: Embeddings.Embedder,
                    call: nat, now: nat, hex: Digest -> string, n: nat): (r: (Tables, Result<nat>))
    requires n <= |ex.rules|
    ensures SingleActive(t.rules) ==> SingleActive(r.0.rules)
    decreases n
  {
    if n == 0 then (t, Ok(docId))
    else
      var before := Ingested(t, docId, meta, ex, embed, call, now, hex, n - 1);
      IngestStepKeepsSingleActive(before, docId, meta, ex, embed, call, now, hex, n - 1);
      IngestStep(before, docId, meta, ex, embed, call, now, hex, n - 1)
  }

  /** Rule `j` stored after the ones before it, unless one of those failed. */
  function IngestStep(before: (Tables, Result<nat>), docId: nat, meta: Metadata, ex: Extraction, embed: Embeddings.Embedder,
                      call: nat, now: nat, hex: Digest -> string, j: nat): (r: (Tables, Result<nat>))
    requires j < |ex.rules|
  {
    if before.1.Err? then before
    else
      var spec := ex.rules[j];
      var code := RuleCode(meta.regulator, ex.amendmentOf, j, spec.action, hex);
      var step := RuleStep(before.0, docId, code, spec, meta.status == "active",
                           embed(call + j, SemanticText(spec)), now);
      (step.0, if step.1.Err? then step.1 else Ok(docId))
  }

  /** One stored rule keeps at most one active row per code. */
  lemma IngestStepKeepsSingleActive(before: (Tables, Result<nat>), docId: nat, meta: Metadata, ex: Extraction,
                                    embed: Embeddings.Embedder, call: nat, now: nat, hex: Digest -> string, j: nat)
    requires j < |ex.rules|
    ensures SingleActive(before.0.rules) ==> SingleActive(IngestStep(before, docId, meta, ex, embed, call, now, hex, j).0.rules)
  {
    if before.1.Ok? && SingleActive(before.0.rules) {
      var spec := ex.rules[j];
      StepKeepsSingleActive(before.0, docId, RuleCode(meta.regulator, ex.amendmentOf, j, spec.action, hex), spec,
                            meta.status == "active", embed(call + j, SemanticText(spec)), now);
    }
  }

  /** The step from `n` stored rules to `n + 1`. */
  lemma IngestedNext(t: Tables, docId: nat, meta: Metadata, ex: Extraction, embed: Embeddings.Embedder,
                     call: nat, now: nat, hex: Digest -> string, n: nat)
    requires n < |ex.rules| && Ingested(t, docId, meta, ex, embed, call, now, hex, n).1.Ok?
    ensures var spec := ex.rules[n];
      var step := RuleStep(Ingested(t, docId, meta, ex, embed, call, now, hex, n).0, docId,
                           RuleCode(meta.regulator, ex.amendmentOf, n, spec.action, hex), spec,
                           meta.status == "active", embed(call + n, SemanticText(spec)), now);
      Ingested(t, docId, meta, ex, embed, call, now, hex, n + 1)
      == (step.0, if step.1.Err? then step.1 else Ok(docId))
  {
  }

  /** Once a rule fails, the later ones change nothing. */
  lemma {:induction false} IngestedStops(t: Tables, docId: nat, meta: Metadata, ex: Extraction,
                                         embed: Embeddings.Embedder, call: nat, now: nat,
                                         hex: Digest -> string, n: nat, m: nat)
    requires n <= m <= |ex.rules|
    requires Ingested(t, docId, meta, ex, embed, call, now, hex, n).1.Err?
    ensures Ingested(t, docId, meta, ex, embed, call, now, hex, m)
         == Ingested(t, docId, meta, ex, embed, call, now, hex, n)
    decreases m - n
  {
    if n < m {
      IngestedStops(t, docId, meta, ex, embed, call, now, hex, n, m - 1);
    }
  }

  /** The loop of step 4 stops at the end or at the first failure; either
      way it has stored what all the rules would. */
  lemma IngestedDone(t: Tables, docId: nat, meta: Metadata, ex: Extraction, embed: Embeddings.Embedder,
                     call: nat, now: nat, hex: Digest -> string, i: nat)
    requires i <= |ex.rules|
    requires i == |ex.rules| || Ingested(t, docId, meta, ex, embed, call, now, hex, i).1.Err?
    ensures Ingested(t, docId, meta, ex, embed, call, now, hex, |ex.rules|)
         == Ingested(t, docId, meta, ex, embed, call, now, hex, i)
  {
    if i < |ex.rules| {
      IngestedStops(t, docId, meta, ex, embed, call, now, hex, i, |ex.rules|);
    }
  }

  /** The text `ingest_document` sends: the text itself, or what the PDF
      extraction gives for bytes. */
  function TextOf(content: Content, pdfText: seq<byte> -> string): string {
    match content
    case Text(s) => s
    case Bytes(b) => pdfText(b)
  }

  /** The model's reply to the extraction prompt, as one user message. */
  function Reply(content: Content, filename: string, meta: Metadata, pdfText: seq<byte> -> string,
                 svc: Llm.Service, complete: (Llm.Request, nat) -> Result<string>): Result<string>
  {
    Llm.Generate(svc, [Llm.Message("user", ExtractionPrompt(TextOf(content, pdfText), filename, meta.regulator))],
                 None, None, complete)
  }

  /** What `ingest_document` makes of the completion's answer: a failed
      completion is raised as it is, an undecodable reply is a `ValueError`,
      and a decoded extraction has its rules stored; only the last changes
      the tables, and only a success answers with the document's id. */
  function AfterReply(t: Tables, docId: nat, meta: Metadata, reply: Result<string>,
                      parse: string -> Option<Extraction>, embed: Embeddings.Embedder, call: nat, now: nat,
                      hex: Digest -> string): (r: (Tables, Result<nat>))
    ensures reply.Err? ==> r == (t, Err(reply.error))
    ensures reply.Ok? && parse(CleanReply(reply.value)).None? ==> r.0 == t && r.1.Err? && r.1.error.ValueError?
    ensures r.1.Ok? ==> r.1.value == docId
    ensures SingleActive(t.rules) ==> SingleActive(r.0.rules)
  {
    if reply.Err? then (t, Err(reply.error))
    else
      var extraction := parse(CleanReply(reply.value));
      if extraction.None? then (t, Err(ValueError("the reply is not a valid rule extraction")))
      else Ingested(t, docId, meta, extraction.value, embed, call, now, hex, |extraction.value.rules|)
  }

  class PolicyStore {
    var documents: seq<DocumentRow>
    var rules: seq<PolicyRuleRow>
    var vectors: seq<VectorRow>

    constructor ()
      ensures documents == [] && rules == [] && vectors == []
    {
      documents := [];
      rules := [];
      vectors := [];
    }

    predicate Valid()
      reads this
    {
      SingleActive(rules)
    }

    /** One embedded rule: `_find_active_rule`, `_store_rule` with the next
        version, `_store_vector`, and `_mark_superseded` on the previous
        active row when the new one is active. */
    method StoreRule(docId: nat, code: string, spec: RuleSpec, active: bool, embedding: Vector, now: nat)
      modifies this
      ensures documents == old(documents)
      ensures Tables(rules, vectors)
           == RuleStep(Tables(old(rules), old(vectors)), docId, code, spec, active, Ok(embedding), now).0
    {
      var prev := FindActive(rules, code);
      var version := if prev.Some? then rules[prev.value].version + 1 else 1;
      var id := |rules|;
      rules := rules + [NewRule(id, docId, code, spec, version, active)];
      vectors := vectors + [VectorRow(NatToString(id), spec.fullText, embedding)];
      if prev.Some? && active {
        rules := rules[prev.value := Superseded(rules[prev.value], id, now)];
      }
    }

    /** One pass of the loop in step 4 of `ingest_document`: the `i`-th
        extracted rule gets its code, its embedding, and then its rows. */
    method StoreNth(ghost t0: Tables, docId: nat, meta: Metadata, ex: Extraction, embed: Embeddings.Embedder,
                    call: nat, now: nat, hex: Digest -> string, i: nat)
      returns (r: Result<nat>)
      requires i < |ex.rules|
      requires (Tables(rules, vectors), Ok(docId)) == Ingested(t0, docId, meta, ex, embed, call, now, hex, i)
      modifies this
      ensures documents == old(documents)
      ensures (Tables(rules, vectors), r) == Ingested(t0, docId, meta, ex, embed, call, now, hex, i + 1)
    {
      IngestedNext(t0, docId, meta, ex, embed, call, now, hex, i);
      var spec := ex.rules[i];
      var code := RuleCode(meta.regulator, ex.amendmentOf, i, spec.action, hex);
      var embedding := embed(call + i, SemanticText(spec));
      if embedding.Err? {
        return Err(embedding.error);
      }
      StoreRule(docId, code, spec, meta.status == "active", embedding.value, now);
      r := Ok(docId);
    }

    /** Step 4 of `ingest_document`: each extracted rule in turn gets its
        code, its version and its row, its vector, and supersedes the
        previous active row when it is itself active. */
    method StoreRules(docId: nat, meta: Metadata, ex: Extraction, embed: Embeddings.Embedder, call: nat,
                      now: nat, hex: Digest -> string)
      returns (r: Result<nat>)
      modifies this
      ensures documents == old(documents)
      ensures (Tables(rules, vectors), r)
           == Ingested(Tables(old(rules), old(vectors)), docId, meta, ex, embed, call, now, hex, |ex.rules|)
      ensures old(Valid()) ==> Valid()
    {
      ghost var t0 := Tables(rules, vectors);
      r := Ok(docId);
      var i := 0;
      while i < |ex.rules| && r.Ok?
        invariant 0 <= i <= |ex.rules|
        invariant documents == old(documents)
        invariant (Tables(rules, vectors), r) == Ingested(t0, docId, meta, ex, embed, call, now, hex, i)
      {
        r := StoreNth(t0, docId, meta, ex, embed, call, now, hex, i);
        i := i + 1;
      }
      IngestedDone(t0, docId, meta, ex, embed, call, now, hex, i);
    }

    /** The rest of `ingest_document` once the completion has answered:
        the reply is cleaned and decoded, and its rules are stored. */
    method StoreReply(docId: nat, meta: Metadata, reply: Result<string>, parse: string -> Option<Extraction>,
                      embed: Embeddings.Embedder, call: nat, now: nat, hex: Digest -> string)
      returns (r: Result<nat>)
      modifies this
      ensures documents == old(documents)
      ensures (Tables(rules, vectors), r)
           == AfterReply(Tables(old(rules), old(vectors)), docId, meta, reply, parse, embed, call, now, hex)
      ensures old(Valid()) ==> Valid()
    {
      if reply.Err? {
        return Err(reply.error);
      }
      var extraction := parse(CleanReply(reply.value));
      if extraction.None? {
        return Err(ValueError("the reply is not a valid rule extraction"));
      }
      r := StoreRules(docId, meta, extraction.value, embed, call, now, hex);
    }

    /** `ingest_document`: the document row is stored whether or not it is a
        duplicate; then the reply is cleaned and decoded, and its rules are
        stored. A failing completion or an undecodable reply is raised after
        the document row is written. */
    method IngestDocument(content: Content, filename: string, meta: Metadata, hex: Digest -> string,
                          pdfText: seq<byte> -> string, svc: Llm.Service,
                          complete: (Llm.Request, nat) -> Result<string>,
                          parse: string -> Option<Extraction>, embed: Embeddings.Embedder, call: nat, now: nat)
      returns (r: Result<nat>)
      modifies this
      ensures documents == old(documents) + [StoreDocument(filename, meta, hex(ContentDigest(content))).value]
      ensures (Tables(rules, vectors), r)
           == AfterReply(Tables(old(rules), old(vectors)), |old(documents)|, meta,
                         Reply(content, filename, meta, pdfText, svc, complete), parse, embed, call, now, hex)
      ensures old(Valid()) ==> Valid()
    {
      var hash := hex(ContentDigest(content));
      var duplicate := IsDuplicate(documents, hash, meta.sourceUrl);
      var docId := |documents|;
      documents := documents + [StoreDocument(filename, meta, hash).value];
      var reply := Reply(content, filename, meta, pdfText, svc, complete);
      r := StoreReply(docId, meta, reply, parse, embed, call, now, hex);
    }
  }
}
