// The demo regulation preloader: one fixed Payment Aggregator regulation,
// loaded at most once. Whether it is loaded is read from the database (a
// policy row for the rule code and at least one chunk of that rule); the PDF
// is read, split into sections and packed into chunks, and every chunk whose
// embedding and insert succeed is stored.

module PreloadedRegulations {
  import opened Common
  import opened Hashing
  import opened Embeddings
  import opened Database
  import PdfProcessor

  const DemoRuleId: string := "RBI-PA-MD-2020"
  const DemoTitle: string := "Master Direction on Regulation of Payment Aggregator"
  const DemoCategory: string := "payment_aggregator"
  const DemoRegulator: string := "RBI"
  const DemoEffectiveDate: string := "2020-03-17"
  const DemoComplianceTag: string := "RBI-Payment-Aggregator"
  const DemoFilePath: string := "C:\\Users\\sandi\\Downloads\\Master Direction on Regulation of Payment Aggregator (PA).pdf"
  const MaxChunkSize: int := 1000

  // ------------------------------------------------------------ chunk hash

  /** `f"{rule_id}-{idx}-{text[:100]}"` */
  function HashInput(ruleId: string, idx: nat, text: string): string {
    ruleId + "-" + NatToString(idx) + "-" + Take(text, 100)
  }

  /** `sha256(…).hexdigest()[:16]`, the hex rendering being `hex`. */
  function ChunkHash(ruleId: string, idx: nat, text: string, hex: Digest -> string): (h: string)
    ensures |h| <= 16 && |h| <= |hex(Sha256Text(HashInput(ruleId, idx, text)))|
    ensures h == hex(Sha256Text(HashInput(ruleId, idx, text)))[..|h|]
    ensures |hex(Sha256Text(HashInput(ruleId, idx, text)))| >= 16 ==> |h| == 16
  {
    Take(hex(Sha256Text(HashInput(ruleId, idx, text))), 16)
  }

  /** Only the first 100 characters of the text enter the hash. */
  lemma ChunkHashSeesFirst100(ruleId: string, idx: nat, a: string, b: string, hex: Digest -> string)
    requires |a| >= 100 && |b| >= 100 && a[..100] == b[..100]
    ensures ChunkHash(ruleId, idx, a, hex) == ChunkHash(ruleId, idx, b, hex)
  {
    assert Take(a, 100) == a[..100] && Take(b, 100) == b[..100];
  }

  /** Chunks at different positions hash different inputs, so their full
      digests differ and only the 16-character truncation can collide. */
  lemma HashInputsDistinct(ruleId: string, i: nat, j: nat, a: string, b: string)
    requires i != j
    ensures HashInput(ruleId, i, a) != HashInput(ruleId, j, b)
    ensures Sha256Text(HashInput(ruleId, i, a)) != Sha256Text(HashInput(ruleId, j, b))
  {
    if HashInput(ruleId, i, a) == HashInput(ruleId, j, b) {
      var s := HashInput(ruleId, i, a);
      var p := |ruleId| + 1;
      var di, dj := NatToString(i), NatToString(j);
      NumberAt(ruleId, i, a);
      NumberAt(ruleId, j, b);
      FirstDash(s, p, di, dj);
      FirstDash(s, p, dj, di);
      assert di == s[p..p + |di|] == dj;
      NatToStringInjective(i, j);
    }
    if Sha256Text(HashInput(ruleId, i, a)) == Sha256Text(HashInput(ruleId, j, b)) {
      Utf8Injective(HashInput(ruleId, i, a), HashInput(ruleId, j, b));
    }
  }

  /** In the hash input, the position follows the rule id and its dash as a
      run of digits ended by a dash. */
  lemma NumberAt(ruleId: string, idx: nat, text: string)
    ensures var s := HashInput(ruleId, idx, text);
      var p := |ruleId| + 1;
      var d := NatToString(idx);
      && p + |d| < |s| && s[p..p + |d|] == d && s[p + |d|] == '-' && !IsDigit('-')
      && forall k :: p <= k < p + |d| ==> IsDigit(s[k])
  {
    var s := HashInput(ruleId, idx, text);
    var p := |ruleId| + 1;
    var d := NatToString(idx);
    assert s == (ruleId + "-") + (d + "-" + Take(text, 100));
    assert forall k :: p <= k < p + |d| ==> s[k] == d[k - p];
  }

  /** Two runs of digits ended by a dash at the same place have the same
      length. */
  lemma FirstDash(s: string, p: nat, d: string, e: string)
    requires p + |d| < |s| && s[p + |d|] == '-' && !IsDigit('-')
    requires p + |e| < |s| && forall k :: p <= k < p + |e| ==> IsDigit(s[k])
    ensures |e| <= |d|
  {
    if |d| < |e| {
      assert false;
    }
  }

  // ------------------------------------------------------------ stored rows

  /** The row inserted for chunk `idx`. */
  function ChunkRow(idx: nat, c: PdfProcessor.RegulationChunk, v: Vector, hash: string): (r: RegulationChunkRow)
    ensures r.ruleId == DemoRuleId && r.chunkText == c.text && r.chunkIndex == idx && r.chunkHash == hash
  {
    RegulationChunkRow(
      DemoRuleId, JStr(c.sectionNumber + " " + c.sectionTitle), None, c.text, idx, hash, Some(v), None,
      JObject(map[
        "section_number" := JStr(c.sectionNumber),
        "section_title" := JStr(c.sectionTitle),
        "chunk_index" := JNum(c.chunkIndex as real),
        "compliance_tag" := JStr(DemoComplianceTag)]))
  }

  /** One iteration of the chunk loop: the embedding call (number
      `call + idx`) or the plain insert (a repeated `chunk_hash` violates
      the unique index) may fail, and a failure skips the chunk. */
  function TryInsert(rows: map<string, RegulationChunkRow>, count: nat, idx: nat, c: PdfProcessor.RegulationChunk,
                     embed: Embedder, call: nat, hex: Digest -> string): (r: (map<string, RegulationChunkRow>, nat))
  {
    match embed(call + idx, c.text)
    case Err(_) => (rows, count)
    case Ok(v) =>
      var h := ChunkHash(DemoRuleId, idx, c.text, hex);
      if h in rows then (rows, count) else (rows[h := ChunkRow(idx, c, v, h)], count + 1)
  }

  /** The chunk table and `inserted_count` after the loop over `cs`. */
  function Stored(rows: map<string, RegulationChunkRow>, cs: seq<PdfProcessor.RegulationChunk>,
                  embed: Embedder, call: nat, hex: Digest -> string): (map<string, RegulationChunkRow>, nat)
  {
    if cs == [] then (rows, 0)
    else
      var before := Stored(rows, cs[..|cs| - 1], embed, call, hex);
      TryInsert(before.0, before.1, |cs| - 1, cs[|cs| - 1], embed, call, hex)
  }

  /** The loop only adds rows, all of this rule, and `inserted_count` is the
      number it added. */
  lemma {:induction false} StoredAdds(rows: map<string, RegulationChunkRow>, cs: seq<PdfProcessor.RegulationChunk>,
                                      embed: Embedder, call: nat, hex: Digest -> string)
    ensures var (after, n) := Stored(rows, cs, embed, call, hex);
      && (forall h :: h in rows ==> h in after && after[h] == rows[h])
      && (forall h :: h in after && h !in rows ==> after[h].ruleId == DemoRuleId)
      && |after| == |rows| + n
      && n <= |cs|
  {
    if cs != [] {
      StoredAdds(rows, cs[..|cs| - 1], embed, call, hex);
    }
  }

  /** The number of stored chunks of a rule: the `chunk_count` subquery. */
  function ChunkCount(rows: map<string, RegulationChunkRow>, ruleId: string): nat {
    |set h | h in rows && rows[h].ruleId == ruleId|
  }

  lemma ChunkCountPositive(rows: map<string, RegulationChunkRow>, ruleId: string, key: string)
    requires key in rows && rows[key].ruleId == ruleId
    ensures ChunkCount(rows, ruleId) > 0
  {
    var owned := set h | h in rows && rows[h].ruleId == ruleId;
    assert key in owned;
    assert owned == (owned - {key}) + {key};
  }

  /** `inserted_count` is the number of new hashes. */
  lemma StoredNew(rows: map<string, RegulationChunkRow>, cs: seq<PdfProcessor.RegulationChunk>,
                  embed: Embedder, call: nat, hex: Digest -> string)
    ensures var (after, n) := Stored(rows, cs, embed, call, hex);
      |after.Keys - rows.Keys| == n && (forall h :: h in rows ==> h in after && after[h] == rows[h])
  {
    var (after, n) := Stored(rows, cs, embed, call, hex);
    StoredAdds(rows, cs, embed, call, hex);
    var added := after.Keys - rows.Keys;
    assert after.Keys == rows.Keys + added;
    assert rows.Keys !! added;
  }

  /** A load that stored a chunk leaves a chunk of the rule behind. */
  lemma StoredLeavesChunk(rows: map<string, RegulationChunkRow>, cs: seq<PdfProcessor.RegulationChunk>,
                          embed: Embedder, call: nat, hex: Digest -> string)
    requires Stored(rows, cs, embed, call, hex).1 > 0
    ensures ChunkCount(Stored(rows, cs, embed, call, hex).0, DemoRuleId) > 0
  {
    var (after, n) := Stored(rows, cs, embed, call, hex);
    StoredAdds(rows, cs, embed, call, hex);
    StoredNew(rows, cs, embed, call, hex);
    var added := after.Keys - rows.Keys;
    assert added != {};
    var h :| h in added;
    ChunkCountPositive(after, DemoRuleId, h);
  }

  /** A load that stored nothing left the table as it was. */
  lemma StoredNothing(rows: map<string, RegulationChunkRow>, cs: seq<PdfProcessor.RegulationChunk>,
                      embed: Embedder, call: nat, hex: Digest -> string)
    requires Stored(rows, cs, embed, call, hex).1 == 0
    ensures Stored(rows, cs, embed, call, hex).0 == rows
  {
    var (after, n) := Stored(rows, cs, embed, call, hex);
    StoredNew(rows, cs, embed, call, hex);
    assert after.Keys - rows.Keys == {};
    assert after.Keys == rows.Keys;
  }

  // ------------------------------------------------------------ the store

  /** The spec written for the demo regulation. */
  const DemoSpec: Json := JObject(map[
    "title" := JStr(DemoTitle),
    "regulatory_body" := JStr(DemoRegulator),
    "effective_date" := JStr(DemoEffectiveDate),
    "file_path" := JStr(DemoFilePath)])

  /** `INSERT INTO policy_rules … ON CONFLICT (rule_code, version) DO UPDATE
      SET spec`: an existing version-1 row keeps its id, category, severity
      and activity and takes the new spec. */
  function UpsertPolicy(policies: map<(string, int), PolicyRuleRow>, ruleUuid: string): (r: map<(string, int), PolicyRuleRow>)
    ensures r.Keys == policies.Keys + {(DemoRuleId, 1)}
    ensures r[(DemoRuleId, 1)].spec == DemoSpec
    ensures forall k :: k in policies && k != (DemoRuleId, 1) ==> r[k] == policies[k]
    ensures (DemoRuleId, 1) in policies ==> r[(DemoRuleId, 1)] == policies[(DemoRuleId, 1)].(spec := DemoSpec)
  {
    var key := (DemoRuleId, 1);
    if key in policies then policies[key := policies[key].(spec := DemoSpec)]
    else policies[key := PolicyRuleRow(ruleUuid, DemoRuleId, None, DemoSpec, [DemoCategory], Some("high"), true, 1, None, None)]
  }

  /** The title of an already loaded regulation: the spec's, when the row's
      spec came back as a dict. */
  function TitleOf(spec: Json): Json {
    if spec.JObject? then Get(spec.fields, "title", JStr(DemoTitle)) else JStr(DemoTitle)
  }

  datatype LoadResult = LoadResult(ruleId: string, title: Json, chunkCount: nat, status: string)

  /** The chunks made from the PDF's text. */
  function PdfChunks(rawText: string): seq<PdfProcessor.RegulationChunk> {
    PdfProcessor.ChunkSections(PdfProcessor.StructureSections(rawText), MaxChunkSize)
  }

  /** The two tables the preloader reads and writes. */
  class Store {
    var policies: map<(string, int), PolicyRuleRow>
    var chunks: map<string, RegulationChunkRow>

    constructor (policies: map<(string, int), PolicyRuleRow>, chunks: map<string, RegulationChunkRow>)
      ensures this.policies == policies && this.chunks == chunks
    {
      this.policies := policies;
      this.chunks := chunks;
    }

    /** The check `existing and existing['chunk_count'] > 0`. */
    predicate Loaded()
      reads this
    {
      (exists k :: k in policies && k.0 == DemoRuleId) && ChunkCount(chunks, DemoRuleId) > 0
    }

    /** `_process_and_store_regulation`'s loop: `inserted_count` counts the
        chunks embedded and inserted. */
    method StoreChunks(cs: seq<PdfProcessor.RegulationChunk>, embed: Embedder, call: nat, hex: Digest -> string)
      returns (insertedCount: nat)
      modifies this
      ensures (chunks, insertedCount) == Stored(old(chunks), cs, embed, call, hex)
      ensures policies == old(policies)
    {
      insertedCount := 0;
      var idx := 0;
      while idx < |cs|
        invariant 0 <= idx <= |cs|
        invariant policies == old(policies)
        invariant (chunks, insertedCount) == Stored(old(chunks), cs[..idx], embed, call, hex)
      {
        assert cs[..idx + 1][..idx] == cs[..idx];
        var c := cs[idx];
        var e := embed(call + idx, c.text);
        if e.Ok? {
          var h := ChunkHash(DemoRuleId, idx, c.text, hex);
          if h !in chunks {
            chunks := chunks[h := ChunkRow(idx, c, e.value, h)];
            insertedCount := insertedCount + 1;
          }
        }
        idx := idx + 1;
      }
      assert cs[..|cs|] == cs;
    }

    /** `ensure_regulation_loaded`: nothing happens when the regulation is
        loaded; otherwise a missing PDF is an error, and an existing one is
        read, its policy row upserted and its chunks stored. */
    method EnsureRegulationLoaded(fileExists: bool, rawText: string, ruleUuid: string,
                                  embed: Embedder, call: nat, hex: Digest -> string)
      returns (r: Result<LoadResult>)
      modifies this
      ensures old(Loaded()) ==> policies == old(policies) && chunks == old(chunks)
      ensures old(Loaded()) ==> (r.Ok? && r.value.status == "already_loaded" && r.value.ruleId == DemoRuleId
        && r.value.chunkCount == ChunkCount(chunks, DemoRuleId)
        && exists k :: k in policies && k.0 == DemoRuleId && r.value.title == TitleOf(policies[k].spec))
      ensures !old(Loaded()) && !fileExists ==> r.Err? && r.error.FileNotFoundError? && policies == old(policies) && chunks == old(chunks)
      ensures !old(Loaded()) && fileExists ==>
        && r.Ok?
        && policies == UpsertPolicy(old(policies), ruleUuid)
        && (chunks, r.value.chunkCount) == Stored(old(chunks), PdfChunks(rawText), embed, call, hex)
        && r == Ok(LoadResult(DemoRuleId, JStr(DemoTitle), r.value.chunkCount, "newly_loaded"))
      ensures r.Ok? && r.value.status == "newly_loaded" && r.value.chunkCount > 0 ==> Loaded()
    {
      if Loaded() {
        var k :| k in policies && k.0 == DemoRuleId;
        return Ok(LoadResult(DemoRuleId, TitleOf(policies[k].spec), ChunkCount(chunks, DemoRuleId), "already_loaded"));
      }
      if !fileExists {
        return Err(FileNotFoundError("Demo regulation PDF not found at: " + DemoFilePath
          + "\nPlease ensure the file exists at the specified location."));
      }
      var sections := PdfProcessor.StructureSectionsMethod(rawText);
      var cs := PdfProcessor.ChunkSectionsMethod(sections, MaxChunkSize);
      policies := UpsertPolicy(policies, ruleUuid);
      var n := StoreChunks(cs, embed, call, hex);
      r := Ok(LoadResult(DemoRuleId, JStr(DemoTitle), n, "newly_loaded"));
      if n > 0 {
        StoredLeavesChunk(old(chunks), cs, embed, call, hex);
        assert (DemoRuleId, 1) in policies;
      }
    }
  }

  /** A successful load that stored a chunk is not repeated: the next call
      reports the regulation as already loaded. A load that stored nothing
      into a table without chunks of the rule is repeated. */
  method LoadTwice(store: Store, rawText: string, ruleUuid: string, embed: Embedder, call: nat, hex: Digest -> string)
    returns (first: Result<LoadResult>, second: Result<LoadResult>)
    modifies store
    ensures first.Ok? && first.value.chunkCount > 0 ==> second.Ok? && second.value.status == "already_loaded"
    ensures (first.Ok? && first.value.status == "newly_loaded" && first.value.chunkCount == 0
      && ChunkCount(old(store.chunks), DemoRuleId) == 0) ==> second.Ok? && second.value.status == "newly_loaded"
  {
    first := store.EnsureRegulationLoaded(true, rawText, ruleUuid, embed, call, hex);
    if first.Ok? && first.value.status == "newly_loaded" && first.value.chunkCount == 0 {
      StoredNothing(old(store.chunks), PdfChunks(rawText), embed, call, hex);
    }
    second := store.EnsureRegulationLoaded(true, rawText, ruleUuid, embed, call, hex);
  }

  // ------------------------------------------------------------ chunk query

  datatype Param = Text(s: string) | Int(n: int)

  const ChunksQueryBase: string :=
    "SELECT chunk_id, chunk_text, rule_section, chunk_index, metadata FROM regulation_chunks WHERE rule_id = $1 ORDER BY chunk_index"

  /** `get_regulation_chunks`' query and parameters: a falsy limit or offset
      adds no clause, and each clause added names the next parameter. */
  function ChunksQuery(limit: Option<int>, offset: int): (q: (string, seq<Param>))
    ensures (limit.None? || limit.value == 0) && offset == 0 ==> q == (ChunksQueryBase, [Text(DemoRuleId)])
    ensures limit.Some? && limit.value != 0 && offset == 0 ==>
      q == (ChunksQueryBase + " LIMIT $2", [Text(DemoRuleId), Int(limit.value)])
    ensures (limit.None? || limit.value == 0) && offset != 0 ==>
      q == (ChunksQueryBase + " OFFSET $2", [Text(DemoRuleId), Int(offset)])
    ensures limit.Some? && limit.value != 0 && offset != 0 ==>
      q == (ChunksQueryBase + " LIMIT $2 OFFSET $3", [Text(DemoRuleId), Int(limit.value), Int(offset)])
  {
    assert NatToString(2) == "2" && NatToString(3) == "3";
    var withLimit := limit.Some? && limit.value != 0;
    var params := if withLimit then [Text(DemoRuleId), Int(limit.value)] else [Text(DemoRuleId)];
    var query := if withLimit then ChunksQueryBase + " LIMIT $" + NatToString(2) else ChunksQueryBase;
    assert ChunksQueryBase + " LIMIT $" + "2" + " OFFSET $" + "3" == ChunksQueryBase + " LIMIT $2 OFFSET $3";
    assert withLimit ==> [Text(DemoRuleId), Int(limit.value)] + [Int(offset)] == [Text(DemoRuleId), Int(limit.value), Int(offset)];
    assert [Text(DemoRuleId)] + [Int(offset)] == [Text(DemoRuleId), Int(offset)];
    assert ChunksQueryBase + " LIMIT $" + "2" == ChunksQueryBase + " LIMIT $2";
    assert ChunksQueryBase + " OFFSET $" + "2" == ChunksQueryBase + " OFFSET $2";
    assert NatToString(|params| + 1) == if withLimit then "3" else "2";
    if offset != 0 then (query + " OFFSET $" + NatToString(|params| + 1), params + [Int(offset)])
    else (query, params)
  }
}
