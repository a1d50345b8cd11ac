// Syncing a regulation into `regulation_chunks`: pick the source, normalise
// its pre-chunked JSON, embed every chunk that has text, and upsert the
// chunks by hash, refreshing only the embedding of a chunk already stored.

module RegulationSync {
  import opened Common
  import opened Hashing
  import opened Embeddings
  import opened RegulationProcessor
  import opened Database

  // ------------------------------------------------------------ rule id

  /** `f"{regulator}_{document_type}"` */
  function RuleId(regulator: string, documentType: string): string {
    regulator + "_" + documentType
  }

  /** The id names its regulator and document type when the regulator has no
      underscore of its own. */
  lemma RuleIdInjective(r1: string, d1: string, r2: string, d2: string)
    requires '_' !in r1 && '_' !in r2
    requires RuleId(r1, d1) == RuleId(r2, d2)
    ensures r1 == r2 && d1 == d2
  {
    var id := RuleId(r1, d1);
    forall i | 0 <= i < |r1|
      ensures id[i] != '_'
    {
      assert id[i] == r1[i] && r1[i] in r1;
    }
    forall i | 0 <= i < |r2|
      ensures id[i] != '_'
    {
      assert id[i] == r2[i] && r2[i] in r2;
    }
    assert id[|r1|] == '_' && id[|r2|] == '_';
    assert r1 == id[..|r1|] == r2;
    assert d1 == id[|r1| + 1..] == d2;
  }

  /** Without that condition two different syncs share a rule id. */
  lemma RuleIdCollides()
    ensures RuleId("SEBI_X", "circular") == RuleId("SEBI", "X_circular")
  {
  }

  // ------------------------------------------------------------ source

  /** `regulation_processor.process_json_chunks(data.get("chunks", []), …)`
      for pre-chunked data, a missing URL fetcher for a URL, and a
      ValueError for neither. An absent `document_data` is the empty map, as
      falsy as `{}`. */
  function Source(ruleId: string, regulator: string, documentData: map<string, Json>, documentUrl: Option<string>)
    : (r: Result<seq<RegulationChunk>>)
    ensures documentData != map[] ==> r == ProcessJsonChunks(Get(documentData, "chunks", JList([])), ruleId, regulator + " regulations")
    ensures documentData == map[] && documentUrl.Some? && documentUrl.value != [] ==> r.Err? && r.error.NotImplementedError?
    ensures documentData == map[] && (documentUrl.None? || documentUrl.value == []) ==> r.Err? && r.error.ValueError?
  {
    if documentData != map[] then
      ProcessJsonChunks(Get(documentData, "chunks", JList([])), ruleId, regulator + " regulations")
    else if documentUrl.Some? && documentUrl.value != [] then
      Err(NotImplementedError("URL-based regulation sync not yet implemented"))
    else
      Err(ValueError("Either document_data or document_url must be provided"))
  }

  /** Whenever both are given, the data wins and no fetch is attempted. */
  lemma DataBeforeUrl(ruleId: string, regulator: string, documentData: map<string, Json>, url: string)
    requires documentData != map[]
    ensures Source(ruleId, regulator, documentData, Some(url)) == Source(ruleId, regulator, documentData, None)
    ensures Source(ruleId, regulator, documentData, Some(url)).Err? ==> Source(ruleId, regulator, documentData, Some(url)).error.ValueError?
  {
  }

  // ------------------------------------------------------------ embeddings

  /** A chunk dict after `_generate_embeddings`: its `"embedding"` key is set
      only when its text is non-empty. */
  datatype SyncRow = SyncRow(chunk: RegulationChunk, embedding: Option<Vector>)

  /** The number of chunks with text, so of `embed_text` calls, among `chunks`. */
  function WithText(chunks: seq<RegulationChunk>): (n: nat)
    ensures n <= |chunks|
  {
    if chunks == [] then 0 else (if chunks[0].chunkText != [] then 1 else 0) + WithText(chunks[1..])
  }

  function Cons(row: SyncRow, rest: Result<seq<SyncRow>>): Result<seq<SyncRow>> {
    match rest
    case Ok(tail) => Ok([row] + tail)
    case Err(e) => Err(e)
  }

  /** `_generate_embeddings`, the first `embed_text` call being number `call`:
      the first failing call aborts the whole sync. */
  function Embedded(chunks: seq<RegulationChunk>, embed: Embedder, call: nat): (r: Result<seq<SyncRow>>)
    ensures r.Ok? ==> |r.value| == |chunks|
    ensures r.Ok? ==> forall k :: 0 <= k < |chunks| ==> r.value[k].chunk == chunks[k]
    ensures r.Ok? ==> forall k :: 0 <= k < |chunks| ==> (r.value[k].embedding.Some? <==> chunks[k].chunkText != [])
  {
    if chunks == [] then Ok([])
    else
      var c := chunks[0];
      if c.chunkText == [] then Cons(SyncRow(c, None), Embedded(chunks[1..], embed, call))
      else
        match embed(call, c.chunkText)
        case Err(e) => Err(e)
        case Ok(v) => Cons(SyncRow(c, Some(v)), Embedded(chunks[1..], embed, call + 1))
  }

  /** The number of the `embed_text` call made for chunk `k`: calls are
      numbered in order over the chunks with text. */
  function CallNo(chunks: seq<RegulationChunk>, call: nat, k: nat): nat
    requires k <= |chunks|
  {
    call + WithText(chunks[..k])
  }

  /** The call for chunk `k` fails. */
  predicate FailsAt(chunks: seq<RegulationChunk>, embed: Embedder, call: nat, k: nat) {
    k < |chunks| && chunks[k].chunkText != [] && embed(CallNo(chunks, call, k), chunks[k].chunkText).Err?
  }

  /** The call number after the first chunk. */
  function Next(chunks: seq<RegulationChunk>, call: nat): nat
    requires chunks != []
  {
    if chunks[0].chunkText == [] then call else call + 1
  }

  lemma CallNoShift(chunks: seq<RegulationChunk>, call: nat, k: nat)
    requires 0 < k <= |chunks|
    ensures CallNo(chunks, call, k) == CallNo(chunks[1..], Next(chunks, call), k - 1)
  {
    assert chunks[..k] == [chunks[0]] + chunks[1..][..k - 1];
  }

  /** One chunk of `_generate_embeddings`. */
  lemma EmbeddedStep(chunks: seq<RegulationChunk>, embed: Embedder, call: nat)
    requires chunks != []
    ensures var c := chunks[0];
      Embedded(chunks, embed, call) ==
        if c.chunkText == [] then Cons(SyncRow(c, None), Embedded(chunks[1..], embed, call))
        else if embed(call, c.chunkText).Err? then Err(embed(call, c.chunkText).error)
        else Cons(SyncRow(c, Some(embed(call, c.chunkText).value)), Embedded(chunks[1..], embed, call + 1))
  {
  }

  /** Each embedding is the answer to the call made for its chunk. */
  lemma {:induction false} EmbeddedCalls(chunks: seq<RegulationChunk>, embed: Embedder, call: nat, k: nat)
    requires k < |chunks| && chunks[k].chunkText != []
    requires Embedded(chunks, embed, call).Ok?
    ensures embed(CallNo(chunks, call, k), chunks[k].chunkText) == Ok(Embedded(chunks, embed, call).value[k].embedding.value)
  {
    EmbeddedStep(chunks, embed, call);
    if k == 0 {
      assert chunks[..0] == [];
    } else {
      CallNoShift(chunks, call, k);
      EmbeddedCalls(chunks[1..], embed, Next(chunks, call), k - 1);
    }
  }

  /** The sync fails exactly when some call made for a chunk with text fails. */
  lemma {:induction false} EmbeddedFails(chunks: seq<RegulationChunk>, embed: Embedder, call: nat)
    ensures Embedded(chunks, embed, call).Err? <==> exists k: nat :: FailsAt(chunks, embed, call, k)
  {
    if chunks != [] {
      var next := Next(chunks, call);
      EmbeddedStep(chunks, embed, call);
      EmbeddedFails(chunks[1..], embed, next);
      forall k | 0 < k < |chunks|
        ensures FailsAt(chunks, embed, call, k) <==> FailsAt(chunks[1..], embed, next, k - 1)
      {
        CallNoShift(chunks, call, k);
      }
      assert chunks[..0] == [];
      if FailsAt(chunks, embed, call, 0) {
        assert Embedded(chunks, embed, call).Err?;
      } else {
        if exists k: nat :: FailsAt(chunks[1..], embed, next, k) {
          var k: nat :| FailsAt(chunks[1..], embed, next, k);
          CallNoShift(chunks, call, k + 1);
          assert FailsAt(chunks, embed, call, k + 1);
        }
        if exists k: nat :: FailsAt(chunks, embed, call, k) {
          var k: nat :| FailsAt(chunks, embed, call, k);
          CallNoShift(chunks, call, k);
          assert FailsAt(chunks[1..], embed, next, k - 1);
        }
      }
    }
  }

  /** The rows embedded so far in front of what the rest gives. */
  function Prefixed(done: seq<SyncRow>, rest: Result<seq<SyncRow>>): Result<seq<SyncRow>> {
    match rest
    case Ok(tail) => Ok(done + tail)
    case Err(e) => Err(e)
  }

  lemma PrefixedCons(done: seq<SyncRow>, row: SyncRow, rest: Result<seq<SyncRow>>)
    ensures Prefixed(done, Cons(row, rest)) == Prefixed(done + [row], rest)
  {
    if rest.Ok? {
      AppendAssoc(done, [row], rest.value);
    }
  }

  /** One pass of the loop of `_generate_embeddings`, at chunk `i`. */
  lemma PrefixedStep(chunks: seq<RegulationChunk>, embed: Embedder, n: nat, done: seq<SyncRow>, i: nat)
    requires i < |chunks|
    ensures var c := chunks[i];
      WithText(chunks[..i + 1]) == WithText(chunks[..i]) + (if c.chunkText == [] then 0 else 1)
    ensures var c := chunks[i];
      Prefixed(done, Embedded(chunks[i..], embed, n)) ==
        if c.chunkText == [] then Prefixed(done + [SyncRow(c, None)], Embedded(chunks[i + 1..], embed, n))
        else if embed(n, c.chunkText).Err? then Err(embed(n, c.chunkText).error)
        else Prefixed(done + [SyncRow(c, Some(embed(n, c.chunkText).value))], Embedded(chunks[i + 1..], embed, n + 1))
  {
    var c := chunks[i];
    EmbeddedStep(chunks[i..], embed, n);
    assert chunks[i..][0] == c && chunks[i..][1..] == chunks[i + 1..];
    assert chunks[..i + 1] == chunks[..i] + [c];
    WithTextSnoc(chunks[..i], c);
    if c.chunkText == [] {
      PrefixedCons(done, SyncRow(c, None), Embedded(chunks[i + 1..], embed, n));
    } else if embed(n, c.chunkText).Ok? {
      PrefixedCons(done, SyncRow(c, Some(embed(n, c.chunkText).value)), Embedded(chunks[i + 1..], embed, n + 1));
    }
  }

  /** The loop of `_generate_embeddings`, which sets `chunk["embedding"]` on
      each chunk with text; `calls` is the number of `embed_text` calls made
      when none failed. */
  method GenerateEmbeddings(chunks: seq<RegulationChunk>, embed: Embedder, call: nat) returns (r: Result<seq<SyncRow>>, calls: nat)
    ensures r == Embedded(chunks, embed, call)
    ensures r.Ok? ==> calls == WithText(chunks)
  {
    var done: seq<SyncRow> := [];
    var i := 0;
    calls := 0;
    assert chunks[0..] == chunks;
    assert Prefixed([], Embedded(chunks, embed, call)) == Embedded(chunks, embed, call) by {
      match Embedded(chunks, embed, call) {
        case Ok(tail) => assert [] + tail == tail;
        case Err(_) =>
      }
    }
    while i < |chunks|
      invariant 0 <= i <= |chunks|
      invariant calls == WithText(chunks[..i])
      invariant Embedded(chunks, embed, call) == Prefixed(done, Embedded(chunks[i..], embed, call + calls))
    {
      var c := chunks[i];
      PrefixedStep(chunks, embed, call + calls, done, i);
      if c.chunkText == [] {
        done := done + [SyncRow(c, None)];
      } else {
        var v := embed(call + calls, c.chunkText);
        if v.Err? {
          r := Err(v.error);
          return;
        }
        done := done + [SyncRow(c, Some(v.value))];
        calls := calls + 1;
      }
      assert Embedded(chunks, embed, call) == Prefixed(done, Embedded(chunks[i + 1..], embed, call + calls));
      i := i + 1;
    }
    assert chunks[..|chunks|] == chunks;
    assert Embedded(chunks[i..], embed, call + calls) == Ok([]);
    assert done + [] == done;
    r := Ok(done);
  }

  lemma {:induction false} WithTextSnoc(chunks: seq<RegulationChunk>, c: RegulationChunk)
    ensures WithText(chunks + [c]) == WithText(chunks) + (if c.chunkText != [] then 1 else 0)
  {
    if chunks == [] {
      assert [] + [c] == [c];
      assert [c][1..] == [];
    } else {
      assert (chunks + [c])[1..] == chunks[1..] + [c];
      WithTextSnoc(chunks[1..], c);
    }
  }

  // ------------------------------------------------------------ storing

  /** The text bound to `$7::vector`: the values comma-joined in brackets. */
  function VectorLiteral(v: Vector, show: real -> string): (s: string)
    ensures |s| >= 2 && s[0] == '[' && s[|s| - 1] == ']'
  {
    "[" + Join(Shown(v, show), ",") + "]"
  }

  function Shown(v: Vector, show: real -> string): (r: seq<string>)
    ensures |r| == |v| && forall k :: 0 <= k < |v| ==> r[k] == show(v[k])
  {
    seq(|v|, k requires 0 <= k < |v| => show(v[k]))
  }

  /** When no rendered value holds a comma, the literal reads back as the
      rendered values. */
  lemma VectorLiteralReads(v: Vector, show: real -> string)
    requires |v| > 0
    requires forall k :: 0 <= k < |v| ==> !Contains(show(v[k]), ",")
    ensures var s := VectorLiteral(v, show); Split(s[1..|s| - 1], ",") == Shown(v, show)
  {
    var s := VectorLiteral(v, show);
    var shown := Shown(v, show);
    assert s[1..|s| - 1] == Join(shown, ",");
    forall p | p in shown
      ensures !Contains(p, ",")
    {
      var k :| 0 <= k < |shown| && shown[k] == p;
      assert p == show(v[k]);
    }
    SplitJoin(shown, ",");
  }

  /** The row `_store_chunks` writes for a chunk: an absent or empty
      embedding (`if embedding:`) is bound as NULL, and the summary column
      is not written. */
  function RowOf(row: SyncRow, hex: Digest -> string): (r: RegulationChunkRow)
    ensures r.embedding.Some? <==> row.embedding.Some? && row.embedding.value != []
    ensures r.chunkHash == hex(row.chunk.chunkHash) && r.nlSummary.None?
  {
    var c := row.chunk;
    RegulationChunkRow(
      c.ruleId, c.ruleSection, Some(c.sourceDocument), c.chunkText, c.chunkIndex, hex(c.chunkHash),
      if row.embedding.Some? && row.embedding.value != [] then row.embedding else None,
      None, c.metadata)
  }

  function RowsOf(rows: seq<SyncRow>, hex: Digest -> string): (r: seq<RegulationChunkRow>)
    ensures |r| == |rows| && forall k :: 0 <= k < |rows| ==> r[k] == RowOf(rows[k], hex)
  {
    seq(|rows|, k requires 0 <= k < |rows| => RowOf(rows[k], hex))
  }

  /** `ON CONFLICT (chunk_hash) DO UPDATE SET embedding`: unlike the batch
      insert of the chunk table, the summary is kept. */
  function RefreshEmbedding(existing: RegulationChunkRow, incoming: RegulationChunkRow): RegulationChunkRow {
    existing.(embedding := incoming.embedding)
  }

  function AllButEmbedding(c: RegulationChunkRow): RegulationChunkRow {
    c.(embedding := None)
  }

  function EmbeddingOf(c: RegulationChunkRow): Option<Vector> {
    c.embedding
  }

  /** `_store_chunks`: every chunk upserted in order, and the number of
      chunks given (0 for none). */
  method StoreChunks(table: RegulationChunkTable, rows: seq<SyncRow>, hex: Digest -> string) returns (n: nat)
    modifies table
    ensures table.rows == UpsertAll(old(table.rows), RowsOf(rows, hex), RegulationChunkHash, RefreshEmbedding)
    ensures n == |rows|
  {
    if rows == [] {
      return 0;
    }
    var stored := RowsOf(rows, hex);
    var i := 0;
    while i < |rows|
      invariant 0 <= i <= |rows|
      invariant table.rows == UpsertAll(old(table.rows), stored[..i], RegulationChunkHash, RefreshEmbedding)
    {
      var row := RowOf(rows[i], hex);
      assert stored[..i + 1][..i] == stored[..i] && stored[..i + 1][i] == row;
      assert UpsertAll(old(table.rows), stored[..i + 1], RegulationChunkHash, RefreshEmbedding)
          == Upsert(table.rows, RegulationChunkHash(row), row, RefreshEmbedding);
      table.rows := Upsert(table.rows, row.chunkHash, row, RefreshEmbedding);
      i := i + 1;
    }
    assert stored[..|rows|] == stored;
    n := |rows|;
  }

  /** A chunk stored before keeps everything but its embedding, its summary
      included. */
  lemma StoreKeepsAllButEmbedding(before: map<string, RegulationChunkRow>, rows: seq<SyncRow>, hex: Digest -> string, hash: string)
    requires hash in before
    ensures hash in UpsertAll(before, RowsOf(rows, hex), RegulationChunkHash, RefreshEmbedding)
    ensures AllButEmbedding(UpsertAll(before, RowsOf(rows, hex), RegulationChunkHash, RefreshEmbedding)[hash]) == AllButEmbedding(before[hash])
    ensures UpsertAll(before, RowsOf(rows, hex), RegulationChunkHash, RefreshEmbedding)[hash].nlSummary == before[hash].nlSummary
  {
    UpsertAllKeeps(before, RowsOf(rows, hex), RegulationChunkHash, RefreshEmbedding, AllButEmbedding, hash);
  }

  /** A chunk's stored embedding is the one the sync computed for it (or
      NULL), when no later chunk shares its hash. */
  lemma StoreTakesNewEmbedding(before: map<string, RegulationChunkRow>, rows: seq<SyncRow>, hex: Digest -> string, k: nat)
    requires k < |rows|
    requires forall j :: k < j < |rows| ==> hex(rows[j].chunk.chunkHash) != hex(rows[k].chunk.chunkHash)
    ensures var after := UpsertAll(before, RowsOf(rows, hex), RegulationChunkHash, RefreshEmbedding);
      && hex(rows[k].chunk.chunkHash) in after
      && after[hex(rows[k].chunk.chunkHash)].embedding == RowOf(rows[k], hex).embedding
  {
    UpsertAllLastWins(before, RowsOf(rows, hex), RegulationChunkHash, RefreshEmbedding, EmbeddingOf, k);
  }

  // ------------------------------------------------------------ sync

  datatype SyncResult = SyncResult(ruleId: string, chunksProcessed: nat, regulator: string, documentType: string)

  /** The rows a sync stores, or the exception it re-raises. */
  function Planned(regulator: string, documentType: string, documentData: map<string, Json>, documentUrl: Option<string>,
                   embed: Embedder, call: nat): (r: Result<seq<SyncRow>>)
  {
    match Source(RuleId(regulator, documentType), regulator, documentData, documentUrl)
    case Err(e) => Err(e)
    case Ok(chunks) => Embedded(chunks, embed, call)
  }

  /** Every planned row belongs to the rule and carries an embedding: the
      normalised chunks all have text. */
  lemma PlannedRowsEmbedded(regulator: string, documentType: string, documentData: map<string, Json>, documentUrl: Option<string>,
                            embed: Embedder, call: nat)
    requires Planned(regulator, documentType, documentData, documentUrl, embed, call).Ok?
    ensures var rows := Planned(regulator, documentType, documentData, documentUrl, embed, call).value;
      forall k :: 0 <= k < |rows| ==> rows[k].chunk.ruleId == RuleId(regulator, documentType) && rows[k].embedding.Some?
  {
    var ruleId := RuleId(regulator, documentType);
    var data := Get(documentData, "chunks", JList([]));
    var chunks := Source(ruleId, regulator, documentData, documentUrl).value;
    assert chunks == ChunksFrom(data.items, 0, ruleId, regulator + " regulations").value;
    ChunksFromSound(data.items, 0, ruleId, regulator + " regulations");
    forall k | 0 <= k < |chunks|
      ensures chunks[k].ruleId == ruleId && chunks[k].chunkText != []
    {
      var o := ProcessEntry(data.items[chunks[k].chunkIndex], chunks[k].chunkIndex, ruleId, regulator + " regulations");
      assert o == Made(chunks[k]);
    }
  }

  /** `sync_regulation`: the chunk table changes only when every step
      succeeds, and the result reports the stored count. */
  method SyncRegulation(regulator: string, documentType: string, documentData: map<string, Json>, documentUrl: Option<string>,
                        embed: Embedder, call: nat, hex: Digest -> string, table: RegulationChunkTable)
    returns (r: Result<SyncResult>)
    modifies table
    ensures var plan := Planned(regulator, documentType, documentData, documentUrl, embed, call);
      && (plan.Err? ==> r == Err(plan.error) && table.rows == old(table.rows))
      && (plan.Ok? ==> r == Ok(SyncResult(RuleId(regulator, documentType), |plan.value|, regulator, documentType))
                       && table.rows == UpsertAll(old(table.rows), RowsOf(plan.value, hex), RegulationChunkHash, RefreshEmbedding))
  {
    var ruleId := RuleId(regulator, documentType);
    var chunks := Source(ruleId, regulator, documentData, documentUrl);
    if chunks.Err? {
      return Err(chunks.error);
    }
    var rows, _ := GenerateEmbeddings(chunks.value, embed, call);
    if rows.Err? {
      return Err(rows.error);
    }
    var stored := StoreChunks(table, rows.value, hex);
    r := Ok(SyncResult(ruleId, stored, regulator, documentType));
  }
}
