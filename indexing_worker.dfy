// The background worker: the indexing job (collect the repository's source
// files, chunk them, embed and summarise each chunk through the Redis cache,
// store the chunks and the repository's sync status) and the compliance
// analysis job (search the code nearest to each regulation clause, ask the
// model about each close match, store the violations and finish the scan),
// each wrapped by the job that records its status in the `jobs` table.
//
// The clone, the providers, the hash rendering and the clock are parameters.

module IndexingWorker {
  import opened Common
  import opened KeyValue
  import opened Database
  import opened JobQueue
  import Hashing
  import Embeddings
  import Chunker
  import Analysis

  // ---------------------------------------------------------------- settings and services

  /** The settings the worker reads: `max_file_size_mb` (10), the chunker's
      token bounds and `similarity_threshold` (0.7). */
  datatype WorkerSettings = WorkerSettings(maxFileSizeMb: nat, chunking: Chunker.Settings, similarityThreshold: real)

  const DefaultSettings: WorkerSettings :=
    WorkerSettings(10, Chunker.Settings(Chunker.DefaultMaxTokens, Chunker.DefaultMinTokens), 0.7)

  /** What a clone yields: the checked-out commit and the files under it. */
  datatype Checkout = Checkout(commitSha: string, files: seq<SourceFile>)

  /** The services the jobs call out to. `hex` renders a digest as
      `hexdigest()` does; `embed` is `embed_text`; `summarize(code,
      language, path)` is `generate_code_summary`; `parse` is `json.loads`
      on text; `installationToken` is the GitHub App token; `checkout(name,
      token, sha)` clones and reads the repository; `complete` is the
      model's reply to the analysis prompt for a chunk; `distance` is
      pgvector's `<->`. */
  datatype Services = Services(
    hex: Hashing.Digest -> string,
    embed: string -> Result<Vector>,
    summarize: (string, string, string) -> Result<string>,
    parse: string -> Option<Json>,
    installationToken: int -> Result<string>,
    checkout: (string, string, Option<string>) -> Result<Checkout>,
    complete: (string, CodeChunkRow) -> Result<string>,
    distance: (Vector, CodeChunkRow) -> real)

  // ---------------------------------------------------------------- job status

  /** A row of the `jobs` table. */
  datatype JobRow = JobRow(status: string, result: Option<Json>, error: Option<string>,
                           startedAt: Option<nat>, completedAt: Option<nat>)

  /** The row after `update_job_status`: status, result and error are
      overwritten, `started_at` is stamped by `"running"` and `completed_at`
      by a finished status; otherwise both are kept. */
  function JobUpdated(row: JobRow, status: string, result: Option<Json>, error: Option<string>, now: nat): JobRow {
    row.(status := status, result := result, error := error,
         startedAt := if status == "running" then Some(now) else row.startedAt,
         completedAt := if Finished(status) then Some(now) else row.completedAt)
  }

  /** A job that is started and later finished records both times, in
      order, and whatever result and error it finished with. */
  lemma JobTimeline(row: JobRow, final: string, result: Option<Json>, error: Option<string>, started: nat, finished: nat)
    requires Finished(final) && started <= finished
    ensures var r := JobUpdated(JobUpdated(row, "running", None, None, started), final, result, error, finished);
      && r.status == final && r.result == result && r.error == error
      && r.startedAt == Some(started) && r.completedAt == Some(finished)
      && r.startedAt.value <= r.completedAt.value
  {
    assert final != "running";
  }

  class JobTable {
    var rows: map<string, JobRow>

    constructor ()
      ensures rows == map[]
    {
      rows := map[];
    }

    /** `update_job_status`: an unknown job id changes nothing. */
    method UpdateJobStatus(jobId: string, status: string, result: Option<Json>, error: Option<string>, now: nat)
      modifies this
      ensures jobId in old(rows) ==> rows == old(rows)[jobId := JobUpdated(old(rows)[jobId], status, result, error, now)]
      ensures jobId !in old(rows) ==> rows == old(rows)
    {
      if jobId in rows {
        rows := rows[jobId := JobUpdated(rows[jobId], status, result, error, now)];
      }
    }
  }

  /** The status a job ends with: `"completed"` exactly when its result
      says `"success"`. */
  function FinalJobStatus(result: Json): (s: string)
    ensures s == "completed" || s == "failed"
    ensures s == "completed" <==> result.JObject? && Get(result.fields, "status", JNull) == JStr("success")
  {
    if result.JObject? && Get(result.fields, "status", JNull) == JStr("success") then "completed" else "failed"
  }

  /** `result.get("error")` as the job's error column. */
  function ErrorField(result: Json): (e: Option<string>)
    ensures e.Some? ==> result.JObject? && Get(result.fields, "error", JNull) == JStr(e.value)
  {
    if result.JObject? && Get(result.fields, "error", JNull).JStr? then Some(Get(result.fields, "error", JNull).s) else None
  }

  /** `if job_id:` */
  predicate HasJob(jobId: Option<string>) {
    jobId.Some? && jobId.value != ""
  }

  // ---------------------------------------------------------------- source files

  const IndexedExtensions: seq<string> := [".py", ".js", ".ts", ".java", ".go"]
  const GitDir: string := ".git"
  const NodeModules: string := "node_modules"
  const Separator: string := "/"
  const BytesPerMb: nat := 1024 * 1024

  /** A file of the checkout: its path under the clone and its content,
      or the error reading it as UTF-8 raised. */
  datatype SourceFile = SourceFile(relativePath: string, content: Result<string>)

  /** Files under `.git` or `node_modules` are never read. */
  predicate Excluded(f: SourceFile) {
    var parts := Split(f.relativePath, Separator);
    GitDir in parts || NodeModules in parts
  }

  /** `rglob("*" + ext)` finds the file. */
  predicate Matches(f: SourceFile, ext: string) {
    EndsWith(f.relativePath, ext)
  }

  /** The file reads, and is no longer than the size limit. */
  predicate Readable(f: SourceFile, maxMb: nat) {
    f.content.Ok? && |f.content.value| <= maxMb * BytesPerMb
  }

  /** The pass for `ext` chunks the file. */
  predicate Kept(f: SourceFile, ext: string, maxMb: nat) {
    Matches(f, ext) && !Excluded(f) && Readable(f, maxMb)
  }

  /** Whether the file is indexed by some pass. */
  predicate Indexed(f: SourceFile, maxMb: nat) {
    !Excluded(f) && Readable(f, maxMb) && MatchesAmong(f, |IndexedExtensions|)
  }

  /** The files one extension's pass chunks, in walk order. */
  function Selected(files: seq<SourceFile>, ext: string, maxMb: nat): seq<SourceFile> {
    if files == [] then []
    else
      var last := files[|files| - 1];
      Selected(files[..|files| - 1], ext, maxMb) + (if Kept(last, ext, maxMb) then [last] else [])
  }

  /** The files all passes for `exts` chunk, pass after pass. */
  function Collected(files: seq<SourceFile>, exts: seq<string>, maxMb: nat): seq<SourceFile> {
    if exts == [] then []
    else Collected(files, exts[..|exts| - 1], maxMb) + Selected(files, exts[|exts| - 1], maxMb)
  }

  /** `chunk_file(relative_path, content, repo_uuid)` for a file that reads. */
  function ChunksOf(f: SourceFile, repoId: nat, s: Chunker.Settings): seq<Chunker.Chunk> {
    if f.content.Ok? then Chunker.ChunkFile(f.relativePath, f.content.value, NatToString(repoId), s) else []
  }

  function ChunksOfFiles(fs: seq<SourceFile>, repoId: nat, s: Chunker.Settings): seq<Chunker.Chunk> {
    if fs == [] then [] else ChunksOfFiles(fs[..|fs| - 1], repoId, s) + ChunksOf(fs[|fs| - 1], repoId, s)
  }

  lemma SelectedNext(files: seq<SourceFile>, i: nat, ext: string, maxMb: nat)
    requires i < |files|
    ensures Selected(files[..i + 1], ext, maxMb) ==
            Selected(files[..i], ext, maxMb) + (if Kept(files[i], ext, maxMb) then [files[i]] else [])
  {
    assert files[..i + 1][..i] == files[..i];
  }

  lemma CollectedNext(files: seq<SourceFile>, exts: seq<string>, e: nat, maxMb: nat)
    requires e < |exts|
    ensures Collected(files, exts[..e + 1], maxMb) == Collected(files, exts[..e], maxMb) + Selected(files, exts[e], maxMb)
  {
    assert exts[..e + 1][..e] == exts[..e];
  }

  lemma ChunksOfFilesNext(fs: seq<SourceFile>, f: SourceFile, repoId: nat, s: Chunker.Settings)
    ensures ChunksOfFiles(fs + [f], repoId, s) == ChunksOfFiles(fs, repoId, s) + ChunksOf(f, repoId, s)
  {
    assert (fs + [f])[..|fs|] == fs;
  }

  /** The file loop: one pass over the walk per extension, in order;
      skipped files add nothing, chunked files add their chunks and count
      once. */
  method CollectChunks(files: seq<SourceFile>, repoId: nat, maxMb: nat, s: Chunker.Settings)
    returns (all: seq<Chunker.Chunk>, fileCount: nat)
    ensures fileCount == |Collected(files, IndexedExtensions, maxMb)|
    ensures all == ChunksOfFiles(Collected(files, IndexedExtensions, maxMb), repoId, s)
  {
    all := [];
    fileCount := 0;
    ghost var picked: seq<SourceFile> := [];
    var e := 0;
    while e < |IndexedExtensions|
      invariant 0 <= e <= |IndexedExtensions|
      invariant picked == Collected(files, IndexedExtensions[..e], maxMb)
      invariant fileCount == |picked| && all == ChunksOfFiles(picked, repoId, s)
    {
      var ext := IndexedExtensions[e];
      ghost var before := picked;
      var i := 0;
      while i < |files|
        invariant 0 <= i <= |files|
        invariant picked == before + Selected(files[..i], ext, maxMb)
        invariant fileCount == |picked| && all == ChunksOfFiles(picked, repoId, s)
      {
        var f := files[i];
        SelectedNext(files, i, ext, maxMb);
        if Matches(f, ext) && !Excluded(f) && f.content.Ok? && |f.content.value| <= maxMb * BytesPerMb {
          var chunks := Chunker.ChunkFile(f.relativePath, f.content.value, NatToString(repoId), s);
          ChunksOfFilesNext(picked, f, repoId, s);
          AppendAssoc(before, Selected(files[..i], ext, maxMb), [f]);
          all := all + chunks;
          fileCount := fileCount + 1;
          picked := picked + [f];
        }
        i := i + 1;
      }
      assert files[..|files|] == files;
      CollectedNext(files, IndexedExtensions, e, maxMb);
      e := e + 1;
    }
    assert IndexedExtensions[..|IndexedExtensions|] == IndexedExtensions;
  }

  lemma EndsWithChars(p: string, suffix: string)
    requires EndsWith(p, suffix) && |suffix| >= 2
    ensures p[|p| - 1] == suffix[|suffix| - 1] && p[|p| - 2] == suffix[|suffix| - 2]
  {
    assert p[|p| - |suffix|..][|suffix| - 1] == p[|p| - 1];
    assert p[|p| - |suffix|..][|suffix| - 2] == p[|p| - 2];
  }

  /** No path ends with two of the indexed extensions. */
  lemma ExtensionsExclusive(p: string, i: nat, j: nat)
    requires i < j < |IndexedExtensions|
    ensures !(EndsWith(p, IndexedExtensions[i]) && EndsWith(p, IndexedExtensions[j]))
  {
    assert IndexedExtensions[0] == ".py" && IndexedExtensions[1] == ".js" && IndexedExtensions[2] == ".ts";
    assert IndexedExtensions[3] == ".java" && IndexedExtensions[4] == ".go";
    if EndsWith(p, IndexedExtensions[i]) && EndsWith(p, IndexedExtensions[j]) {
      EndsWithChars(p, IndexedExtensions[i]);
      EndsWithChars(p, IndexedExtensions[j]);
    }
  }

  /** One pass keeps each copy of a file exactly when it matches and is
      kept. */
  lemma {:induction false} SelectedCount(files: seq<SourceFile>, ext: string, maxMb: nat, f: SourceFile)
    ensures multiset(Selected(files, ext, maxMb))[f] == if Kept(f, ext, maxMb) then multiset(files)[f] else 0
  {
    if files != [] {
      var init := files[..|files| - 1];
      SelectedCount(init, ext, maxMb, f);
      assert files == init + [files[|files| - 1]];
    }
  }

  /** The path has one of the first `n` extensions. */
  predicate MatchesAmong(f: SourceFile, n: nat)
    requires n <= |IndexedExtensions|
  {
    exists k :: 0 <= k < n && Matches(f, IndexedExtensions[k])
  }

  lemma MatchesAmongNext(f: SourceFile, n: nat)
    requires 0 < n <= |IndexedExtensions|
    ensures MatchesAmong(f, n) <==> MatchesAmong(f, n - 1) || Matches(f, IndexedExtensions[n - 1])
    ensures Matches(f, IndexedExtensions[n - 1]) ==> !MatchesAmong(f, n - 1)
  {
    if Matches(f, IndexedExtensions[n - 1]) && MatchesAmong(f, n - 1) {
      var k :| 0 <= k < n - 1 && Matches(f, IndexedExtensions[k]);
      ExtensionsExclusive(f.relativePath, k, n - 1);
    }
  }

  /** The passes for the first `n` extensions chunk each copy of a file
      once when it is readable, not excluded and has one of them. */
  lemma {:induction false} CollectedCount(files: seq<SourceFile>, maxMb: nat, f: SourceFile, n: nat)
    requires n <= |IndexedExtensions|
    ensures multiset(Collected(files, IndexedExtensions[..n], maxMb))[f] ==
            if !Excluded(f) && Readable(f, maxMb) && MatchesAmong(f, n) then multiset(files)[f] else 0
  {
    if n > 0 {
      var exts := IndexedExtensions[..n];
      assert exts[..n - 1] == IndexedExtensions[..n - 1] && exts[n - 1] == IndexedExtensions[n - 1];
      var earlier := Collected(files, IndexedExtensions[..n - 1], maxMb);
      var now := Selected(files, IndexedExtensions[n - 1], maxMb);
      assert Collected(files, exts, maxMb) == earlier + now;
      assert multiset(earlier + now) == multiset(earlier) + multiset(now);
      CollectedCount(files, maxMb, f, n - 1);
      SelectedCount(files, IndexedExtensions[n - 1], maxMb, f);
      MatchesAmongNext(f, n);
    }
  }

  /** Every indexed file is chunked exactly as often as it occurs in the
      walk, and no other file is: the five passes never chunk a file
      twice. */
  lemma IndexedOnce(files: seq<SourceFile>, maxMb: nat, f: SourceFile)
    ensures multiset(Collected(files, IndexedExtensions, maxMb))[f] == if Indexed(f, maxMb) then multiset(files)[f] else 0
  {
    CollectedCount(files, maxMb, f, |IndexedExtensions|);
    assert IndexedExtensions[..|IndexedExtensions|] == IndexedExtensions;
  }

  // ---------------------------------------------------------------- process_chunk

  /** What `get_cached_embedding` gave, as the value put into the chunk. */
  function LoadedJson(l: Loaded): Json {
    match l
    case Decoded(j) => j
    case RawText(t) => JStr(t)
  }

  /** Python truthiness of a cached embedding. */
  predicate LoadedTruthy(l: Loaded) {
    match l
    case Decoded(j) => Truthy(j)
    case RawText(t) => t != ""
  }

  /** The chunk fields `process_chunk` fills in: the embedding as the value
      it came as, the summary as the stored string. */
  datatype Derived = Derived(embedding: Option<Json>, summary: Option<Value>)

  datatype Step = Step(derived: Derived, strings: map<string, Value>)

  /** The embedding half: a truthy cached value is reused; otherwise a
      fresh one is asked for and cached when it comes; a failure leaves
      `None` and caches nothing. */
  function EmbeddingHalf(strings: map<string, Value>, textHash: string, text: string, svc: Services)
    : (Option<Json>, map<string, Value>)
  {
    var cached := CachedEmbedding(strings, textHash, svc.parse);
    if cached.Some? && LoadedTruthy(cached.value) then (Some(LoadedJson(cached.value)), strings)
    else match svc.embed(text)
      case Ok(v) => (Some(Embeddings.ToJson(v)), strings[EmbeddingKey(textHash) := Dumped(Embeddings.ToJson(v))])
      case Err(_) => (None, strings)
  }

  /** The summary half, alike, with the summary read before the embedding
      was written. */
  function SummaryHalf(cached: Option<Value>, strings: map<string, Value>, chunkHash: string, c: Chunker.Chunk, svc: Services)
    : (Option<Value>, map<string, Value>)
  {
    if cached.Some? && NonEmpty(cached.value) then (cached, strings)
    else match svc.summarize(c.text, c.language, c.filePath)
      case Ok(s) => (Some(Raw(s)), strings[SummaryKey(chunkHash) := Raw(s)])
      case Err(_) => (None, strings)
  }

  /** `process_chunk` on a reachable cache: the chunk's new fields and the
      cache afterwards. */
  function ProcessOutcome(strings: map<string, Value>, c: Chunker.Chunk, svc: Services): Step {
    var textHash := svc.hex(Embeddings.TextHash(c.text));
    var chunkHash := svc.hex(c.chunkHash);
    var cachedSummary := CachedSummary(strings, chunkHash);
    var e := EmbeddingHalf(strings, textHash, c.text, svc);
    var s := SummaryHalf(cachedSummary, e.1, chunkHash, c, svc);
    Step(Derived(e.0, s.0), s.1)
  }

  /** `process_chunk`: the cache reads come first; an unreachable cache
      raises out of them and changes nothing. */
  method ProcessChunk(queue: JobQueue, c: Chunker.Chunk, svc: Services) returns (r: Result<Derived>)
    requires queue.asyncRedis == queue.server
    modifies queue, queue.server
    ensures queue.asyncRedis == queue.server && queue.jobs == old(queue.jobs) && queue.server.up == old(queue.server.up)
    ensures old(queue.server.up) ==> var step := ProcessOutcome(old(queue.server.strings), c, svc);
      r == Ok(step.derived) && queue.server.strings == step.strings
    ensures !old(queue.server.up) ==> r == Err(Unavailable) && queue.server.strings == old(queue.server.strings)
  {
    var textHash := svc.hex(Embeddings.TextHash(c.text));
    var chunkHash := svc.hex(c.chunkHash);
    // Both reads fail together or not at all, so the error raised is the
    // embedding read's either way.
    var cachedEmbedding := queue.GetCachedEmbedding(textHash, svc.parse);
    var cachedSummary := queue.GetCachedSummary(chunkHash);
    if cachedEmbedding.Err? {
      return Err(cachedEmbedding.error);
    }
    var embedding: Option<Json>;
    if cachedEmbedding.value.Some? && LoadedTruthy(cachedEmbedding.value.value) {
      embedding := Some(LoadedJson(cachedEmbedding.value.value));
    } else {
      match svc.embed(c.text) {
        case Ok(v) =>
          embedding := Some(Embeddings.ToJson(v));
          var written := queue.CacheEmbedding(textHash, Embeddings.ToJson(v));
        case Err(_) =>
          embedding := None;
      }
    }
    var summary: Option<Value>;
    if cachedSummary.value.Some? && NonEmpty(cachedSummary.value.value) {
      summary := cachedSummary.value;
    } else {
      match svc.summarize(c.text, c.language, c.filePath) {
        case Ok(s) =>
          summary := Some(Raw(s));
          var written := queue.CacheSummary(chunkHash, s);
        case Err(_) =>
          summary := None;
      }
    }
    r := Ok(Derived(embedding, summary));
  }

  /** A truthy cached embedding is used as it is: the provider is not
      asked, so any provider gives the same chunk. */
  lemma CachedEmbeddingReused(strings: map<string, Value>, c: Chunker.Chunk, svc: Services, embed: string -> Result<Vector>)
    requires var cached := CachedEmbedding(strings, svc.hex(Embeddings.TextHash(c.text)), svc.parse);
      cached.Some? && LoadedTruthy(cached.value)
    ensures ProcessOutcome(strings, c, svc).derived.embedding == ProcessOutcome(strings, c, svc.(embed := embed)).derived.embedding
    ensures ProcessOutcome(strings, c, svc).derived.embedding ==
            Some(LoadedJson(CachedEmbedding(strings, svc.hex(Embeddings.TextHash(c.text)), svc.parse).value))
  {
  }

  /** A fresh non-empty embedding and summary are cached so that the next
      time the same chunk is processed both are read back, whatever the
      providers answer then, and the embedding is stored as the vector
      itself. */
  lemma ProcessedTwice(strings: map<string, Value>, c: Chunker.Chunk, svc: Services, later: Services, v: Vector, s: string)
    requires later.hex == svc.hex && later.parse == svc.parse
    requires CachedEmbedding(strings, svc.hex(Embeddings.TextHash(c.text)), svc.parse).None?
    requires CachedSummary(strings, svc.hex(c.chunkHash)).None?
    requires svc.embed(c.text) == Ok(v) && |v| > 0
    requires svc.summarize(c.text, c.language, c.filePath) == Ok(s) && s != ""
    ensures var first := ProcessOutcome(strings, c, svc);
      && first.derived == Derived(Some(Embeddings.ToJson(v)), Some(Raw(s)))
      && ProcessOutcome(first.strings, c, later).derived == first.derived
      && EmbeddingColumn(first.derived.embedding) == Some(v)
      && SummaryColumn(first.derived.summary) == Some(s)
  {
    var textHash := svc.hex(Embeddings.TextHash(c.text));
    var chunkHash := svc.hex(c.chunkHash);
    var e := EmbeddingHalf(strings, textHash, c.text, svc);
    assert e.1 == strings[EmbeddingKey(textHash) := Dumped(Embeddings.ToJson(v))];
    EmbeddingKeepsSummaries(strings, textHash, Embeddings.ToJson(v), chunkHash);
    var after := e.1[SummaryKey(chunkHash) := Raw(s)];
    SummaryRoundTrip(e.1, chunkHash, s, textHash, svc.parse);
    EmbeddingRoundTrip(strings, textHash, Embeddings.ToJson(v), svc.parse);
    assert CachedEmbedding(after, textHash, svc.parse) == Some(Decoded(Embeddings.ToJson(v)));
    assert Embeddings.ToJson(v).items != [];
    Embeddings.VectorRoundTrip(v);
  }

  /** A failed embedding leaves `None` in the chunk and nothing new in the
      embedding cache. */
  lemma FailedEmbeddingNotCached(strings: map<string, Value>, c: Chunker.Chunk, svc: Services)
    requires CachedEmbedding(strings, svc.hex(Embeddings.TextHash(c.text)), svc.parse).None?
    requires svc.embed(c.text).Err?
    ensures ProcessOutcome(strings, c, svc).derived.embedding.None?
    ensures CachedEmbedding(ProcessOutcome(strings, c, svc).strings, svc.hex(Embeddings.TextHash(c.text)), svc.parse).None?
  {
    var textHash := svc.hex(Embeddings.TextHash(c.text));
    var chunkHash := svc.hex(c.chunkHash);
    var cachedSummary := CachedSummary(strings, chunkHash);
    if !(cachedSummary.Some? && NonEmpty(cachedSummary.value)) && svc.summarize(c.text, c.language, c.filePath).Ok? {
      SummaryRoundTrip(strings, chunkHash, svc.summarize(c.text, c.language, c.filePath).value, textHash, svc.parse);
    }
  }

  // ---------------------------------------------------------------- batches

  const BatchSize: nat := 10

  /** `xs[i:i + n]` for `i` in `range(0, len(xs), n)`. */
  function Batches<T>(xs: seq<T>, n: nat): seq<seq<T>>
    requires n > 0
    decreases |xs|
  {
    if |xs| <= n then (if xs == [] then [] else [xs])
    else [xs[..n]] + Batches(xs[n..], n)
  }

  /** The batches put back together are the chunks, in order; each holds
      between one and `n` of them, and all but the last exactly `n`. */
  lemma {:induction false} BatchesCover<T>(xs: seq<T>, n: nat)
    requires n > 0
    ensures Concat(Batches(xs, n)) == xs
    ensures forall k :: 0 <= k < |Batches(xs, n)| ==> 0 < |Batches(xs, n)[k]| <= n
    ensures forall k :: 0 <= k < |Batches(xs, n)| - 1 ==> |Batches(xs, n)[k]| == n
    decreases |xs|
  {
    if |xs| > n {
      BatchesCover(xs[n..], n);
      var rest := Batches(xs[n..], n);
      assert Batches(xs, n) == [xs[..n]] + rest;
      assert ([xs[..n]] + rest)[1..] == rest;
      assert xs[..n] + xs[n..] == xs;
    } else if xs != [] {
      assert [xs][1..] == [];
    }
  }

  lemma ConcatNext<T>(ss: seq<seq<T>>, k: nat)
    requires k < |ss|
    ensures Concat(ss[..k + 1]) == Concat(ss[..k]) + ss[k]
  {
    assert ss[..k + 1] == ss[..k] + [ss[k]];
    ConcatAppend(ss[..k], [ss[k]]);
    assert [ss[k]][1..] == [];
  }

  lemma {:induction false} ConcatHolds<T>(ss: seq<seq<T>>, k: nat)
    requires k < |ss|
    ensures |ss[k]| <= |Concat(ss)|
  {
    if k > 0 {
      ConcatHolds(ss[1..], k - 1);
    }
  }

  datatype Run = Run(derived: seq<Derived>, strings: map<string, Value>)

  /** `step` on each chunk in turn, the state threaded through. */
  function Threaded<S, D>(st: S, cs: seq<Chunker.Chunk>, step: (S, Chunker.Chunk) -> (D, S)): (r: (seq<D>, S))
    ensures |r.0| == |cs|
  {
    if cs == [] then ([], st)
    else
      var before := Threaded(st, cs[..|cs| - 1], step);
      var last := step(before.1, cs[|cs| - 1]);
      (before.0 + [last.0], last.1)
  }

  lemma ThreadedNext<S, D>(st: S, done: seq<Chunker.Chunk>, c: Chunker.Chunk, step: (S, Chunker.Chunk) -> (D, S))
    ensures var before := Threaded(st, done, step);
      Threaded(st, done + [c], step) == (before.0 + [step(before.1, c).0], step(before.1, c).1)
  {
    assert (done + [c])[..|done|] == done;
  }

  /** Threading through `done + more` is threading through `done`, then
      through `more` from where it left off. */
  lemma {:induction false} ThreadedAppend<S, D>(st: S, done: seq<Chunker.Chunk>, more: seq<Chunker.Chunk>,
                                                step: (S, Chunker.Chunk) -> (D, S))
    ensures var before := Threaded(st, done, step);
      var after := Threaded(before.1, more, step);
      Threaded(st, done + more, step) == (before.0 + after.0, after.1)
    decreases |more|
  {
    if more == [] {
      assert done + more == done;
      assert Threaded(st, done, step).0 + [] == Threaded(st, done, step).0;
    } else {
      var init, c := more[..|more| - 1], more[|more| - 1];
      var before := Threaded(st, done, step);
      var mid := Threaded(before.1, init, step);
      var last := step(mid.1, c);
      calc {
        Threaded(st, done + more, step);
        { assert done + more == (done + init) + [c]; }
        Threaded(st, (done + init) + [c], step);
        { ThreadedNext(st, done + init, c, step); ThreadedAppend(st, done, init, step); }
        ((before.0 + mid.0) + [last.0], last.1);
        { AppendAssoc(before.0, mid.0, [last.0]); }
        (before.0 + (mid.0 + [last.0]), last.1);
        { ThreadedNext(before.1, init, c, step); assert init + [c] == more; }
        (before.0 + Threaded(before.1, more, step).0, Threaded(before.1, more, step).1);
      }
    }
  }

  /** `process_chunk` as a step of the cache. */
  function Processor(svc: Services): (map<string, Value>, Chunker.Chunk) -> (Derived, map<string, Value>) {
    (strings: map<string, Value>, c: Chunker.Chunk) =>
      (ProcessOutcome(strings, c, svc).derived, ProcessOutcome(strings, c, svc).strings)
  }

  /** `process_chunk` on each chunk in turn, the cache threaded through. */
  function ProcessedAll(strings: map<string, Value>, cs: seq<Chunker.Chunk>, svc: Services): (r: Run)
    ensures |r.derived| == |cs|
  {
    var t := Threaded(strings, cs, Processor(svc));
    Run(t.0, t.1)
  }

  lemma ProcessedAllNext(strings: map<string, Value>, done: seq<Chunker.Chunk>, c: Chunker.Chunk, svc: Services)
    ensures var before := ProcessedAll(strings, done, svc);
      var step := ProcessOutcome(before.strings, c, svc);
      ProcessedAll(strings, done + [c], svc) == Run(before.derived + [step.derived], step.strings)
  {
    ThreadedNext(strings, done, c, Processor(svc));
  }

  lemma ProcessedAllAppend(strings: map<string, Value>, done: seq<Chunker.Chunk>, batch: seq<Chunker.Chunk>, svc: Services)
    ensures var before := ProcessedAll(strings, done, svc);
      var more := ProcessedAll(before.strings, batch, svc);
      ProcessedAll(strings, done + batch, svc) == Run(before.derived + more.derived, more.strings)
  {
    ThreadedAppend(strings, done, batch, Processor(svc));
  }

  /** One batch, `asyncio.gather` of `process_chunk` over it, taken one
      chunk after the other; an unreachable cache fails the first chunk. */
  method ProcessBatch(queue: JobQueue, batch: seq<Chunker.Chunk>, svc: Services) returns (r: Result<seq<Derived>>)
    requires queue.asyncRedis == queue.server
    modifies queue, queue.server
    ensures queue.asyncRedis == queue.server && queue.jobs == old(queue.jobs) && queue.server.up == old(queue.server.up)
    ensures old(queue.server.up) || batch == [] ==> var run := ProcessedAll(old(queue.server.strings), batch, svc);
      r == Ok(run.derived) && queue.server.strings == run.strings
    ensures !old(queue.server.up) && batch != [] ==> r == Err(Unavailable) && queue.server.strings == old(queue.server.strings)
  {
    ghost var start := queue.server.strings;
    var out: seq<Derived> := [];
    var j := 0;
    while j < |batch|
      invariant 0 <= j <= |batch|
      invariant queue.asyncRedis == queue.server && queue.jobs == old(queue.jobs) && queue.server.up == old(queue.server.up)
      invariant out == ProcessedAll(start, batch[..j], svc).derived && queue.server.strings == ProcessedAll(start, batch[..j], svc).strings
      invariant !old(queue.server.up) ==> j == 0
    {
      var d := ProcessChunk(queue, batch[j], svc);
      if d.Err? {
        return Err(d.error);
      }
      ProcessedAllNext(start, batch[..j], batch[j], svc);
      assert batch[..j + 1] == batch[..j] + [batch[j]];
      out := out + [d.value];
      j := j + 1;
    }
    assert batch[..j] == batch;
    r := Ok(out);
  }

  /** The batch loop: every chunk is processed, in order, batch after
      batch; an unreachable cache fails the first chunk. */
  method ProcessAll(queue: JobQueue, chunks: seq<Chunker.Chunk>, svc: Services) returns (r: Result<seq<Derived>>)
    requires queue.asyncRedis == queue.server
    modifies queue, queue.server
    ensures queue.asyncRedis == queue.server && queue.jobs == old(queue.jobs) && queue.server.up == old(queue.server.up)
    ensures old(queue.server.up) || chunks == [] ==> var run := ProcessedAll(old(queue.server.strings), chunks, svc);
      r == Ok(run.derived) && queue.server.strings == run.strings
    ensures !old(queue.server.up) && chunks != [] ==> r == Err(Unavailable) && queue.server.strings == old(queue.server.strings)
  {
    BatchesCover(chunks, BatchSize);
    var batches := Batches(chunks, BatchSize);
    ghost var start := queue.server.strings;
    ghost var done: seq<Chunker.Chunk> := [];
    var out: seq<Derived> := [];
    var k := 0;
    while k < |batches|
      invariant 0 <= k <= |batches| && done == Concat(batches[..k])
      invariant queue.asyncRedis == queue.server && queue.jobs == old(queue.jobs) && queue.server.up == old(queue.server.up)
      invariant out == ProcessedAll(start, done, svc).derived && queue.server.strings == ProcessedAll(start, done, svc).strings
      invariant !old(queue.server.up) ==> k == 0
    {
      var batch := batches[k];
      assert batch != [];
      var d := ProcessBatch(queue, batch, svc);
      if d.Err? {
        ConcatHolds(batches, k);
        return d;
      }
      ProcessedAllAppend(start, done, batch, svc);
      ConcatNext(batches, k);
      out := out + d.value;
      done := done + batch;
      k := k + 1;
    }
    assert batches[..k] == batches;
    r := Ok(out);
  }

  // ---------------------------------------------------------------- stored rows

  /** The chunk's `metadata`, as the chunker wrote it. */
  function OriginJson(o: Chunker.Origin): Json {
    match o
    case UnitName(name) => JObject(map["name" := JStr(name)])
    case SplitPiece => JObject(map["split_chunk" := JBool(true)])
    case WindowIndex(i) => JObject(map["chunk_index" := JNum(i as real)])
  }

  /** The `embedding` column: the JSON list read as a vector. */
  function EmbeddingColumn(e: Option<Json>): Option<Vector> {
    if e.Some? then Embeddings.VectorOf(e.value) else None
  }

  /** The `nl_summary` column: the stored text. */
  function SummaryColumn(s: Option<Value>): Option<string> {
    if s.Some? && s.value.Raw? then Some(s.value.text) else None
  }

  /** The row `insert_batch` writes for a processed chunk. */
  function RowOf(c: Chunker.Chunk, d: Derived, repoId: nat, hex: Hashing.Digest -> string): CodeChunkRow {
    CodeChunkRow(repoId, c.filePath, c.language, c.startLine, c.endLine, c.text, c.astNodeType,
                 hex(c.fileHash), hex(c.chunkHash), EmbeddingColumn(d.embedding), SummaryColumn(d.summary),
                 OriginJson(c.metadata))
  }

  function RowsOf(cs: seq<Chunker.Chunk>, ds: seq<Derived>, repoId: nat, hex: Hashing.Digest -> string): (rs: seq<CodeChunkRow>)
    requires |ds| == |cs|
    ensures |rs| == |cs|
  {
    seq(|cs|, i requires 0 <= i < |cs| => RowOf(cs[i], ds[i], repoId, hex))
  }

  /** Every stored row keeps its chunk's text, place and hash, and belongs
      to the repository indexed. */
  lemma RowsKeepChunks(cs: seq<Chunker.Chunk>, ds: seq<Derived>, repoId: nat, hex: Hashing.Digest -> string, i: nat)
    requires |ds| == |cs| && i < |cs|
    ensures var r := RowsOf(cs, ds, repoId, hex)[i];
      && r.repoId == repoId && r.chunkText == cs[i].text && r.filePath == cs[i].filePath
      && r.startLine == cs[i].startLine && r.endLine == cs[i].endLine && r.chunkHash == hex(cs[i].chunkHash)
  {
  }

  // ---------------------------------------------------------------- index_repository

  /** `owner, repo_name = full_name.split("/")`: anything but two parts
      raises before the `try`. */
  function RepoName(fullName: string): (r: Result<string>)
    ensures r.Ok? <==> |Split(fullName, Separator)| == 2
  {
    var parts := Split(fullName, Separator);
    if |parts| == 2 then Ok(parts[1])
    else if |parts| < 2 then Err(ValueError("not enough values to unpack (expected 2, got 1)"))
    else Err(ValueError("too many values to unpack (expected 2)"))
  }

  /** The clone: the OAuth token for a user repository (installation 0
      with a token), the installation's token otherwise; a token or git
      failure is the error. */
  function CheckoutOf(installationId: int, fullName: string, commitSha: Option<string>, oauthToken: Option<string>,
                      svc: Services): Result<Checkout>
  {
    var token := if installationId == 0 && oauthToken.Some? && oauthToken.value != "" then Ok(oauthToken.value)
                 else svc.installationToken(installationId);
    match token
    case Err(e) => Err(e)
    case Ok(t) => svc.checkout(fullName, t, commitSha)
  }

  /** What a run that got a checkout indexes. */
  function IndexedFiles(co: Checkout, cfg: WorkerSettings): seq<SourceFile> {
    Collected(co.files, IndexedExtensions, cfg.maxFileSizeMb)
  }

  function IndexedChunks(co: Checkout, repoId: nat, cfg: WorkerSettings): seq<Chunker.Chunk> {
    ChunksOfFiles(IndexedFiles(co, cfg), repoId, cfg.chunking)
  }

  /** `update_sync_status` on the repository rows. */
  function SyncedRows(rows: map<int, RepoRow>, repoId: nat, commitSha: string, fileCount: nat, chunkCount: nat, now: nat)
    : map<int, RepoRow>
  {
    map g | g in rows :: if rows[g].repoId == repoId
      then rows[g].(lastSyncedAt := Some(now), lastCommitSha := Some(commitSha),
                    indexedFileCount := fileCount, totalChunks := chunkCount)
      else rows[g]
  }

  /** The result dictionary of `_async_index_repository`. */
  datatype IndexOutcome =
    | IndexSuccess(commitSha: string, filesProcessed: nat, chunksCreated: nat)
    | IndexFailed(error: string)

  /** What indexing touches: the chunk rows, the repository rows, the
      cache and whether the cache answers. */
  datatype IndexState = IndexState(chunkRows: map<string, CodeChunkRow>, repoRows: map<int, RepoRow>,
                                   cache: map<string, Value>, up: bool)

  /** The part of `_async_index_repository` after the clone: chunk the
      files, process the chunks, store them and the sync status; an
      unreachable cache fails the run and changes nothing. */
  function CheckoutRun(s: IndexState, repoId: nat, co: Checkout, cfg: WorkerSettings, svc: Services, now: nat)
    : (IndexOutcome, IndexState)
  {
    var files := IndexedFiles(co, cfg);
    var chunks := IndexedChunks(co, repoId, cfg);
    if !s.up && chunks != [] then (IndexFailed(ErrorText(Unavailable)), s)
    else
      var run := ProcessedAll(s.cache, chunks, svc);
      var rows := RowsOf(chunks, run.derived, repoId, svc.hex);
      (IndexSuccess(co.commitSha, |files|, |chunks|),
       IndexState(UpsertAll(s.chunkRows, rows, CodeChunkHash, RefreshCodeChunk),
                  SyncedRows(s.repoRows, repoId, co.commitSha, |files|, |chunks|, now), run.strings, s.up))
  }

  /** `_async_index_repository` as a function of the state before it: the
      outcome (an error is the one raised before the `try`) and the state
      after. */
  function IndexRun(s: IndexState, repoId: nat, installationId: int, fullName: string, commitSha: Option<string>,
                    oauthToken: Option<string>, cfg: WorkerSettings, svc: Services, now: nat)
    : (Result<IndexOutcome>, IndexState)
  {
    match RepoName(fullName)
    case Err(e) => (Err(e), s)
    case Ok(_) =>
      match CheckoutOf(installationId, fullName, commitSha, oauthToken, svc)
      case Err(e) => (Ok(IndexFailed(ErrorText(e))), s)
      case Ok(co) =>
        var run := CheckoutRun(s, repoId, co, cfg, svc, now);
        (Ok(run.0), run.1)
  }

  lemma SyncedRowsFrom(before: map<int, RepoRow>, after: map<int, RepoRow>, repoId: nat, commitSha: string,
                       fileCount: nat, chunkCount: nat, now: nat)
    requires after.Keys == before.Keys
    requires forall g :: g in after ==> after[g] == if before[g].repoId == repoId
      then before[g].(lastSyncedAt := Some(now), lastCommitSha := Some(commitSha),
                      indexedFileCount := fileCount, totalChunks := chunkCount)
      else before[g]
    ensures after == SyncedRows(before, repoId, commitSha, fileCount, chunkCount, now)
  {
    var synced := SyncedRows(before, repoId, commitSha, fileCount, chunkCount, now);
    assert synced.Keys == before.Keys;
    assert forall g :: g in after ==> after[g] == synced[g];
  }

  /** The body of the `try` once the clone is there. */
  method IndexCheckout(queue: JobQueue, chunkTable: CodeChunkTable, repos: RepoTable, repoId: nat, co: Checkout,
                       cfg: WorkerSettings, svc: Services, now: nat)
    returns (r: IndexOutcome)
    requires repos.Valid() && (queue.asyncRedis == null || queue.asyncRedis == queue.server)
    modifies queue, queue.server, chunkTable, repos
    ensures repos.Valid() && queue.jobs == old(queue.jobs) && queue.server.up == old(queue.server.up)
    ensures queue.asyncRedis == queue.server
    ensures var run := CheckoutRun(IndexState(old(chunkTable.rows), old(repos.rows), old(queue.server.strings), old(queue.server.up)),
                                   repoId, co, cfg, svc, now);
      && r == run.0 && chunkTable.rows == run.1.chunkRows && repos.rows == run.1.repoRows
      && queue.server.strings == run.1.cache
  {
    var all, fileCount := CollectChunks(co.files, repoId, cfg.maxFileSizeMb, cfg.chunking);
    queue.ConnectAsync();
    var derived := ProcessAll(queue, all, svc);
    if derived.Err? {
      return IndexFailed(ErrorText(derived.error));
    }
    var rows := RowsOf(all, derived.value, repoId, svc.hex);
    var inserted := chunkTable.InsertBatch(rows);
    ghost var before := repos.rows;
    repos.UpdateSyncStatus(repoId, co.commitSha, fileCount, |all|, now);
    SyncedRowsFrom(before, repos.rows, repoId, co.commitSha, fileCount, |all|, now);
    r := IndexSuccess(co.commitSha, fileCount, |all|);
  }

  /** `_async_index_repository`. The temporary directory and its cleanup
      are left to the clone. */
  method IndexRepository(queue: JobQueue, chunkTable: CodeChunkTable, repos: RepoTable, repoId: nat, installationId: int,
                         fullName: string, commitSha: Option<string>, oauthToken: Option<string>,
                         cfg: WorkerSettings, svc: Services, now: nat)
    returns (r: Result<IndexOutcome>)
    requires repos.Valid() && (queue.asyncRedis == null || queue.asyncRedis == queue.server)
    modifies queue, queue.server, chunkTable, repos
    ensures repos.Valid() && queue.jobs == old(queue.jobs) && queue.server.up == old(queue.server.up)
    ensures queue.asyncRedis == null || queue.asyncRedis == queue.server
    ensures var run := IndexRun(IndexState(old(chunkTable.rows), old(repos.rows), old(queue.server.strings), old(queue.server.up)),
                                repoId, installationId, fullName, commitSha, oauthToken, cfg, svc, now);
      && r == run.0 && chunkTable.rows == run.1.chunkRows && repos.rows == run.1.repoRows
      && queue.server.strings == run.1.cache
  {
    var name := RepoName(fullName);
    if name.Err? {
      return Err(name.error);
    }
    var co := CheckoutOf(installationId, fullName, commitSha, oauthToken, svc);
    if co.Err? {
      return Ok(IndexFailed(ErrorText(co.error)));
    }
    var outcome := IndexCheckout(queue, chunkTable, repos, repoId, co.value, cfg, svc, now);
    r := Ok(outcome);
  }

  /** A run succeeds exactly when the name splits, the clone works and
      the cache answers (or there is nothing to process); a failed run
      changes nothing; a successful one reports the files and chunks it
      indexed and stores a row for every chunk. */
  lemma IndexRunMeaning(s: IndexState, repoId: nat, installationId: int, fullName: string, commitSha: Option<string>,
                        oauthToken: Option<string>, cfg: WorkerSettings, svc: Services, now: nat)
    ensures var run := IndexRun(s, repoId, installationId, fullName, commitSha, oauthToken, cfg, svc, now);
      var co := CheckoutOf(installationId, fullName, commitSha, oauthToken, svc);
      && (run.0.Err? <==> RepoName(fullName).Err?)
      && (run.0.Ok? && run.0.value.IndexSuccess? <==>
            RepoName(fullName).Ok? && co.Ok? && (s.up || IndexedChunks(co.value, repoId, cfg) == []))
      && (run.0.Err? || run.0.value.IndexFailed? ==> run.1 == s)
      && (run.0.Ok? && run.0.value.IndexSuccess? ==>
            && run.0.value == IndexSuccess(co.value.commitSha, |IndexedFiles(co.value, cfg)|, |IndexedChunks(co.value, repoId, cfg)|)
            && forall c :: c in IndexedChunks(co.value, repoId, cfg) ==> svc.hex(c.chunkHash) in run.1.chunkRows)
  {
    var run := IndexRun(s, repoId, installationId, fullName, commitSha, oauthToken, cfg, svc, now);
    var co := CheckoutOf(installationId, fullName, commitSha, oauthToken, svc);
    if RepoName(fullName).Ok? && co.Ok? && (s.up || IndexedChunks(co.value, repoId, cfg) == []) {
      var chunks := IndexedChunks(co.value, repoId, cfg);
      var derived := ProcessedAll(s.cache, chunks, svc).derived;
      var rows := RowsOf(chunks, derived, repoId, svc.hex);
      UpsertAllKeys(s.chunkRows, rows, CodeChunkHash, RefreshCodeChunk);
      forall c | c in chunks
        ensures svc.hex(c.chunkHash) in run.1.chunkRows
      {
        var i :| 0 <= i < |chunks| && chunks[i] == c;
        assert rows[i].chunkHash == svc.hex(c.chunkHash);
      }
    }
  }


  /** The job's result dictionary. */
  function IndexResult(repoId: nat, o: IndexOutcome): Json {
    match o
    case IndexSuccess(sha, files, chunks) =>
      JObject(map["status" := JStr("success"), "repo_id" := JStr(NatToString(repoId)), "commit_sha" := JStr(sha),
                  "files_processed" := JNum(files as real), "chunks_created" := JNum(chunks as real)])
    case IndexFailed(e) =>
      JObject(map["status" := JStr("failed"), "repo_id" := JStr(NatToString(repoId)), "error" := JStr(e)])
  }

  /** The job records `"completed"` for a successful run and `"failed"`
      with the run's error otherwise. */
  lemma IndexJobStatus(repoId: nat, o: IndexOutcome)
    ensures FinalJobStatus(IndexResult(repoId, o)) == (if o.IndexSuccess? then "completed" else "failed")
    ensures ErrorField(IndexResult(repoId, o)) == (if o.IndexFailed? then Some(o.error) else None)
  {
    var fields := IndexResult(repoId, o).fields;
    assert "status" in fields;
    if o.IndexSuccess? {
      assert "error" !in fields;
    } else {
      assert fields["status"] == JStr("failed");
      assert fields["error"] == JStr(o.error);
    }
  }

  /** `index_repository`: the job row is set running, then finished with
      the run's result; a run that raised is recorded as failed and raised
      again. Without a job id the table is not touched. */
  method IndexJob(jobs: JobTable, jobId: Option<string>, queue: JobQueue, chunkTable: CodeChunkTable, repos: RepoTable,
                  repoId: nat, installationId: int, fullName: string, commitSha: Option<string>, oauthToken: Option<string>,
                  cfg: WorkerSettings, svc: Services, started: nat, finished: nat)
    returns (r: Result<Json>)
    requires repos.Valid() && (queue.asyncRedis == null || queue.asyncRedis == queue.server)
    modifies jobs, queue, queue.server, chunkTable, repos
    ensures repos.Valid() && queue.jobs == old(queue.jobs)
    ensures var run := IndexRun(IndexState(old(chunkTable.rows), old(repos.rows), old(queue.server.strings), old(queue.server.up)),
                                repoId, installationId, fullName, commitSha, oauthToken, cfg, svc, started);
      && chunkTable.rows == run.1.chunkRows && repos.rows == run.1.repoRows && queue.server.strings == run.1.cache
      && (run.0.Err? ==> r == Err(run.0.error))
      && (run.0.Ok? ==> r == Ok(IndexResult(repoId, run.0.value)))
    ensures !HasJob(jobId) || jobId.value !in old(jobs.rows) ==> jobs.rows == old(jobs.rows)
    ensures HasJob(jobId) && jobId.value in old(jobs.rows) ==>
      var running := JobUpdated(old(jobs.rows)[jobId.value], "running", None, None, started);
      jobs.rows == old(jobs.rows)[jobId.value := if r.Ok?
        then JobUpdated(running, FinalJobStatus(r.value), Some(r.value), ErrorField(r.value), finished)
        else JobUpdated(running, "failed", None, Some(ErrorText(r.error)), finished)]
  {
    if HasJob(jobId) {
      jobs.UpdateJobStatus(jobId.value, "running", None, None, started);
    }
    ghost var running := jobs.rows;
    var outcome := IndexRepository(queue, chunkTable, repos, repoId, installationId, fullName, commitSha, oauthToken,
                                   cfg, svc, started);
    assert jobs.rows == running;
    if outcome.Err? {
      if HasJob(jobId) {
        jobs.UpdateJobStatus(jobId.value, "failed", None, Some(ErrorText(outcome.error)), finished);
      }
      return Err(outcome.error);
    }
    var result := IndexResult(repoId, outcome.value);
    if HasJob(jobId) {
      jobs.UpdateJobStatus(jobId.value, FinalJobStatus(result), Some(result), ErrorField(result), finished);
    }
    r := Ok(result);
  }
  // ---------------------------------------------------------------- analyze_compliance: scope

  /** The regulation chunk is in the scan's scope: its rule is one of the
      requested ones, or any rule when none (or an empty list) was asked for. */
  predicate InScope(rows: map<string, RegulationChunkRow>, ruleIds: Option<seq<string>>, c: RegulationChunkRow) {
    c in rows.Values && (ruleIds.None? || ruleIds.value == [] || c.ruleId in ruleIds.value)
  }

  /** The scope step: `get_by_rule_id` for every requested rule, or for
      every stored rule when the request names none. */
  method ScopedChunks(regs: RegulationChunkTable, ruleIds: Option<seq<string>>) returns (chunks: seq<RegulationChunkRow>)
    ensures forall c :: c in chunks <==> InScope(regs.rows, ruleIds, c)
  {
    var ids: seq<string>;
    if ruleIds.Some? && ruleIds.value != [] {
      ids := ruleIds.value;
    } else {
      ids := regs.ListAllRules();
    }
    chunks := [];
    for i := 0 to |ids|
      invariant forall c :: c in chunks <==> c in regs.rows.Values && c.ruleId in ids[..i]
    {
      var part := regs.GetByRuleId(ids[i]);
      assert ids[..i + 1] == ids[..i] + [ids[i]];
      forall c
        ensures c in part <==> c in regs.rows.Values && c.ruleId == ids[i]
      {
        if c in regs.rows.Values {
          var h :| h in regs.rows && regs.rows[h] == c;
        }
      }
      chunks := chunks + part;
    }
    assert ids[..|ids|] == ids;
    forall c | c in regs.rows.Values
      ensures c.ruleId in RuleIds(regs.rows)
    {
      var h :| h in regs.rows && regs.rows[h] == c;
    }
  }

  // ---------------------------------------------------------------- analyze_compliance: investigate

  const SearchLimit: nat := 5

  /** The distance `search_similar` orders by, to the regulation chunk's
      embedding. */
  function KeyOf(reg: RegulationChunkRow, svc: Services): CodeChunkRow -> real {
    Analysis.DistanceTo(svc.distance, if reg.embedding.Some? then reg.embedding.value else [])
  }

  /** `found` is what the search for `reg` may return: the nearest chunks
      of the repository when `reg` has an embedding, nothing otherwise. */
  ghost predicate Searched(rows: map<string, CodeChunkRow>, repoId: nat, reg: RegulationChunkRow, svc: Services,
                           found: seq<CodeChunkRow>) {
    if reg.embedding.Some? then Nearest(found, RepoPool(rows, Some(repoId)), KeyOf(reg, svc), SearchLimit)
    else found == []
  }

  /** Every regulation chunk in `regs` was searched, giving `searches`. */
  ghost predicate AllSearched(rows: map<string, CodeChunkRow>, repoId: nat, regs: seq<RegulationChunkRow>, svc: Services,
                              searches: seq<seq<CodeChunkRow>>)
  {
    && |searches| == |regs|
    && forall k :: 0 <= k < |regs| ==> Searched(rows, repoId, regs[k], svc, searches[k])
  }

  const NoneGreaterThanFloat: string := "'>' not supported between instances of 'NoneType' and 'float'"

  /** The similarity gate as written: `code_chunk.get("distance", 1.0) >
      1.0 - threshold`. The key is always there, so a NULL distance is
      compared as `None` and raises. */
  function TooFarAsWritten(distance: Option<real>, threshold: real): (r: Result<bool>)
    ensures r.Err? <==> distance.None?
  {
    match distance
    case None => Err(TypeError(NoneGreaterThanFloat))
    case Some(d) => Ok(d > 1.0 - threshold)
  }

  /** The gate as intended: a chunk without a distance counts as the
      farthest (1.0). */
  function TooFar(distance: Option<real>, threshold: real): (b: bool)
    ensures distance.Some? ==> TooFarAsWritten(distance, threshold) == Ok(b)
    ensures distance.None? && threshold > 0.0 ==> b
  {
    (if distance.Some? then distance.value else 1.0) > 1.0 - threshold
  }

  /** A violation as the loop builds it: the model's fields as it gave
      them, `.get` ones defaulting to `null`. */
  datatype Draft = Draft(
    ruleId: string, codeChunkId: string, regulationChunkId: string,
    verdict: Json, severity: Json, severityScore: Json, explanation: Json, evidence: Json, remediation: Json,
    filePath: string, startLine: int, endLine: int)

  /** The draft for a flagged analysis that has all the indexed fields;
      `None` for any other answer (the `else`, or a `KeyError` or
      `TypeError` the inner `except` swallows). */
  function DraftOf(reg: RegulationChunkRow, code: CodeChunkRow, analysis: Json): (r: Option<Draft>)
    ensures r.Some? <==> Analysis.Flagged(analysis) && "severity" in analysis.fields
                         && "severity_score" in analysis.fields && "explanation" in analysis.fields
    ensures r.Some? ==> r.value.ruleId == reg.ruleId && r.value.regulationChunkId == reg.chunkHash
                        && r.value.codeChunkId == code.chunkHash && r.value.verdict == analysis.fields["verdict"]
  {
    if Analysis.Flagged(analysis) && "severity" in analysis.fields && "severity_score" in analysis.fields
       && "explanation" in analysis.fields
    then
      var f := analysis.fields;
      Some(Draft(reg.ruleId, code.chunkHash, reg.chunkHash, f["verdict"], f["severity"], f["severity_score"],
                 f["explanation"], Get(f, "evidence", JNull), Get(f, "remediation", JNull),
                 code.filePath, code.startLine, code.endLine))
    else None
  }

  /** One search result: skipped when too far, else analysed; a provider
      error is swallowed. */
  function Investigate(reg: RegulationChunkRow, code: CodeChunkRow, key: CodeChunkRow -> real, threshold: real,
                       svc: Services): (d: Option<Draft>)
    ensures TooFar(DistanceColumn(code, key), threshold) ==> d.None?
    ensures Analysis.AnalysisOf(reg.chunkText, code, svc.complete, svc.parse).Err? ==> d.None?
    ensures d.Some? ==> && d.value.ruleId == reg.ruleId && d.value.regulationChunkId == reg.chunkHash
                        && d.value.codeChunkId == code.chunkHash
                        && Analysis.Flagged(Analysis.AnalysisOf(reg.chunkText, code, svc.complete, svc.parse).value)
  {
    if TooFar(DistanceColumn(code, key), threshold) then None
    else match Analysis.AnalysisOf(reg.chunkText, code, svc.complete, svc.parse)
      case Err(_) => None
      case Ok(a) => DraftOf(reg, code, a)
  }

  function Investigator(reg: RegulationChunkRow, key: CodeChunkRow -> real, threshold: real, svc: Services)
    : CodeChunkRow -> Option<Draft>
  {
    (code: CodeChunkRow) => Investigate(reg, code, key, threshold, svc)
  }

  /** The drafts one regulation chunk yields from its search results. */
  function ChunkDrafts(reg: RegulationChunkRow, found: seq<CodeChunkRow>, key: CodeChunkRow -> real, threshold: real,
                       svc: Services): seq<Draft>
  {
    FilterMap(found, Investigator(reg, key, threshold, svc))
  }

  /** Every draft names the regulation chunk and one of the results that
      is close enough and was judged non-compliant or partial; every such
      result gives its draft. */
  lemma ChunkDraftsSoundAndComplete(reg: RegulationChunkRow, found: seq<CodeChunkRow>, key: CodeChunkRow -> real,
                                    threshold: real, svc: Services)
    ensures |ChunkDrafts(reg, found, key, threshold, svc)| <= |found|
    ensures forall d :: d in ChunkDrafts(reg, found, key, threshold, svc) <==>
      exists k :: 0 <= k < |found| && Investigate(reg, found[k], key, threshold, svc) == Some(d)
    ensures forall d :: d in ChunkDrafts(reg, found, key, threshold, svc) ==>
      && d.ruleId == reg.ruleId && d.regulationChunkId == reg.chunkHash
      && exists k :: 0 <= k < |found| && d.codeChunkId == found[k].chunkHash
                     && !TooFar(DistanceColumn(found[k], key), threshold)
                     && Analysis.AnalysisOf(reg.chunkText, found[k], svc.complete, svc.parse).Ok?
                     && Analysis.Flagged(Analysis.AnalysisOf(reg.chunkText, found[k], svc.complete, svc.parse).value)
  {
    FilterMapMembers(found, Investigator(reg, key, threshold, svc));
  }

  /** The inner loop over the search results. */
  method InvestigateAll(reg: RegulationChunkRow, found: seq<CodeChunkRow>, key: CodeChunkRow -> real, threshold: real,
                        svc: Services) returns (drafts: seq<Draft>)
    ensures drafts == ChunkDrafts(reg, found, key, threshold, svc)
  {
    drafts := [];
    for j := 0 to |found|
      invariant drafts == FilterMap(found[..j], Investigator(reg, key, threshold, svc))
    {
      FilterMapNext(found, j, Investigator(reg, key, threshold, svc));
      var code := found[j];
      if !TooFar(DistanceColumn(code, key), threshold) {
        var analysis := Analysis.AnalysisOf(reg.chunkText, code, svc.complete, svc.parse);
        if analysis.Ok? {
          var draft := DraftOf(reg, code, analysis.value);
          if draft.Some? {
            drafts := drafts + [draft.value];
          }
        }
      }
    }
    assert found[..|found|] == found;
  }

  /** One step of the inner loop as written: the gate raises out of the
      loop on a NULL distance. */
  function StepAsWritten(reg: RegulationChunkRow, key: CodeChunkRow -> real, threshold: real, svc: Services)
    : (seq<Draft>, CodeChunkRow) -> Result<seq<Draft>>
  {
    (acc: seq<Draft>, code: CodeChunkRow) =>
      match TooFarAsWritten(DistanceColumn(code, key), threshold)
      case Err(e) => Err(e)
      case Ok(far) =>
        if far then Ok(acc)
        else match Analysis.AnalysisOf(reg.chunkText, code, svc.complete, svc.parse)
          case Err(_) => Ok(acc)
          case Ok(a) => Ok(acc + (if DraftOf(reg, code, a).Some? then [DraftOf(reg, code, a).value] else []))
  }

  /** The inner loop as written. */
  function ChunkDraftsAsWritten(reg: RegulationChunkRow, found: seq<CodeChunkRow>, key: CodeChunkRow -> real,
                                threshold: real, svc: Services): Result<seq<Draft>>
  {
    Fold(found, [], StepAsWritten(reg, key, threshold, svc))
  }

  /** Where every result has an embedding, the loop as written and the
      corrected one agree. */
  lemma {:induction false} AsWrittenAgrees(reg: RegulationChunkRow, found: seq<CodeChunkRow>, key: CodeChunkRow -> real,
                                           threshold: real, svc: Services)
    requires forall k :: 0 <= k < |found| ==> found[k].embedding.Some?
    ensures ChunkDraftsAsWritten(reg, found, key, threshold, svc) == Ok(ChunkDrafts(reg, found, key, threshold, svc))
  {
    if found != [] {
      var init, last := found[..|found| - 1], found[|found| - 1];
      assert forall k :: 0 <= k < |init| ==> init[k] == found[k];
      AsWrittenAgrees(reg, init, key, threshold, svc);
      var acc := ChunkDrafts(reg, init, key, threshold, svc);
      assert DistanceColumn(last, key).Some?;
      assert TooFarAsWritten(DistanceColumn(last, key), threshold) == Ok(TooFar(DistanceColumn(last, key), threshold));
      var d := Investigate(reg, last, key, threshold, svc);
      var analysis := Analysis.AnalysisOf(reg.chunkText, last, svc.complete, svc.parse);
      if TooFar(DistanceColumn(last, key), threshold) {
        assert d == None;
      } else if analysis.Err? {
        assert d == None;
      } else {
        assert d == DraftOf(reg, last, analysis.value);
      }
      FilterMapNext(found, |found| - 1, Investigator(reg, key, threshold, svc));
      assert found[..|found|] == found;
      assert StepAsWritten(reg, key, threshold, svc)(acc, last) == Ok(acc + if d.Some? then [d.value] else []);
    }
  }


  /** The finding: a search result stored without an embedding (its
      embedding failed at indexing) has a NULL distance; as written the
      comparison raises and the whole scan fails, while the corrected gate
      skips it at the default threshold. */
  lemma NullDistanceFailsScanAsWritten(reg: RegulationChunkRow, code: CodeChunkRow, key: CodeChunkRow -> real, svc: Services)
    requires code.embedding.None?
    ensures ChunkDraftsAsWritten(reg, [code], key, DefaultSettings.similarityThreshold, svc) == Err(TypeError(NoneGreaterThanFloat))
    ensures ChunkDrafts(reg, [code], key, DefaultSettings.similarityThreshold, svc) == []
  {
    var threshold := DefaultSettings.similarityThreshold;
    assert [code][..0] == [];
    assert DistanceColumn(code, key) == None;
    assert threshold == 0.7;
    assert TooFarAsWritten(DistanceColumn(code, key), threshold) == Err(TypeError(NoneGreaterThanFloat));
    assert Fold([code][..0], [], StepAsWritten(reg, key, threshold, svc)) == Ok([]);
    assert StepAsWritten(reg, key, threshold, svc)([], code) == Err(TypeError(NoneGreaterThanFloat));
    assert TooFar(DistanceColumn(code, key), threshold);
    assert Investigate(reg, code, key, threshold, svc) == None;
    assert Investigator(reg, key, threshold, svc)(code) == None;
    FilterMapNext([code], 0, Investigator(reg, key, threshold, svc));
    assert [code][..1] == [code];
  }

  /** The drafts of all the regulation chunks, in order. */
  function AllDrafts(regs: seq<RegulationChunkRow>, searches: seq<seq<CodeChunkRow>>, threshold: real, svc: Services)
    : seq<Draft>
    requires |searches| == |regs|
  {
    if regs == [] then []
    else
      var n := |regs| - 1;
      AllDrafts(regs[..n], searches[..n], threshold, svc) + ChunkDrafts(regs[n], searches[n], KeyOf(regs[n], svc), threshold, svc)
  }

  lemma AllDraftsNext(regs: seq<RegulationChunkRow>, searches: seq<seq<CodeChunkRow>>, i: nat, found: seq<CodeChunkRow>,
                      threshold: real, svc: Services)
    requires i < |regs| && |searches| == i
    ensures AllDrafts(regs[..i + 1], searches + [found], threshold, svc) ==
            AllDrafts(regs[..i], searches, threshold, svc) + ChunkDrafts(regs[i], found, KeyOf(regs[i], svc), threshold, svc)
  {
    assert regs[..i + 1][..i] == regs[..i];
    assert (searches + [found])[..i] == searches;
  }

  // ---------------------------------------------------------------- analyze_compliance: finalize

  /** The default of the `status` column for a new violation. */
  const DefaultViolationStatus: string := "detected"

  /** What asyncpg raises when a value does not fit its column. */
  const Rejected: Error := DataError("invalid input for query argument")

  function TextColumn(j: Json): Option<Option<string>> {
    match j
    case JNull => Some(None)
    case JStr(s) => Some(Some(s))
    case _ => None
  }

  /** The row a draft is inserted as, or `None` when one of the model's
      values does not fit its column. */
  function ViolationOf(scanId: nat, d: Draft): (r: Option<ViolationRow>)
    ensures r.Some? ==> && r.value.scanId == scanId && r.value.ruleId == d.ruleId && r.value.codeChunkId == d.codeChunkId
                        && r.value.regulationChunkId == Some(d.regulationChunkId) && JStr(r.value.verdict) == d.verdict
                        && JStr(r.value.severity) == d.severity && JNum(r.value.severityScore) == d.severityScore
                        && r.value.status == DefaultViolationStatus
    ensures r.None? <==> !d.verdict.JStr? || !d.severity.JStr? || !d.severityScore.JNum? || !d.explanation.JStr?
                         || TextColumn(d.evidence).None? || TextColumn(d.remediation).None?
  {
    if d.verdict.JStr? && d.severity.JStr? && d.severityScore.JNum? && d.explanation.JStr?
       && TextColumn(d.evidence).Some? && TextColumn(d.remediation).Some?
    then Some(ViolationRow(0, scanId, d.ruleId, d.codeChunkId, Some(d.regulationChunkId), d.verdict.s, d.severity.s,
                           d.severityScore.n, d.explanation.s, TextColumn(d.evidence).value, TextColumn(d.remediation).value,
                           d.filePath, d.startLine, d.endLine, JObject(map[]), 0, DefaultViolationStatus, None, None))
    else None
  }

  /** The batch `insert_batch` sends, or `None` when any row is rejected
      (the batch runs in one transaction). */
  function ViolationsOf(scanId: nat, ds: seq<Draft>): (r: Option<seq<ViolationRow>>)
    ensures r.Some? ==> |r.value| == |ds|
  {
    if ds == [] then Some([])
    else match ViolationsOf(scanId, ds[..|ds| - 1])
      case None => None
      case Some(vs) =>
        match ViolationOf(scanId, ds[|ds| - 1])
        case None => None
        case Some(v) => Some(vs + [v])
  }

  /** The batch is accepted exactly when every draft fits, and then holds
      one row per draft, in order, all of this scan. */
  lemma {:induction false} ViolationsOfMeaning(scanId: nat, ds: seq<Draft>)
    ensures ViolationsOf(scanId, ds).Some? <==> forall i :: 0 <= i < |ds| ==> ViolationOf(scanId, ds[i]).Some?
    ensures ViolationsOf(scanId, ds).Some? ==>
      && |ViolationsOf(scanId, ds).value| == |ds|
      && forall i :: 0 <= i < |ds| ==> ViolationsOf(scanId, ds).value[i] == ViolationOf(scanId, ds[i]).value
  {
    if ds != [] {
      var init := ds[..|ds| - 1];
      ViolationsOfMeaning(scanId, init);
      assert forall i :: 0 <= i < |init| ==> ds[i] == init[i];
    }
  }

  /** What `_async_analyze_compliance` returns. */
  datatype AnalysisOutcome = AnalysisSuccess(violationsFound: nat) | AnalysisFailed(error: string)

  /** The scan's `result` on success. */
  function FoundJson(n: nat): Json {
    JObject(map["violations_found" := JNum(n as real)])
  }

  /** The ids `first`, ..., `first + n - 1`. */
  function IdRange(first: nat, n: nat): (r: set<nat>)
    ensures forall id :: id in r <==> first <= id < first + n
    ensures |r| == n
  {
    if n == 0 then {} else IdRange(first, n - 1) + {first + n - 1}
  }

  /** Inserting `n` rows of a scan under fresh ids raises its count by
      exactly `n`. */
  lemma InsertedCounted(before: map<nat, ViolationRow>, after: map<nat, ViolationRow>, first: nat, n: nat, scanId: nat)
    requires forall id :: id in before ==> id < first
    requires forall id :: id in after <==> id in before || first <= id < first + n
    requires forall id :: id in before ==> after[id] == before[id]
    requires forall id :: first <= id < first + n ==> after[id].scanId == scanId
    ensures CountOf(after, scanId, None) == CountOf(before, scanId, None) + n
  {
    var added := IdRange(first, n);
    assert IdsOf(after, scanId, None) == IdsOf(before, scanId, None) + added;
    assert IdsOf(before, scanId, None) * added == {};
    DisjointCard(IdsOf(before, scanId, None), added);
  }

  /** The vector search of step 2, skipped for a chunk without an embedding. */
  method SearchFor(reg: RegulationChunkRow, chunks: CodeChunkTable, repoId: nat, svc: Services)
    returns (found: seq<CodeChunkRow>)
    ensures Searched(chunks.rows, repoId, reg, svc, found)
  {
    found := [];
    if reg.embedding.Some? {
      found := chunks.SearchSimilar(KeyOf(reg, svc), Some(repoId), SearchLimit);
    }
  }

  /** Steps 2 and 3: search the repository for every regulation chunk that
      has an embedding, and investigate what the search returns. */
  method SearchAndInvestigate(regulationChunks: seq<RegulationChunkRow>, chunks: CodeChunkTable, repoId: nat,
                              threshold: real, svc: Services)
    returns (drafts: seq<Draft>, ghost searches: seq<seq<CodeChunkRow>>)
    ensures AllSearched(chunks.rows, repoId, regulationChunks, svc, searches)
    ensures drafts == AllDrafts(regulationChunks, searches, threshold, svc)
  {
    drafts := [];
    searches := [];
    for i := 0 to |regulationChunks|
      invariant |searches| == i
      invariant forall k :: 0 <= k < i ==> Searched(chunks.rows, repoId, regulationChunks[k], svc, searches[k])
      invariant drafts == AllDrafts(regulationChunks[..i], searches, threshold, svc)
    {
      var reg := regulationChunks[i];
      var found := SearchFor(reg, chunks, repoId, svc);
      var more := InvestigateAll(reg, found, KeyOf(reg, svc), threshold, svc);
      AllDraftsNext(regulationChunks, searches, i, found, threshold, svc);
      drafts := drafts + more;
      ghost var searched := searches + [found];
      forall k | 0 <= k < i + 1
        ensures Searched(chunks.rows, repoId, regulationChunks[k], svc, searched[k])
      {
        if k < i {
          assert searched[k] == searches[k];
        }
      }
      searches := searched;
    }
    assert regulationChunks[..|regulationChunks|] == regulationChunks;
  }

  /** The batch `batch` added under fresh ids from `oldNext` on, every
      older row kept. */
  ghost predicate Inserted(oldRows: map<nat, ViolationRow>, oldNext: nat, rows: map<nat, ViolationRow>, next: nat,
                           batch: seq<ViolationRow>, now: nat)
  {
    && next == oldNext + |batch|
    && (forall id :: id in rows <==> id in oldRows || oldNext <= id < next)
    && (forall id :: id in oldRows ==> rows[id] == oldRows[id])
    && (forall i :: 0 <= i < |batch| ==> rows[oldNext + i] == Stamped(batch, oldNext, now)[i])
  }

  /** The scan's row after `update_status`, when it exists. */
  ghost predicate StatusSet(oldScans: map<nat, ScanRow>, scans: map<nat, ScanRow>, scanId: nat,
                            status: string, result: Option<Json>, error: Option<string>, now: nat)
  {
    && (scanId in oldScans ==> scans == oldScans[scanId := oldScans[scanId].(
          status := status, result := result, error := error, completedAt := if Finished(status) then Some(now) else None)])
    && (scanId !in oldScans ==> scans == oldScans)
  }

  /** The scan's counts recomputed from `rows`, then its status set. */
  ghost predicate Counted(oldScans: map<nat, ScanRow>, scans: map<nat, ScanRow>, rows: map<nat, ViolationRow>, scanId: nat,
                          status: string, result: Option<Json>, now: nat)
  {
    StatusSet(CountsSet(oldScans, rows, scanId), scans, scanId, status, result, None, now)
  }

  ghost function CountsSet(scans: map<nat, ScanRow>, rows: map<nat, ViolationRow>, scanId: nat): map<nat, ScanRow> {
    if scanId in scans then
      scans[scanId := scans[scanId].(
        totalViolations := CountOf(rows, scanId, None),
        criticalViolations := CountOf(rows, scanId, Some("critical")),
        highViolations := CountOf(rows, scanId, Some("high")),
        mediumViolations := CountOf(rows, scanId, Some("medium")),
        lowViolations := CountOf(rows, scanId, Some("low")))]
    else scans
  }

  /** The tables after step 4 for the drafts `drafts`: when a value does
      not fit its column the batch is rejected and the scan is recorded as
      failed with the database's message; otherwise the violations are
      added under fresh ids, the scan's counts are recomputed (its total
      grows by the number of drafts) and the scan is completed. */
  ghost predicate Finalized(oldScans: map<nat, ScanRow>, oldRows: map<nat, ViolationRow>, oldNext: nat,
                            scans: map<nat, ScanRow>, rows: map<nat, ViolationRow>, next: nat,
                            scanId: nat, drafts: seq<Draft>, now: nat, r: AnalysisOutcome)
  {
    var batch := ViolationsOf(scanId, drafts);
    && (batch.None? ==>
          && r == AnalysisFailed(ErrorText(Rejected))
          && rows == oldRows && next == oldNext
          && StatusSet(oldScans, scans, scanId, "failed", None, Some(ErrorText(Rejected)), now))
    && (batch.Some? ==>
          && r == AnalysisSuccess(|drafts|)
          && Inserted(oldRows, oldNext, rows, next, batch.value, now)
          && CountOf(rows, scanId, None) == CountOf(oldRows, scanId, None) + |drafts|
          && Counted(oldScans, scans, rows, scanId, "completed", Some(FoundJson(|drafts|)), now))
  }

  /** `insert_batch` of the drafts, when every one of them fits. */
  method StoreViolations(violations: ViolationTable, scanId: nat, drafts: seq<Draft>, now: nat)
    requires violations.Valid() && ViolationsOf(scanId, drafts).Some?
    modifies violations
    ensures violations.Valid()
    ensures Inserted(old(violations.rows), old(violations.nextId), violations.rows, violations.nextId,
                     ViolationsOf(scanId, drafts).value, now)
    ensures CountOf(violations.rows, scanId, None) == CountOf(old(violations.rows), scanId, None) + |drafts|
  {
    var batch := ViolationsOf(scanId, drafts).value;
    ViolationsOfMeaning(scanId, drafts);
    if drafts != [] {
      var inserted := violations.InsertBatch(batch, now);
    }
    forall id | old(violations.nextId) <= id < old(violations.nextId) + |drafts|
      ensures violations.rows[id].scanId == scanId
    {
      var i := id - old(violations.nextId);
      assert violations.rows[old(violations.nextId) + i] == Stamped(batch, old(violations.nextId), now)[i];
    }
    InsertedCounted(old(violations.rows), violations.rows, old(violations.nextId), |drafts|, scanId);
  }

  /** Step 4, and the `except` that records a rejected batch. */
  method Finalize(scans: ScanTable, violations: ViolationTable, scanId: nat, drafts: seq<Draft>, now: nat)
    returns (r: AnalysisOutcome)
    requires scans.Valid() && violations.Valid()
    modifies scans, violations
    ensures scans.Valid() && violations.Valid()
    ensures Finalized(old(scans.rows), old(violations.rows), old(violations.nextId),
                      scans.rows, violations.rows, violations.nextId, scanId, drafts, now, r)
  {
    var batch := ViolationsOf(scanId, drafts);
    if batch.None? {
      scans.UpdateStatus(scanId, "failed", None, Some(ErrorText(Rejected)), now);
      return AnalysisFailed(ErrorText(Rejected));
    }
    StoreViolations(violations, scanId, drafts, now);
    scans.UpdateViolationCounts(scanId, violations);
    assert scans.rows == CountsSet(old(scans.rows), violations.rows, scanId);
    scans.UpdateStatus(scanId, "completed", Some(FoundJson(|drafts|)), None, now);
    r := AnalysisSuccess(|drafts|);
  }

  /** `_async_analyze_compliance`, with the agent's progress log left out:
      scope, search, investigate, then store the violations and complete
      the scan. `scanned` and `searches` name what the scope and the
      searches returned. */
  method AnalyzeScan(scans: ScanTable, violations: ViolationTable, regs: RegulationChunkTable, chunks: CodeChunkTable,
                     scanId: nat, repoId: nat, ruleIds: Option<seq<string>>, cfg: WorkerSettings, svc: Services, now: nat)
    returns (r: AnalysisOutcome, ghost scanned: seq<RegulationChunkRow>, ghost searches: seq<seq<CodeChunkRow>>,
             ghost drafts: seq<Draft>)
    requires scans.Valid() && violations.Valid()
    modifies scans, violations
    ensures scans.Valid() && violations.Valid()
    ensures forall c :: c in scanned <==> InScope(regs.rows, ruleIds, c)
    ensures AllSearched(chunks.rows, repoId, scanned, svc, searches)
    ensures drafts == AllDrafts(scanned, searches, cfg.similarityThreshold, svc)
    ensures Finalized(old(scans.rows), old(violations.rows), old(violations.nextId),
                      scans.rows, violations.rows, violations.nextId, scanId, drafts, now, r)
  {
    var regulationChunks := ScopedChunks(regs, ruleIds);
    scanned := regulationChunks;
    var found;
    found, searches := SearchAndInvestigate(regulationChunks, chunks, repoId, cfg.similarityThreshold, svc);
    drafts := found;
    r := Finalize(scans, violations, scanId, found, now);
  }

  /** The job's result dictionary. */
  function AnalysisResult(scanId: nat, o: AnalysisOutcome): Json {
    match o
    case AnalysisSuccess(n) =>
      JObject(map["status" := JStr("success"), "scan_id" := JStr(NatToString(scanId)), "violations_found" := JNum(n as real)])
    case AnalysisFailed(e) =>
      JObject(map["status" := JStr("failed"), "scan_id" := JStr(NatToString(scanId)), "error" := JStr(e)])
  }

  /** The job records `"completed"` for a finished scan and `"failed"`
      with the scan's error otherwise. */
  lemma AnalysisJobStatus(scanId: nat, o: AnalysisOutcome)
    ensures FinalJobStatus(AnalysisResult(scanId, o)) == (if o.AnalysisSuccess? then "completed" else "failed")
    ensures ErrorField(AnalysisResult(scanId, o)) == (if o.AnalysisFailed? then Some(o.error) else None)
  {
    var fields := AnalysisResult(scanId, o).fields;
    assert "status" in fields;
    if o.AnalysisSuccess? {
      assert "error" !in fields;
    } else {
      assert fields["status"] == JStr("failed");
      assert fields["error"] == JStr(o.error);
    }
  }

  /** `analyze_compliance`: the job row is set running, the scan is
      analysed as `AnalyzeScan` states, and the job row is finished with
      the scan's result. Without a job id the job table is not touched. */
  method AnalyzeJob(jobs: JobTable, jobId: Option<string>, scans: ScanTable, violations: ViolationTable,
                    regs: RegulationChunkTable, chunks: CodeChunkTable, scanId: nat, repoId: nat,
                    ruleIds: Option<seq<string>>, cfg: WorkerSettings, svc: Services, started: nat, finished: nat)
    returns (result: Json, ghost outcome: AnalysisOutcome, ghost scanned: seq<RegulationChunkRow>,
             ghost searches: seq<seq<CodeChunkRow>>, ghost drafts: seq<Draft>)
    requires scans.Valid() && violations.Valid()
    modifies jobs, scans, violations
    ensures scans.Valid() && violations.Valid()
    ensures forall c :: c in scanned <==> InScope(regs.rows, ruleIds, c)
    ensures AllSearched(chunks.rows, repoId, scanned, svc, searches)
    ensures drafts == AllDrafts(scanned, searches, cfg.similarityThreshold, svc)
    ensures Finalized(old(scans.rows), old(violations.rows), old(violations.nextId),
                      scans.rows, violations.rows, violations.nextId, scanId, drafts, started, outcome)
    ensures result == AnalysisResult(scanId, outcome)
    ensures !HasJob(jobId) || jobId.value !in old(jobs.rows) ==> jobs.rows == old(jobs.rows)
    ensures HasJob(jobId) && jobId.value in old(jobs.rows) ==>
      jobs.rows == old(jobs.rows)[jobId.value := JobUpdated(JobUpdated(old(jobs.rows)[jobId.value], "running", None, None, started),
                                                            FinalJobStatus(result), Some(result), ErrorField(result), finished)]
  {
    StartAnalysisJob(jobs, jobId, started);
    ghost var running := jobs.rows;
    var o;
    o, scanned, searches, drafts := AnalyzeScan(scans, violations, regs, chunks, scanId, repoId, ruleIds, cfg, svc, started);
    outcome := o;
    assert jobs.rows == running;
    ghost var analysed := (scans.rows, violations.rows, violations.nextId, regs.rows, chunks.rows);
    result := FinishAnalysisJob(jobs, jobId, scanId, o, finished);
    assert (scans.rows, violations.rows, violations.nextId, regs.rows, chunks.rows) == analysed;
    JobUpdatedTwice(old(jobs.rows), running, jobs.rows, jobId, result, started, finished);
  }

  /** A job row set running and then finished is, in the table, one
      update of the original row. */
  lemma JobUpdatedTwice(before: map<string, JobRow>, running: map<string, JobRow>, after: map<string, JobRow>,
                        jobId: Option<string>, result: Json, started: nat, finished: nat)
    requires !HasJob(jobId) || jobId.value !in before ==> running == before
    requires HasJob(jobId) && jobId.value in before ==>
      running == before[jobId.value := JobUpdated(before[jobId.value], "running", None, None, started)]
    requires !HasJob(jobId) || jobId.value !in running ==> after == running
    requires HasJob(jobId) && jobId.value in running ==>
      after == running[jobId.value := JobUpdated(running[jobId.value], FinalJobStatus(result), Some(result), ErrorField(result), finished)]
    ensures !HasJob(jobId) || jobId.value !in before ==> after == before
    ensures HasJob(jobId) && jobId.value in before ==>
      after == before[jobId.value := JobUpdated(JobUpdated(before[jobId.value], "running", None, None, started),
                                                FinalJobStatus(result), Some(result), ErrorField(result), finished)]
  {
  }

  /** The job's first update: it is running. */
  method StartAnalysisJob(jobs: JobTable, jobId: Option<string>, started: nat)
    modifies jobs
    ensures !HasJob(jobId) || jobId.value !in old(jobs.rows) ==> jobs.rows == old(jobs.rows)
    ensures HasJob(jobId) && jobId.value in old(jobs.rows) ==>
      jobs.rows == old(jobs.rows)[jobId.value := JobUpdated(old(jobs.rows)[jobId.value], "running", None, None, started)]
  {
    if HasJob(jobId) {
      jobs.UpdateJobStatus(jobId.value, "running", None, None, started);
    }
  }

  /** The job's last update: its result and the status and error read
      from it. */
  method FinishAnalysisJob(jobs: JobTable, jobId: Option<string>, scanId: nat, o: AnalysisOutcome, finished: nat)
    returns (result: Json)
    modifies jobs
    ensures result == AnalysisResult(scanId, o)
    ensures !HasJob(jobId) || jobId.value !in old(jobs.rows) ==> jobs.rows == old(jobs.rows)
    ensures HasJob(jobId) && jobId.value in old(jobs.rows) ==>
      jobs.rows == old(jobs.rows)[jobId.value := JobUpdated(old(jobs.rows)[jobId.value],
                                                            FinalJobStatus(result), Some(result), ErrorField(result), finished)]
  {
    result := AnalysisResult(scanId, o);
    if HasJob(jobId) {
      jobs.UpdateJobStatus(jobId.value, FinalJobStatus(result), Some(result), ErrorField(result), finished);
    }
  }
}
