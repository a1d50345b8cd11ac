// The worker's cache on Redis: embeddings under `embedding:{hash}` stored
// as JSON, NL summaries under `nl_summary:{hash}` stored raw, both for a
// week, reached through a client that is created lazily.

module JobQueue {
  import opened Common
  import opened KeyValue

  const CacheTtl: nat := 604800

  function EmbeddingKey(textHash: string): string {
    "embedding:" + textHash
  }

  function SummaryKey(chunkHash: string): string {
    "nl_summary:" + chunkHash
  }

  /** What `get_cached_embedding` returns for a present key: the decoded
      JSON, or the raw text when it does not decode. */
  datatype Loaded = Decoded(json: Json) | RawText(text: string)

  function CachedEmbedding(strings: map<string, Value>, textHash: string, parse: string -> Option<Json>): (r: Option<Loaded>)
    ensures r.None? <==> EmbeddingKey(textHash) !in strings
  {
    var key := EmbeddingKey(textHash);
    if key !in strings then None
    else match Loads(strings[key], parse)
      case Some(j) => Some(Decoded(j))
      case None => Some(RawText(strings[key].text))
  }

  function CachedSummary(strings: map<string, Value>, chunkHash: string): (r: Option<Value>)
    ensures r.None? <==> SummaryKey(chunkHash) !in strings
  {
    Lookup(strings, SummaryKey(chunkHash))
  }

  /** The two namespaces never share a key. */
  lemma NamespacesDisjoint(textHash: string, chunkHash: string)
    ensures EmbeddingKey(textHash) != SummaryKey(chunkHash)
  {
    assert EmbeddingKey(textHash)[0] == 'e' && SummaryKey(chunkHash)[0] == 'n';
  }

  /** After `cache_embedding(h, e)`, `get_cached_embedding(h)` gives `e`. */
  lemma EmbeddingRoundTrip(strings: map<string, Value>, textHash: string, embedding: Json, parse: string -> Option<Json>)
    ensures CachedEmbedding(strings[EmbeddingKey(textHash) := Dumped(embedding)], textHash, parse) == Some(Decoded(embedding))
  {
  }

  /** Caching an embedding leaves every summary as it was. */
  lemma EmbeddingKeepsSummaries(strings: map<string, Value>, textHash: string, embedding: Json, chunkHash: string)
    ensures CachedSummary(strings[EmbeddingKey(textHash) := Dumped(embedding)], chunkHash) == CachedSummary(strings, chunkHash)
  {
    NamespacesDisjoint(textHash, chunkHash);
  }

  /** After `cache_nl_summary(h, s)`, `get_cached_nl_summary(h)` gives `s`,
      and embeddings are untouched. */
  lemma SummaryRoundTrip(strings: map<string, Value>, chunkHash: string, summary: string, textHash: string, parse: string -> Option<Json>)
    ensures CachedSummary(strings[SummaryKey(chunkHash) := Raw(summary)], chunkHash) == Some(Raw(summary))
    ensures CachedEmbedding(strings[SummaryKey(chunkHash) := Raw(summary)], textHash, parse) == CachedEmbedding(strings, textHash, parse)
  {
    NamespacesDisjoint(textHash, chunkHash);
  }

  /** How long RQ keeps a finished job's result, and a failed indexing
      job's record. */
  const ResultTtl: nat := 86400
  const FailureTtl: nat := 604800

  /** A job on the RQ queue: the worker function and its arguments, with
      the retention the enqueue asks for (`None` is RQ's default). */
  datatype Job =
    | IndexRepository(repoId: nat, installationId: int, fullName: string, commitSha: Option<string>,
                      oauthToken: Option<string>, resultTtl: nat, failureTtl: Option<nat>)
    | AnalyzeCompliance(scanId: nat, repoId: nat, ruleIds: Option<seq<string>>, resultTtl: nat, failureTtl: Option<nat>)

  class JobQueue {
    /** The server `redis_url` names. */
    const server: Redis
    /** `async_redis`: the client, once created. */
    var asyncRedis: Redis?
    /** The jobs enqueued so far, oldest first; a job's id is its position. */
    var jobs: seq<Job>

    constructor (server: Redis)
      ensures this.server == server && asyncRedis == null && jobs == []
    {
      this.server := server;
      asyncRedis := null;
      jobs := [];
    }

    /** `enqueue_indexing_job`: one `index_repository` job, its result kept
        for a day and its failure for a week. */
    method EnqueueIndexingJob(repoId: nat, installationId: int, fullName: string, commitSha: Option<string>,
                              oauthToken: Option<string>) returns (id: nat)
      modifies this
      ensures asyncRedis == old(asyncRedis)
      ensures jobs == old(jobs) + [IndexRepository(repoId, installationId, fullName, commitSha, oauthToken,
                                                   ResultTtl, Some(FailureTtl))]
      ensures id == |old(jobs)| && jobs[id].IndexRepository?
    {
      id := |jobs|;
      jobs := jobs + [IndexRepository(repoId, installationId, fullName, commitSha, oauthToken, ResultTtl, Some(FailureTtl))];
    }

    /** `enqueue_analysis_job`: one `analyze_compliance` job, its result
        kept for a day; `None` rules means every rule. */
    method EnqueueAnalysisJob(scanId: nat, repoId: nat, ruleIds: Option<seq<string>>) returns (id: nat)
      modifies this
      ensures asyncRedis == old(asyncRedis)
      ensures jobs == old(jobs) + [AnalyzeCompliance(scanId, repoId, ruleIds, ResultTtl, None)]
      ensures id == |old(jobs)| && jobs[id].AnalyzeCompliance?
    {
      id := |jobs|;
      jobs := jobs + [AnalyzeCompliance(scanId, repoId, ruleIds, ResultTtl, None)];
    }

    /** `connect_async`: a client is created only when there is none. */
    method ConnectAsync()
      modifies this
      ensures jobs == old(jobs)
      ensures asyncRedis == (if old(asyncRedis) == null then server else old(asyncRedis))
    {
      if asyncRedis == null {
        asyncRedis := server;
      }
    }

    /** `disconnect_async` */
    method DisconnectAsync()
      modifies this
      ensures jobs == old(jobs)
      ensures asyncRedis == null
    {
      if asyncRedis != null {
        asyncRedis := null;
      }
    }

    /** `get_cached_embedding` */
    method GetCachedEmbedding(textHash: string, parse: string -> Option<Json>) returns (r: Result<Option<Loaded>>)
      requires asyncRedis == null || asyncRedis == server
      modifies this
      ensures jobs == old(jobs)
      ensures asyncRedis == server
      ensures server.up ==> r == Ok(CachedEmbedding(server.strings, textHash, parse))
      ensures !server.up ==> r == Err(Unavailable)
    {
      if asyncRedis == null {
        ConnectAsync();
      }
      var got := asyncRedis.Get(EmbeddingKey(textHash));
      match got {
        case Err(e) => return Err(e);
        case Ok(None) => return Ok(None);
        case Ok(Some(v)) =>
          match Loads(v, parse) {
            case Some(j) => return Ok(Some(Decoded(j)));
            case None => return Ok(Some(RawText(v.text)));
          }
      }
    }

    /** `cache_embedding`: stored as JSON for a week. */
    method CacheEmbedding(textHash: string, embedding: Json) returns (r: Result<()>)
      requires asyncRedis == null || asyncRedis == server
      modifies this, server
      ensures jobs == old(jobs)
      ensures asyncRedis == server && server.up == old(server.up) && server.lists == old(server.lists)
      ensures old(server.up) ==> r.Ok? && server.strings == old(server.strings)[EmbeddingKey(textHash) := Dumped(embedding)]
                                 && server.expiry == old(server.expiry)[EmbeddingKey(textHash) := CacheTtl]
      ensures !old(server.up) ==> r.Err? && server.strings == old(server.strings)
    {
      if asyncRedis == null {
        ConnectAsync();
      }
      r := asyncRedis.Set(EmbeddingKey(textHash), Dumped(embedding), CacheTtl);
    }

    /** `get_cached_nl_summary`: the stored text as is. */
    method GetCachedSummary(chunkHash: string) returns (r: Result<Option<Value>>)
      requires asyncRedis == null || asyncRedis == server
      modifies this
      ensures jobs == old(jobs)
      ensures asyncRedis == server
      ensures server.up ==> r == Ok(CachedSummary(server.strings, chunkHash))
      ensures !server.up ==> r.Err?
    {
      if asyncRedis == null {
        ConnectAsync();
      }
      r := asyncRedis.Get(SummaryKey(chunkHash));
    }

    /** `cache_nl_summary`: stored raw for a week. */
    method CacheSummary(chunkHash: string, summary: string) returns (r: Result<()>)
      requires asyncRedis == null || asyncRedis == server
      modifies this, server
      ensures jobs == old(jobs)
      ensures asyncRedis == server && server.up == old(server.up) && server.lists == old(server.lists)
      ensures old(server.up) ==> r.Ok? && server.strings == old(server.strings)[SummaryKey(chunkHash) := Raw(summary)]
                                 && server.expiry == old(server.expiry)[SummaryKey(chunkHash) := CacheTtl]
      ensures !old(server.up) ==> r.Err? && server.strings == old(server.strings)
    {
      if asyncRedis == null {
        ConnectAsync();
      }
      r := asyncRedis.Set(SummaryKey(chunkHash), Raw(summary), CacheTtl);
    }
  }
}
