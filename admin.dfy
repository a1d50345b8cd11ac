// The admin endpoints: the health check, which probes the database, Redis
// and the embedding provider and classifies the result, and the upload of
// pre-chunked regulation text, which reuses cached embeddings and embeds
// the rest before storing the chunks.

module Admin {
  import opened Common
  import opened Hashing
  import opened KeyValue
  import opened JobQueue
  import opened Database
  import RegulationProcessor
  import Embeddings

  // ------------------------------------------------------------ health

  /** The `services` dict of the health response. */
  datatype Services = Services(database: bool, redis: bool, embeddings: bool, llm: bool)

  datatype HealthStatus = Healthy | Degraded | Unhealthy

  function StatusName(s: HealthStatus): string {
    match s
    case Healthy => "healthy"
    case Degraded => "degraded"
    case Unhealthy => "unhealthy"
  }

  /** Healthy when every service is, degraded when the database and Redis
      are but something else is not, unhealthy otherwise. */
  function Classify(s: Services): (h: HealthStatus)
    ensures h == Healthy <==> s.database && s.redis && s.embeddings && s.llm
    ensures h == Degraded <==> s.database && s.redis && !(s.embeddings && s.llm)
    ensures h == Unhealthy <==> !(s.database && s.redis)
  {
    if s.database && s.redis && s.embeddings && s.llm then Healthy
    else if s.database && s.redis then Degraded
    else Unhealthy
  }

  datatype HealthResponse = HealthResponse(status: HealthStatus, version: string, timestamp: nat, services: Services)

  /** `health_check` as written: the Redis probe tests the value of
      `connect_async()`, which returns None, so the flag is never set; the
      LLM is assumed healthy. `embedProbe` is the answer to embedding
      "health check". */
  method HealthCheckAsWritten(queue: JobQueue, databaseUp: bool, embedProbe: Result<Vector>, version: string, now: nat)
    returns (r: HealthResponse)
    modifies queue
    ensures queue.asyncRedis == (if old(queue.asyncRedis) == null then queue.server else old(queue.asyncRedis))
    ensures r.services == Services(databaseUp, false, embedProbe.Ok?, true)
    ensures r.status == Classify(r.services) && r.version == version && r.timestamp == now
  {
    var services := Services(false, false, false, false);
    if databaseUp {
      services := services.(database := true);
    }
    queue.ConnectAsync();
    queue.ConnectAsync();
    var connected := JNull;
    if Truthy(connected) {
      services := services.(redis := true);
    }
    if embedProbe.Ok? {
      services := services.(embeddings := true);
    }
    services := services.(llm := true);
    r := HealthResponse(Classify(services), version, now, services);
  }

  /** Whatever the services' state, the health check as written reports
      "unhealthy": healthy and degraded both need the Redis flag. */
  lemma AlwaysUnhealthyAsWritten(databaseUp: bool, embedProbe: Result<Vector>)
    ensures Classify(Services(databaseUp, false, embedProbe.Ok?, true)) == Unhealthy
  {
  }

  /** `health_check` with the Redis flag set when the server answers. */
  method HealthCheck(queue: JobQueue, databaseUp: bool, embedProbe: Result<Vector>, version: string, now: nat)
    returns (r: HealthResponse)
    modifies queue
    ensures queue.asyncRedis == (if old(queue.asyncRedis) == null then queue.server else old(queue.asyncRedis))
    ensures r.services == Services(databaseUp, queue.server.up, embedProbe.Ok?, true)
    ensures r.status == Classify(r.services) && r.version == version && r.timestamp == now
  {
    var services := Services(false, false, false, false);
    if databaseUp {
      services := services.(database := true);
    }
    queue.ConnectAsync();
    if queue.server.up {
      services := services.(redis := true);
    }
    if embedProbe.Ok? {
      services := services.(embeddings := true);
    }
    services := services.(llm := true);
    r := HealthResponse(Classify(services), version, now, services);
  }

  /** With the probe repaired every status is reachable: healthy when all
      three probes succeed, degraded when only the embedding probe fails,
      unhealthy when the database or Redis is down. */
  lemma StatusesReachable(databaseUp: bool, redisUp: bool, embedProbe: Result<Vector>)
    ensures Classify(Services(databaseUp, redisUp, embedProbe.Ok?, true)) == Healthy <==> databaseUp && redisUp && embedProbe.Ok?
    ensures Classify(Services(databaseUp, redisUp, embedProbe.Ok?, true)) == Degraded <==> databaseUp && redisUp && embedProbe.Err?
  {
  }

  // ------------------------------------------------------------ upload

  /** The embedding a cached value gives the chunk: the decoded list of
      numbers, or none for a value that is not one. */
  function CachedVector(v: Value, parse: string -> Option<Json>): Option<Vector> {
    match Loads(v, parse)
    case Some(j) => Embeddings.VectorOf(j)
    case None => None
  }

  /** The cache key of a chunk's text: `embedding:` and the hex SHA-256. */
  function KeyOf(c: RegulationProcessor.RegulationChunk, hex: Digest -> string): string {
    EmbeddingKey(hex(Embeddings.TextHash(c.chunkText)))
  }

  /** The state of the upload loop: the Redis strings and expiries, the
      embeddings given so far, and the exception that ended the loop. */
  datatype Upload = Upload(strings: map<string, Value>, expiry: map<string, nat>, embeddings: seq<Option<Vector>>,
                           error: Option<Error>)

  /** One chunk: a present cache entry is reused, whatever it holds;
      otherwise the text is embedded and the answer cached for a week. An
      unreachable server or a failing provider raises. */
  function UploadStep(u: Upload, c: RegulationProcessor.RegulationChunk, up: bool, hex: Digest -> string,
                      embed: string -> Result<Vector>, parse: string -> Option<Json>): (r: Upload)
    requires u.error.None?
    ensures r.error.None? ==> |r.embeddings| == |u.embeddings| + 1 && r.embeddings[..|u.embeddings|] == u.embeddings
    ensures r.error.Some? ==> r.strings == u.strings && r.expiry == u.expiry
  {
    var key := KeyOf(c, hex);
    if !up then u.(error := Some(ConnectionError("Redis unavailable")))
    else if key in u.strings then u.(embeddings := u.embeddings + [CachedVector(u.strings[key], parse)])
    else match embed(c.chunkText)
      case Err(e) => u.(error := Some(e))
      case Ok(v) =>
        Upload(u.strings[key := Dumped(Embeddings.ToJson(v))], u.expiry[key := CacheTtl], u.embeddings + [Some(v)], None)
  }

  /** The upload loop over `cs`, from the given cache. */
  function Uploaded(cs: seq<RegulationProcessor.RegulationChunk>, strings: map<string, Value>, expiry: map<string, nat>,
                    up: bool, hex: Digest -> string, embed: string -> Result<Vector>, parse: string -> Option<Json>): (u: Upload)
    ensures u.error.None? ==> |u.embeddings| == |cs|
    decreases |cs|
  {
    if cs == [] then Upload(strings, expiry, [], None)
    else
      var prev := Uploaded(cs[..|cs| - 1], strings, expiry, up, hex, embed, parse);
      if prev.error.Some? then prev else UploadStep(prev, cs[|cs| - 1], up, hex, embed, parse)
  }

  /** After a successful upload every chunk's text is cached, and what the
      cache holds for it is the embedding the chunk was given. */
  lemma {:induction false} UploadCaches(cs: seq<RegulationProcessor.RegulationChunk>, strings: map<string, Value>,
                                        expiry: map<string, nat>, up: bool, hex: Digest -> string,
                                        embed: string -> Result<Vector>, parse: string -> Option<Json>)
    requires Uploaded(cs, strings, expiry, up, hex, embed, parse).error.None?
    ensures var u := Uploaded(cs, strings, expiry, up, hex, embed, parse);
      forall k :: 0 <= k < |cs| ==> KeyOf(cs[k], hex) in u.strings && CachedVector(u.strings[KeyOf(cs[k], hex)], parse) == u.embeddings[k]
    ensures forall key :: key in strings ==>
      key in Uploaded(cs, strings, expiry, up, hex, embed, parse).strings && Uploaded(cs, strings, expiry, up, hex, embed, parse).strings[key] == strings[key]
    decreases |cs|
  {
    if cs != [] {
      var init := cs[..|cs| - 1];
      var prev := Uploaded(init, strings, expiry, up, hex, embed, parse);
      UploadCaches(init, strings, expiry, up, hex, embed, parse);
      var u := Uploaded(cs, strings, expiry, up, hex, embed, parse);
      var c := cs[|cs| - 1];
      var key := KeyOf(c, hex);
      assert u == UploadStep(prev, c, up, hex, embed, parse);
      if key !in prev.strings {
        Embeddings.VectorRoundTrip(embed(c.chunkText).value);
      }
      forall k | 0 <= k < |cs|
        ensures KeyOf(cs[k], hex) in u.strings && CachedVector(u.strings[KeyOf(cs[k], hex)], parse) == u.embeddings[k]
      {
        if k < |init| {
          assert cs[k] == init[k];
          assert u.embeddings[k] == prev.embeddings[k];
        }
      }
    }
  }

  /** An upload whose chunks are all cached asks the provider nothing,
      writes nothing and gives each chunk its cached embedding. */
  lemma {:induction false} AllCachedAsksNoProvider(cs: seq<RegulationProcessor.RegulationChunk>, strings: map<string, Value>,
                                                   expiry: map<string, nat>, hex: Digest -> string,
                                                   embed: string -> Result<Vector>, other: string -> Result<Vector>,
                                                   parse: string -> Option<Json>)
    requires forall k :: 0 <= k < |cs| ==> KeyOf(cs[k], hex) in strings
    ensures Uploaded(cs, strings, expiry, true, hex, embed, parse) == Uploaded(cs, strings, expiry, true, hex, other, parse)
    ensures var u := Uploaded(cs, strings, expiry, true, hex, embed, parse);
      && u.error.None? && u.strings == strings && u.expiry == expiry
      && forall k :: 0 <= k < |cs| ==> u.embeddings[k] == CachedVector(strings[KeyOf(cs[k], hex)], parse)
    decreases |cs|
  {
    if cs != [] {
      var init := cs[..|cs| - 1];
      AllCachedAsksNoProvider(init, strings, expiry, hex, embed, other, parse);
      var u := Uploaded(cs, strings, expiry, true, hex, embed, parse);
      forall k | 0 <= k < |cs|
        ensures u.embeddings[k] == CachedVector(strings[KeyOf(cs[k], hex)], parse)
      {
        if k < |init| {
          assert cs[k] == init[k];
        }
      }
    }
  }

  /** Uploading the same chunks again, after a successful upload, asks the
      provider nothing and gives every chunk the embedding it had. */
  lemma UploadAgainReusesEmbeddings(cs: seq<RegulationProcessor.RegulationChunk>, strings: map<string, Value>,
                                    expiry: map<string, nat>, hex: Digest -> string,
                                    embed: string -> Result<Vector>, other: string -> Result<Vector>,
                                    parse: string -> Option<Json>)
    requires Uploaded(cs, strings, expiry, true, hex, embed, parse).error.None?
    ensures var first := Uploaded(cs, strings, expiry, true, hex, embed, parse);
      var again := Uploaded(cs, first.strings, first.expiry, true, hex, other, parse);
      again.error.None? && again.embeddings == first.embeddings && again.strings == first.strings
  {
    var first := Uploaded(cs, strings, expiry, true, hex, embed, parse);
    UploadCaches(cs, strings, expiry, true, hex, embed, parse);
    AllCachedAsksNoProvider(cs, first.strings, first.expiry, hex, other, other, parse);
  }

  /** The row `insert_batch` writes for a processed chunk. */
  function RowOf(c: RegulationProcessor.RegulationChunk, embedding: Option<Vector>, hex: Digest -> string): RegulationChunkRow {
    RegulationChunkRow(c.ruleId, c.ruleSection, Some(c.sourceDocument), c.chunkText, c.chunkIndex,
                       hex(c.chunkHash), embedding, None, c.metadata)
  }

  function RowsOf(cs: seq<RegulationProcessor.RegulationChunk>, embeddings: seq<Option<Vector>>, hex: Digest -> string)
    : (r: seq<RegulationChunkRow>)
    requires |embeddings| == |cs|
    ensures |r| == |cs| && forall k :: 0 <= k < |cs| ==> r[k] == RowOf(cs[k], embeddings[k], hex)
  {
    seq(|cs|, k requires 0 <= k < |cs| => RowOf(cs[k], embeddings[k], hex))
  }

  /** The upload loop, one step at a time. */
  lemma UploadedNext(cs: seq<RegulationProcessor.RegulationChunk>, i: nat, strings: map<string, Value>, expiry: map<string, nat>,
                     up: bool, hex: Digest -> string, embed: string -> Result<Vector>, parse: string -> Option<Json>)
    requires i < |cs|
    ensures Uploaded(cs[..i + 1], strings, expiry, up, hex, embed, parse)
      == var prev := Uploaded(cs[..i], strings, expiry, up, hex, embed, parse);
         if prev.error.Some? then prev else UploadStep(prev, cs[i], up, hex, embed, parse)
  {
    assert cs[..i + 1][..i] == cs[..i];
  }

  /** A failure ends the loop: the later chunks change nothing. */
  lemma {:induction false} UploadedStops(cs: seq<RegulationProcessor.RegulationChunk>, n: nat, strings: map<string, Value>,
                                         expiry: map<string, nat>, up: bool, hex: Digest -> string,
                                         embed: string -> Result<Vector>, parse: string -> Option<Json>)
    requires n <= |cs| && Uploaded(cs[..n], strings, expiry, up, hex, embed, parse).error.Some?
    ensures Uploaded(cs, strings, expiry, up, hex, embed, parse) == Uploaded(cs[..n], strings, expiry, up, hex, embed, parse)
    decreases |cs| - n
  {
    if n < |cs| {
      UploadedNext(cs, n, strings, expiry, up, hex, embed, parse);
      UploadedStops(cs, n + 1, strings, expiry, up, hex, embed, parse);
    } else {
      assert cs[..n] == cs;
    }
  }

  /** The step does not depend on the embeddings given before. */
  lemma StepShift(st: map<string, Value>, ex: map<string, nat>, es: seq<Option<Vector>>, c: RegulationProcessor.RegulationChunk,
                  up: bool, hex: Digest -> string, embed: string -> Result<Vector>, parse: string -> Option<Json>)
    ensures var one := UploadStep(Upload(st, ex, [], None), c, up, hex, embed, parse);
      UploadStep(Upload(st, ex, es, None), c, up, hex, embed, parse)
        == Upload(one.strings, one.expiry, if one.error.None? then es + one.embeddings else es, one.error)
  {
  }

  /** One iteration of the loop of `upload_regulation`. */
  method EmbedOne(queue: JobQueue, c: RegulationProcessor.RegulationChunk, hex: Digest -> string,
                  embed: string -> Result<Vector>, parse: string -> Option<Json>)
    returns (vector: Option<Vector>, error: Option<Error>)
    requires queue.asyncRedis == queue.server
    modifies queue, queue.server
    ensures queue.asyncRedis == queue.server && queue.server.up == old(queue.server.up)
    ensures queue.server.lists == old(queue.server.lists)
    ensures var one := UploadStep(Upload(old(queue.server.strings), old(queue.server.expiry), [], None), c, old(queue.server.up),
                                  hex, embed, parse);
      && queue.server.strings == one.strings && queue.server.expiry == one.expiry && error == one.error
      && (error.None? ==> one.embeddings == [vector])
  {
    var textHash := hex(Embeddings.TextHash(c.chunkText));
    var cached := queue.GetCachedEmbedding(textHash, parse);
    if cached.Err? {
      return None, Some(ConnectionError("Redis unavailable"));
    }
    if cached.value.Some? {
      vector := match cached.value.value
        case Decoded(j) => Embeddings.VectorOf(j)
        case RawText(_) => None;
      return vector, None;
    }
    var embedded := embed(c.chunkText);
    if embedded.Err? {
      return None, Some(embedded.error);
    }
    var written := queue.CacheEmbedding(textHash, Embeddings.ToJson(embedded.value));
    vector, error := Some(embedded.value), None;
  }

  /** The loop of `upload_regulation` over the processed chunks: each
      chunk's embedding, and the exception that ended the loop, if any. */
  method EmbedChunks(queue: JobQueue, cs: seq<RegulationProcessor.RegulationChunk>, hex: Digest -> string,
                     embed: string -> Result<Vector>, parse: string -> Option<Json>)
    returns (embeddings: seq<Option<Vector>>, error: Option<Error>)
    requires queue.asyncRedis == queue.server
    modifies queue, queue.server
    ensures queue.asyncRedis == queue.server && queue.server.up == old(queue.server.up)
    ensures queue.server.lists == old(queue.server.lists)
    ensures var u := Uploaded(cs, old(queue.server.strings), old(queue.server.expiry), old(queue.server.up), hex, embed, parse);
      && queue.server.strings == u.strings && queue.server.expiry == u.expiry
      && embeddings == u.embeddings && error == u.error
  {
    ghost var strings0, expiry0, up := queue.server.strings, queue.server.expiry, queue.server.up;
    embeddings := [];
    var i := 0;
    while i < |cs|
      invariant 0 <= i <= |cs|
      invariant queue.asyncRedis == queue.server && queue.server.up == up
      invariant queue.server.lists == old(queue.server.lists)
      invariant Uploaded(cs[..i], strings0, expiry0, up, hex, embed, parse)
        == Upload(queue.server.strings, queue.server.expiry, embeddings, None)
    {
      UploadedNext(cs, i, strings0, expiry0, up, hex, embed, parse);
      StepShift(queue.server.strings, queue.server.expiry, embeddings, cs[i], up, hex, embed, parse);
      var vector, failure := EmbedOne(queue, cs[i], hex, embed, parse);
      if failure.Some? {
        UploadedStops(cs, i + 1, strings0, expiry0, up, hex, embed, parse);
        return embeddings, failure;
      }
      embeddings := embeddings + [vector];
      i := i + 1;
    }
    assert cs[..|cs|] == cs;
    error := None;
  }

  /** `upload_regulation`: the chunks are processed, given embeddings from
      the cache or the provider, and upserted; the reply counts them. */
  method UploadRegulation(queue: JobQueue, table: RegulationChunkTable, ruleId: string, sourceDocument: string, data: Json,
                          hex: Digest -> string, embed: string -> Result<Vector>, parse: string -> Option<Json>)
    returns (r: Result<nat>)
    requires queue.asyncRedis == null || queue.asyncRedis == queue.server
    modifies queue, queue.server, table
    ensures queue.server.up == old(queue.server.up) && queue.server.lists == old(queue.server.lists)
    ensures RegulationProcessor.ProcessJsonChunks(data, ruleId, sourceDocument).Err? ==>
      && r == Err(RegulationProcessor.ProcessJsonChunks(data, ruleId, sourceDocument).error)
      && queue.asyncRedis == old(queue.asyncRedis)
      && queue.server.strings == old(queue.server.strings) && queue.server.expiry == old(queue.server.expiry)
      && table.rows == old(table.rows)
    ensures RegulationProcessor.ProcessJsonChunks(data, ruleId, sourceDocument).Ok? ==>
      var cs := RegulationProcessor.ProcessJsonChunks(data, ruleId, sourceDocument).value;
      var u := Uploaded(cs, old(queue.server.strings), old(queue.server.expiry), old(queue.server.up), hex, embed, parse);
      && queue.asyncRedis == queue.server
      && queue.server.strings == u.strings && queue.server.expiry == u.expiry
      && (u.error.Some? ==> r == Err(u.error.value) && table.rows == old(table.rows))
      && (u.error.None? ==>
            r == Ok(|cs|) && table.rows == UpsertAll(old(table.rows), RowsOf(cs, u.embeddings, hex), RegulationChunkHash, RefreshRegulationChunk))
  {
    var processed := RegulationProcessor.ProcessJsonChunks(data, ruleId, sourceDocument);
    if processed.Err? {
      return Err(processed.error);
    }
    queue.ConnectAsync();
    var cs := processed.value;
    var embeddings, error := EmbedChunks(queue, cs, hex, embed, parse);
    if error.Some? {
      return Err(error.value);
    }
    var count := table.InsertBatch(RowsOf(cs, embeddings, hex));
    r := Ok(count);
  }
}
