// The embeddings service: provider selection, the retried single and batch
// calls, the Azure direct-API fallback over three model names, and the
// cache-or-compute path on Redis. The provider is an oracle: it is asked
// once per attempt, and attempts are numbered across calls.

module Embeddings {
  import opened Common
  import opened Hashing
  import opened KeyValue

  const Attempts: nat := 3
  const DefaultPrefix: string := "emb"
  const DefaultBatchSize: int := 100
  const EmbeddingTtl: nat := 86400

  // ---------------------------------------------------------------- setup

  datatype EmbeddingSettings = EmbeddingSettings(
    provider: string,
    azureEndpoint: Option<string>,
    azureKey: Option<string>,
    azureDeployment: Option<string>,
    openaiKey: Option<string>,
    batchSize: int)

  datatype Service = Service(provider: string, model: string, batchSize: int)

  predicate Set(v: Option<string>) {
    v.Some? && v.value != ""
  }

  /** `EmbeddingsService.__init__` */
  function NewService(s: EmbeddingSettings): (r: Result<Service>)
    ensures r.Ok? <==> ((s.provider == "azure" && Set(s.azureEndpoint) && Set(s.azureKey))
                        || (s.provider == "openai" && Set(s.openaiKey)))
    ensures r.Err? ==> r.error.EmbeddingProviderError?
    ensures r.Ok? ==> r.value.provider == s.provider && r.value.batchSize == s.batchSize
    ensures r.Ok? && s.provider == "openai" ==> r.value.model == "text-embedding-3-small"
    ensures r.Ok? && s.provider == "azure" ==>
      r.value.model == if Set(s.azureDeployment) then s.azureDeployment.value else "text-embedding-ada-002"
  {
    if s.provider == "azure" then
      if !Set(s.azureEndpoint) || !Set(s.azureKey) then Err(EmbeddingProviderError("Azure OpenAI credentials not configured"))
      else Ok(Service(s.provider, if Set(s.azureDeployment) then s.azureDeployment.value else "text-embedding-ada-002", s.batchSize))
    else if s.provider == "openai" then
      if !Set(s.openaiKey) then Err(EmbeddingProviderError("OpenAI API key not configured"))
      else Ok(Service(s.provider, "text-embedding-3-small", s.batchSize))
    else Err(EmbeddingProviderError("Unknown provider: " + s.provider))
  }

  /** `compute_text_hash`: SHA-256 of the UTF-8 text. */
  function TextHash(text: string): (d: Digest)
    ensures d == Sha256(Utf8(text))
  {
    Sha256Text(text)
  }

  /** Equal hashes mean equal texts. */
  lemma TextHashIdentifies(a: string, b: string)
    ensures TextHash(a) == TextHash(b) <==> a == b
  {
    if TextHash(a) == TextHash(b) {
      Utf8Injective(a, b);
    }
  }

  // ---------------------------------------------------------------- embed_text

  /** The provider's answers: `deployed(n)` to the SDK call of attempt `n`,
      `direct(n, model)` to the REST call for `model` during attempt `n`
      (`Some` only for a 200 reply whose body holds an embedding). */
  datatype Provider = Provider(deployed: nat -> Result<Vector>, direct: (nat, string) -> Option<Vector>)

  const DirectModels: seq<string> := ["text-embedding-ada-002", "text-embedding-3-small", "text-embedding-3-large"]

  /** `_embed_via_direct_api`: the first model, in order, that answers. */
  function DirectFrom(p: Provider, n: nat, i: nat): (r: Result<Vector>)
    requires i <= |DirectModels|
    ensures r.Ok? <==> exists k :: i <= k < |DirectModels| && p.direct(n, DirectModels[k]).Some?
    ensures r.Ok? ==> exists k :: && i <= k < |DirectModels| && p.direct(n, DirectModels[k]) == Some(r.value)
                                  && forall j :: i <= j < k ==> p.direct(n, DirectModels[j]).None?
    decreases |DirectModels| - i
  {
    if i == |DirectModels| then
      Err(RuntimeError("No embedding models available. Please deploy one of these models in Azure Portal: "
                       + Join(DirectModels, ", ")))
    else match p.direct(n, DirectModels[i])
      case Some(v) => Ok(v)
      case None => DirectFrom(p, n, i + 1)
  }

  /** One attempt of `embed_text`: Azure falls back to the direct API when
      the SDK call fails; any failure becomes an embedding provider error. */
  function EmbedAttempt(svc: Service, p: Provider, n: nat): (r: Result<Vector>)
    ensures r.Err? ==> r.error.EmbeddingProviderError?
    ensures p.deployed(n).Ok? ==> r == p.deployed(n)
    ensures svc.provider != "azure" ==> (r.Ok? <==> p.deployed(n).Ok?)
    ensures svc.provider == "azure" && p.deployed(n).Err? ==> r.Ok? == DirectFrom(p, n, 0).Ok? && (r.Ok? ==> r == DirectFrom(p, n, 0))
  {
    var got := if svc.provider == "azure" && p.deployed(n).Err? then DirectFrom(p, n, 0) else p.deployed(n);
    match got
    case Ok(v) => Ok(v)
    case Err(e) => Err(EmbeddingProviderError("Failed to generate embedding: " + ErrorText(e)))
  }

  /** `embed_text` as the `call`-th call: up to three attempts, numbered
      from `3 * call`. */
  function EmbedText(svc: Service, p: Provider, call: nat): (r: Result<Vector>)
    ensures r.Ok? <==> exists k :: 0 <= k < Attempts && AttemptOf(svc, p, call, k).Ok?
    ensures r.Ok? ==> exists k :: 0 <= k < Attempts && AttemptOf(svc, p, call, k) == r
    ensures r.Err? ==> r == AttemptOf(svc, p, call, Attempts - 1) && r.error.EmbeddingProviderError?
  {
    var attempt := (k: nat) => AttemptOf(svc, p, call, k);
    RetryMeaning(attempt, Attempts, 0);
    Retry(attempt, Attempts, 0)
  }

  /** Attempt `k` of the `call`-th `embed_text` call. */
  function AttemptOf(svc: Service, p: Provider, call: nat, k: nat): Result<Vector> {
    EmbedAttempt(svc, p, Attempts * call + k)
  }

  // ---------------------------------------------------------------- embed_batch

  /** The provider's answer to a batch request during attempt `k`. */
  /** What `embed_text` answers on its n-th call for a text, its retries and
      provider fallbacks included: the embedding oracle of the services
      that only call `embed_text`. */
  type Embedder = (nat, string) -> Result<Vector>

  type BatchCall = (nat, seq<string>) -> Result<seq<Vector>>

  function Min(a: int, b: int): int {
    if a <= b then a else b
  }

  /** The consecutive slices of `batchSize` texts from `i` on. */
  function Slices(texts: seq<string>, batchSize: nat, i: nat): (r: seq<seq<string>>)
    requires 0 < batchSize && i <= |texts|
    decreases |texts| - i
  {
    if i == |texts| then [] else [texts[i..Min(i + batchSize, |texts|)]] + Slices(texts, batchSize, Min(i + batchSize, |texts|))
  }

  /** The slices cover the texts exactly once, in order, none empty or
      larger than the batch size. */
  lemma {:induction false} SlicesCover(texts: seq<string>, batchSize: nat, i: nat)
    requires 0 < batchSize && i <= |texts|
    ensures Concat(Slices(texts, batchSize, i)) == texts[i..]
    ensures forall k :: 0 <= k < |Slices(texts, batchSize, i)| ==> 0 < |Slices(texts, batchSize, i)[k]| <= batchSize
    decreases |texts| - i
  {
    if i < |texts| {
      var j := Min(i + batchSize, |texts|);
      SlicesCover(texts, batchSize, j);
      var rest := Slices(texts, batchSize, j);
      ConcatCons(texts[i..j], rest);
      assert texts[i..j] + texts[j..] == texts[i..];
      assert forall k :: 1 <= k < |[texts[i..j]] + rest| ==> ([texts[i..j]] + rest)[k] == rest[k - 1];
    }
  }

  lemma ConcatCons<T>(x: seq<T>, xs: seq<seq<T>>)
    ensures Concat([x] + xs) == x + Concat(xs)
  {
    assert ([x] + xs)[1..] == xs;
  }

  /** The responses to the slices from `i` on, concatenated; the first
      failure ends the attempt. */
  function BatchFrom(texts: seq<string>, batchSize: nat, i: nat, call: BatchCall, k: nat): (r: Result<seq<Vector>>)
    requires 0 < batchSize && i <= |texts|
    ensures r.Err? ==> r.error.EmbeddingProviderError?
    decreases |texts| - i
  {
    if i == |texts| then Ok([])
    else
      var j := Min(i + batchSize, |texts|);
      match call(k, texts[i..j])
      case Err(e) => Err(EmbeddingProviderError("Failed to generate batch embeddings: " + ErrorText(e)))
      case Ok(es) =>
        match BatchFrom(texts, batchSize, j, call, k)
        case Err(e) => Err(e)
        case Ok(rest) => Ok(es + rest)
  }

  /** One attempt of `embed_batch` on non-empty input: a zero step makes
      `range` raise, a negative one makes it empty. */
  function BatchAttempt(texts: seq<string>, batchSize: int, call: BatchCall, k: nat): (r: Result<seq<Vector>>)
    ensures r.Err? ==> r.error.EmbeddingProviderError?
    ensures batchSize == 0 ==> r.Err?
    ensures batchSize < 0 ==> r == Ok([])
  {
    if batchSize == 0 then Err(EmbeddingProviderError("Failed to generate batch embeddings: range() arg 3 must not be zero"))
    else if batchSize < 0 then Ok([])
    else BatchFrom(texts, batchSize, 0, call, k)
  }

  /** `embed_batch` */
  function EmbedBatch(texts: seq<string>, batchSize: int, call: BatchCall): Result<seq<Vector>>
  {
    if texts == [] then Ok([])
    else Retry((k: nat) => BatchAttempt(texts, batchSize, call, k), Attempts, 0)
  }

  /** Empty input asks nothing; otherwise the batch succeeds exactly when
      one of the three attempts does, and fails with a provider error. */
  lemma EmbedBatchMeaning(texts: seq<string>, batchSize: int, call: BatchCall)
    ensures var r := EmbedBatch(texts, batchSize, call);
      && (texts == [] ==> r == Ok([]))
      && (texts != [] ==> (r.Ok? <==> exists k :: 0 <= k < Attempts && BatchAttempt(texts, batchSize, call, k).Ok?))
      && (r.Err? ==> r.error.EmbeddingProviderError?)
  {
    if texts != [] {
      RetryMeaning((k: nat) => BatchAttempt(texts, batchSize, call, k), Attempts, 0);
    }
  }

  /** A provider answering one vector per text gives one vector per text. */
  lemma {:induction false} BatchLength(texts: seq<string>, batchSize: nat, i: nat, call: BatchCall, k: nat)
    requires 0 < batchSize && i <= |texts|
    requires forall b :: call(k, b).Ok? ==> |call(k, b).value| == |b|
    requires BatchFrom(texts, batchSize, i, call, k).Ok?
    ensures |BatchFrom(texts, batchSize, i, call, k).value| == |texts| - i
    decreases |texts| - i
  {
    if i < |texts| {
      BatchLength(texts, batchSize, Min(i + batchSize, |texts|), call, k);
    }
  }

  /** A successful attempt is the concatenation of the provider's answers to
      the slices, in order. */
  lemma {:induction false} BatchConcatenates(texts: seq<string>, batchSize: nat, i: nat, call: BatchCall, k: nat)
    requires 0 < batchSize && i <= |texts|
    requires BatchFrom(texts, batchSize, i, call, k).Ok?
    ensures forall s :: s in Slices(texts, batchSize, i) ==> call(k, s).Ok?
    ensures BatchFrom(texts, batchSize, i, call, k).value == Concat(Answers(Slices(texts, batchSize, i), call, k))
    decreases |texts| - i
  {
    if i < |texts| {
      var j := Min(i + batchSize, |texts|);
      BatchConcatenates(texts, batchSize, j, call, k);
      var ss := Slices(texts, batchSize, i);
      assert ss == [texts[i..j]] + Slices(texts, batchSize, j);
      assert ss[1..] == Slices(texts, batchSize, j);
      ConcatCons(call(k, texts[i..j]).value, Answers(Slices(texts, batchSize, j), call, k));
    }
  }

  /** The provider's answers to some slices, all of which succeed. */
  function Answers(slices: seq<seq<string>>, call: BatchCall, k: nat): (r: seq<seq<Vector>>)
    requires forall s :: s in slices ==> call(k, s).Ok?
    ensures |r| == |slices|
  {
    if slices == [] then [] else [call(k, slices[0]).value] + Answers(slices[1..], call, k)
  }

  /** The slice loop of one `embed_batch` attempt. */
  method BatchAttemptMethod(texts: seq<string>, batchSize: int, call: BatchCall, k: nat) returns (r: Result<seq<Vector>>)
    ensures r == BatchAttempt(texts, batchSize, call, k)
  {
    if batchSize == 0 {
      return Err(EmbeddingProviderError("Failed to generate batch embeddings: range() arg 3 must not be zero"));
    }
    var all: seq<Vector> := [];
    var i := 0;
    if batchSize < 0 {
      return Ok(all);
    }
    match BatchFrom(texts, batchSize, 0, call, k) {
      case Ok(tail) => assert all + tail == tail;
      case Err(_) =>
    }
    while i < |texts|
      invariant 0 <= i <= |texts|
      invariant BatchFrom(texts, batchSize, 0, call, k) == Appended(all, BatchFrom(texts, batchSize, i, call, k))
      decreases |texts| - i
    {
      var j := Min(i + batchSize, |texts|);
      var got := call(k, texts[i..j]);
      if got.Err? {
        return Err(EmbeddingProviderError("Failed to generate batch embeddings: " + ErrorText(got.error)));
      }
      match BatchFrom(texts, batchSize, j, call, k) {
        case Ok(rest) => AppendAssoc(all, got.value, rest);
        case Err(_) =>
      }
      all := all + got.value;
      i := j;
    }
    assert all + [] == all;
    r := Ok(all);
  }

  function Appended(done: seq<Vector>, rest: Result<seq<Vector>>): Result<seq<Vector>> {
    match rest
    case Ok(tail) => Ok(done + tail)
    case Err(e) => Err(e)
  }

  /** `embed_batch`: empty input asks nothing; otherwise up to three
      attempts of the slice loop. */
  method EmbedBatchMethod(texts: seq<string>, batchSize: int, call: BatchCall) returns (r: Result<seq<Vector>>)
    ensures r == EmbedBatch(texts, batchSize, call)
  {
    if texts == [] {
      return Ok([]);
    }
    ghost var attempt := (k: nat) => BatchAttempt(texts, batchSize, call, k);
    var k := 0;
    r := BatchAttemptMethod(texts, batchSize, call, 0);
    assert r == attempt(0);
    RetryUnfold(attempt, Attempts, 0);
    while r.Err? && k + 1 < Attempts
      invariant 0 <= k < Attempts
      invariant r == attempt(k)
      invariant Retry(attempt, Attempts, 0) == (if r.Ok? || k + 1 == Attempts then r else Retry(attempt, Attempts, k + 1))
    {
      k := k + 1;
      r := BatchAttemptMethod(texts, batchSize, call, k);
      assert r == attempt(k);
      RetryUnfold(attempt, Attempts, k);
    }
  }

  // ---------------------------------------------------------------- cache

  /** `"{cache_prefix}:{text_hash}"`; `hex` renders a digest. */
  function CacheKey(prefix: string, text: string, hex: Digest -> string): string {
    prefix + ":" + hex(TextHash(text))
  }

  /** The service's default namespace never meets the worker's
      `embedding:` keys. */
  lemma PrefixesDisjoint(text: string, hex: Digest -> string, textHash: string)
    ensures CacheKey(DefaultPrefix, text, hex) != "embedding:" + textHash
  {
    assert CacheKey(DefaultPrefix, text, hex)[3] == ':';
    assert ("embedding:" + textHash)[3] == 'e';
  }

  function ToJson(v: Vector): (j: Json)
    ensures j.JList? && |j.items| == |v|
  {
    JList(seq(|v|, i requires 0 <= i < |v| => JNum(v[i])))
  }

  /** A JSON list of numbers as an embedding vector. */
  function VectorOf(j: Json): (r: Option<Vector>)
    ensures r.Some? ==> j.JList? && |r.value| == |j.items|
  {
    if j.JList? && forall i :: 0 <= i < |j.items| ==> j.items[i].JNum? then
      Some(seq(|j.items|, i requires 0 <= i < |j.items| && j.items[i].JNum? => j.items[i].n))
    else None
  }

  /** A vector stored as JSON reads back as itself. */
  lemma VectorRoundTrip(v: Vector)
    ensures VectorOf(ToJson(v)) == Some(v)
  {
    var j := ToJson(v);
    assert forall i :: 0 <= i < |j.items| ==> j.items[i] == JNum(v[i]);
    assert VectorOf(j).value == v;
  }

  /** `embed_text` without the cache, as the `call`-th call. */
  function Fresh(svc: Service, p: Provider, call: nat): (r: Result<Json>)
    ensures r.Ok? <==> EmbedText(svc, p, call).Ok?
    ensures r.Ok? ==> r.value == ToJson(EmbedText(svc, p, call).value)
  {
    match EmbedText(svc, p, call)
    case Ok(v) => Ok(ToJson(v))
    case Err(e) => Err(e)
  }

  /** What `embed_with_cache` returns and what it stores (if anything). */
  datatype CacheOutcome = CacheOutcome(result: Result<Json>, stored: Option<Value>)

  /** `embed_with_cache` given the server's state: `up` and the value under
      the key. A hit that decodes asks no provider; a miss embeds and
      stores; any failure (server, decoding, provider) embeds once more
      without the cache. */
  function WithCache(svc: Service, p: Provider, up: bool, cached: Option<Value>, parse: string -> Option<Json>): (o: CacheOutcome)
  {
    if !up then CacheOutcome(Fresh(svc, p, 0), None)
    else if cached.Some? && NonEmpty(cached.value) then
      match Loads(cached.value, parse)
      case Some(j) => CacheOutcome(Ok(j), None)
      case None => CacheOutcome(Fresh(svc, p, 0), None)
    else
      match EmbedText(svc, p, 0)
      case Ok(v) => CacheOutcome(Ok(ToJson(v)), Some(Dumped(ToJson(v))))
      case Err(_) => CacheOutcome(Fresh(svc, p, 1), None)
  }

  /** A hit is answered from the cache, whatever the provider would say. */
  lemma HitAsksNoProvider(svc: Service, p1: Provider, p2: Provider, v: Value, parse: string -> Option<Json>)
    requires NonEmpty(v) && Loads(v, parse).Some?
    ensures WithCache(svc, p1, true, Some(v), parse) == WithCache(svc, p2, true, Some(v), parse)
    ensures WithCache(svc, p1, true, Some(v), parse) == CacheOutcome(Ok(Loads(v, parse).value), None)
  {
  }

  /** What a miss stores, the next lookup returns as is, without asking the
      provider. */
  lemma MissThenHit(svc: Service, p: Provider, other: Provider, cached: Option<Value>, parse: string -> Option<Json>)
    requires cached.None? || !NonEmpty(cached.value)
    requires EmbedText(svc, p, 0).Ok?
    ensures WithCache(svc, p, true, cached, parse).stored.Some?
    ensures WithCache(svc, other, true, WithCache(svc, p, true, cached, parse).stored, parse)
      == CacheOutcome(WithCache(svc, p, true, cached, parse).result, None)
  {
  }

  /** Nothing is stored unless the provider answered, and an answer is
      stored as it is returned. */
  lemma StoresOnlyAnswers(svc: Service, p: Provider, up: bool, cached: Option<Value>, parse: string -> Option<Json>)
    ensures var o := WithCache(svc, p, up, cached, parse);
      o.stored.Some? ==> o.result.Ok? && o.stored == Some(Dumped(o.result.value)) && EmbedText(svc, p, 0).Ok?
  {
  }

  /** `embed_with_cache` */
  method EmbedWithCache(svc: Service, p: Provider, text: string, redis: Redis, prefix: string,
                        hex: Digest -> string, parse: string -> Option<Json>) returns (r: Result<Json>)
    modifies redis
    ensures var o := WithCache(svc, p, old(redis.up), Lookup(old(redis.strings), CacheKey(prefix, text, hex)), parse);
      && r == o.result
      && redis.up == old(redis.up) && redis.lists == old(redis.lists)
      && (o.stored.None? ==> redis.strings == old(redis.strings) && redis.expiry == old(redis.expiry))
      && (o.stored.Some? ==> redis.strings == old(redis.strings)[CacheKey(prefix, text, hex) := o.stored.value]
                             && redis.expiry == old(redis.expiry)[CacheKey(prefix, text, hex) := EmbeddingTtl])
  {
    var key := CacheKey(prefix, text, hex);
    var got := redis.Get(key);
    if got.Ok? && got.value.Some? && NonEmpty(got.value.value) {
      var decoded := Loads(got.value.value, parse);
      if decoded.Some? {
        return Ok(decoded.value);
      }
    }
    if got.Ok? && !(got.value.Some? && NonEmpty(got.value.value)) {
      var embedded := EmbedText(svc, p, 0);
      if embedded.Ok? {
        var written := redis.Set(key, Dumped(ToJson(embedded.value)), EmbeddingTtl);
        return Ok(ToJson(embedded.value));
      }
      return Fresh(svc, p, 1);
    }
    r := Fresh(svc, p, 0);
  }
}
