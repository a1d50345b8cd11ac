// The agents' log stream: each scan's log entries are JSON texts appended
// to the Redis list `scan:{scan_id}:logs`, which expires an hour after the
// first entry, and are read back from an index to the end.

module AgentLogs {
  import opened Common
  import opened KeyValue
  import opened JobQueue

  const DefaultTtl: nat := 3600

  function LogKey(scanId: string): (k: string)
    ensures |k| == |scanId| + 10
  {
    "scan:" + scanId + ":logs"
  }

  /** Different scans log to different lists. */
  lemma LogKeysDistinct(a: string, b: string)
    requires a != b
    ensures LogKey(a) != LogKey(b)
  {
    if |a| == |b| {
      assert LogKey(a)[5..|a| + 5] == a;
      assert LogKey(b)[5..|b| + 5] == b;
    }
  }

  /** The dict `log` pushes: the agent type (`PLANNER`, `NAVIGATOR`,
      `INVESTIGATOR`, `JUDGE` or `JIRA`), the message and the two clocks. */
  function EntryJson(agent: string, message: string, timestamp: string, epoch: real): (j: Json)
    ensures j.JObject? && j.fields.Keys == {"agent", "message", "timestamp", "ts_epoch"}
    ensures j.fields["agent"] == JStr(agent) && j.fields["message"] == JStr(message)
  {
    JObject(map["agent" := JStr(agent), "message" := JStr(message), "timestamp" := JStr(timestamp), "ts_epoch" := JNum(epoch)])
  }

  /** The lists after `RPUSH key v`. */
  function Pushed(lists: map<string, seq<Value>>, key: string, v: Value): (r: map<string, seq<Value>>)
    ensures r.Keys == lists.Keys + {key}
    ensures r[key] == (if key in lists then lists[key] else []) + [v]
    ensures forall k :: k in lists && k != key ==> r[k] == lists[k]
  {
    lists[key := (if key in lists then lists[key] else []) + [v]]
  }

  /** The expiries after a log: the TTL is set only when the key has none. */
  function LoggedExpiry(expiry: map<string, nat>, key: string, ttl: nat): (r: map<string, nat>)
    ensures key in r
    ensures key in expiry ==> r == expiry
    ensures forall k :: k != key ==> (k in r <==> k in expiry) && (k in r ==> r[k] == expiry[k])
  {
    if key in expiry then expiry else expiry[key := ttl]
  }

  /** Later logs do not extend the expiry the first one set. */
  lemma FirstExpiryStays(expiry: map<string, nat>, key: string, first: nat, later: nat)
    ensures LoggedExpiry(LoggedExpiry(expiry, key, first), key, later) == LoggedExpiry(expiry, key, first)
    ensures LoggedExpiry(LoggedExpiry(expiry, key, first), key, later)[key] == if key in expiry then expiry[key] else first
  {
  }

  /** `[json.loads(log) for log in raw_logs]`: None when one entry does not
      decode (the exception `get_logs` catches). */
  function DecodeAll(vs: seq<Value>, parse: string -> Option<Json>): (r: Option<seq<Json>>)
    ensures r.Some? <==> forall i :: 0 <= i < |vs| ==> Loads(vs[i], parse).Some?
    ensures r.Some? ==> |r.value| == |vs| && forall i :: 0 <= i < |vs| ==> r.value[i] == Loads(vs[i], parse).value
  {
    if forall i :: 0 <= i < |vs| ==> Loads(vs[i], parse).Some? then
      Some(seq(|vs|, i requires 0 <= i < |vs| && Loads(vs[i], parse).Some? => Loads(vs[i], parse).value))
    else None
  }

  /** What `get_logs(start)` returns on a reachable server. */
  function ReadLogs(lists: map<string, seq<Value>>, key: string, start: int, parse: string -> Option<Json>): (r: seq<Json>)
    ensures var window := ListFrom(if key in lists then lists[key] else [], start);
      && ((exists i :: 0 <= i < |window| && Loads(window[i], parse).None?) ==> r == [])
      && ((forall i :: 0 <= i < |window| ==> Loads(window[i], parse).Some?) ==>
            |r| == |window| && forall i :: 0 <= i < |window| ==> r[i] == Loads(window[i], parse).value)
  {
    match DecodeAll(ListFrom(if key in lists then lists[key] else [], start), parse)
    case Some(js) => js
    case None => []
  }

  /** A logged entry is read back last, after the entries before it. */
  lemma ReadAfterLog(lists: map<string, seq<Value>>, key: string, j: Json, parse: string -> Option<Json>)
    requires DecodeAll(if key in lists then lists[key] else [], parse).Some?
    ensures ReadLogs(Pushed(lists, key, Dumped(j)), key, 0, parse) == ReadLogs(lists, key, 0, parse) + [j]
  {
    var before := if key in lists then lists[key] else [];
    var after := before + [Dumped(j)];
    assert Loads(after[|before|], parse) == Some(j);
    assert forall i :: 0 <= i < |before| ==> after[i] == before[i];
    assert ListFrom(after, 0) == after && ListFrom(before, 0) == before;
    var got := DecodeAll(after, parse);
    assert got.Some?;
    assert got.value == DecodeAll(before, parse).value + [j];
  }

  /** The first entry logged for a scan is all that a read from 0 returns. */
  lemma FirstLogRead(lists: map<string, seq<Value>>, scanId: string, j: Json, parse: string -> Option<Json>)
    requires LogKey(scanId) !in lists
    ensures ReadLogs(Pushed(lists, LogKey(scanId), Dumped(j)), LogKey(scanId), 0, parse) == [j]
  {
    ReadAfterLog(lists, LogKey(scanId), j, parse);
  }

  /** `AgentLogger`: the log stream of one scan. */
  class AgentLogger {
    const scanId: string
    const ttl: nat
    const redisKey: string

    constructor (scanId: string, ttl: nat)
      ensures this.scanId == scanId && this.ttl == ttl && redisKey == LogKey(scanId)
    {
      this.scanId := scanId;
      this.ttl := ttl;
      redisKey := LogKey(scanId);
    }

    /** `log`: the entry is appended and, when the list has no expiry yet,
        the logger's TTL is set; a failure changes nothing and is not
        raised. */
    method Log(queue: JobQueue, agent: string, message: string, timestamp: string, epoch: real)
      requires queue.asyncRedis == null || queue.asyncRedis == queue.server
      modifies queue, queue.server
      ensures queue.asyncRedis == queue.server
      ensures queue.server.up == old(queue.server.up) && queue.server.strings == old(queue.server.strings)
      ensures old(queue.server.up) ==>
        && queue.server.lists == Pushed(old(queue.server.lists), redisKey, Dumped(EntryJson(agent, message, timestamp, epoch)))
        && queue.server.expiry == LoggedExpiry(old(queue.server.expiry), redisKey, ttl)
      ensures !old(queue.server.up) ==> queue.server.lists == old(queue.server.lists) && queue.server.expiry == old(queue.server.expiry)
    {
      if queue.asyncRedis == null {
        queue.ConnectAsync();
      }
      var redis := queue.asyncRedis;
      var pushed := redis.RPush(redisKey, Dumped(EntryJson(agent, message, timestamp, epoch)));
      if pushed.Err? {
        return;
      }
      var left := redis.Ttl(redisKey);
      if left.Ok? && left.value == NoExpiry {
        var expired := redis.Expire(redisKey, ttl);
      }
    }

    /** `get_logs(start)`: the decoded entries from `start` to the end, or
        nothing when the server or the decoding fails. */
    method GetLogs(queue: JobQueue, start: int, parse: string -> Option<Json>) returns (r: seq<Json>)
      requires queue.asyncRedis == null || queue.asyncRedis == queue.server
      modifies queue
      ensures queue.asyncRedis == queue.server
      ensures queue.server.up ==> r == ReadLogs(queue.server.lists, redisKey, start, parse)
      ensures !queue.server.up ==> r == []
    {
      if queue.asyncRedis == null {
        queue.ConnectAsync();
      }
      var raw := queue.asyncRedis.LRange(redisKey, start);
      if raw.Err? {
        return [];
      }
      match DecodeAll(raw.value, parse) {
        case Some(js) => r := js;
        case None => r := [];
      }
    }

    /** `log` as written: the local name `redis` is rebound to the package
        by `import redis.asyncio`, the client type check always fails, and
        the RuntimeError is swallowed before anything is pushed. */
    method LogAsWritten(queue: JobQueue, agent: string, message: string, timestamp: string, epoch: real)
      requires queue.asyncRedis == null || queue.asyncRedis == queue.server
      modifies queue
      ensures queue.asyncRedis == queue.server
      ensures queue.server.lists == old(queue.server.lists) && queue.server.expiry == old(queue.server.expiry)
    {
      if queue.asyncRedis == null {
        queue.ConnectAsync();
      }
      var boundToClient := false;
      if !boundToClient {
        return;
      }
    }

    /** `get_logs` as written: the same failed type check, so every read
        returns the empty list. */
    method GetLogsAsWritten(queue: JobQueue, start: int) returns (r: seq<Json>)
      requires queue.asyncRedis == null || queue.asyncRedis == queue.server
      modifies queue
      ensures queue.asyncRedis == queue.server
      ensures r == []
    {
      if queue.asyncRedis == null {
        queue.ConnectAsync();
      }
      var boundToClient := false;
      if !boundToClient {
        return [];
      }
      r := [];
    }
  }

  /** `get_scan_logs`: every log entry of the scan, from the start. */
  method GetScanLogs(queue: JobQueue, scanId: string, parse: string -> Option<Json>) returns (r: seq<Json>)
    requires queue.asyncRedis == null || queue.asyncRedis == queue.server
    modifies queue
    ensures queue.asyncRedis == queue.server
    ensures queue.server.up ==> r == ReadLogs(queue.server.lists, LogKey(scanId), 0, parse)
    ensures !queue.server.up ==> r == []
  {
    var logger := new AgentLogger(scanId, DefaultTtl);
    r := logger.GetLogs(queue, 0, parse);
  }
}
