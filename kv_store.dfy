// The Redis server the services share, as the state its commands read and
// write: string keys, list keys and the keys' expiry. A server that cannot
// be reached fails every command and changes nothing.

module KeyValue {
  import opened Common

  /** A stored string: raw text, or the `json.dumps` text of a JSON value
      (kept as the value it encodes, so `json.loads` gives it back). */
  datatype Value = Raw(text: string) | Dumped(json: Json)

  /** Python truthiness of the stored string; a JSON text is never empty. */
  predicate NonEmpty(v: Value) {
    v.Dumped? || v.text != ""
  }

  /** `json.loads` of a stored string; `parse` decodes raw text. */
  function Loads(v: Value, parse: string -> Option<Json>): (r: Option<Json>)
    ensures v.Dumped? ==> r == Some(v.json)
  {
    match v
    case Dumped(j) => Some(j)
    case Raw(s) => parse(s)
  }

  function Lookup(strings: map<string, Value>, key: string): (r: Option<Value>)
    ensures r.Some? <==> key in strings
    ensures r.Some? ==> r.value == strings[key]
  {
    if key in strings then Some(strings[key]) else None
  }

  /** `LRANGE key start -1`: a negative start counts from the end. */
  function ListFrom<T>(xs: seq<T>, start: int): (r: seq<T>)
    ensures 0 <= start ==> r == if start < |xs| then xs[start..] else []
    ensures start < 0 ==> r == if -start < |xs| then xs[|xs| + start..] else xs
  {
    if start < 0 then (if -start < |xs| then xs[|xs| + start..] else xs)
    else if start < |xs| then xs[start..] else []
  }

  const NoExpiry: int := -1
  const NoKey: int := -2

  /** What every command raises when the server cannot be reached. */
  const Unavailable: Error := ConnectionError("Redis unavailable")

  class Redis {
    var strings: map<string, Value>
    var lists: map<string, seq<Value>>
    var expiry: map<string, nat>
    var up: bool

    constructor (up: bool)
      ensures strings == map[] && lists == map[] && expiry == map[] && this.up == up
    {
      strings := map[];
      lists := map[];
      expiry := map[];
      this.up := up;
    }

    /** `GET key` */
    method Get(key: string) returns (r: Result<Option<Value>>)
      ensures up ==> r == Ok(Lookup(strings, key))
      ensures !up ==> r == Err(Unavailable)
    {
      if !up {
        return Err(Unavailable);
      }
      r := Ok(Lookup(strings, key));
    }

    /** `SET key value EX ttl` (also `SETEX`) */
    method Set(key: string, value: Value, ttl: nat) returns (r: Result<()>)
      modifies this
      ensures up == old(up) && lists == old(lists)
      ensures old(up) ==> r.Ok? && strings == old(strings)[key := value] && expiry == old(expiry)[key := ttl]
      ensures !old(up) ==> r.Err? && r.error.ConnectionError? && strings == old(strings) && expiry == old(expiry)
    {
      if !up {
        return Err(ConnectionError("Redis unavailable"));
      }
      strings := strings[key := value];
      expiry := expiry[key := ttl];
      r := Ok(());
    }

    /** `RPUSH key value`: the new length of the list. */
    method RPush(key: string, value: Value) returns (r: Result<nat>)
      modifies this
      ensures up == old(up) && strings == old(strings) && expiry == old(expiry)
      ensures old(up) ==> && lists == old(lists)[key := (if key in old(lists) then old(lists)[key] else []) + [value]]
                          && r == Ok(|lists[key]|)
      ensures !old(up) ==> r.Err? && r.error.ConnectionError? && lists == old(lists)
    {
      if !up {
        return Err(ConnectionError("Redis unavailable"));
      }
      var before := if key in lists then lists[key] else [];
      lists := lists[key := before + [value]];
      r := Ok(|before| + 1);
    }

    /** `TTL key`: the remaining seconds, -1 without expiry, -2 for no key. */
    method Ttl(key: string) returns (r: Result<int>)
      ensures up ==> r == Ok(if key !in strings && key !in lists then NoKey
                             else if key in expiry then expiry[key] else NoExpiry)
      ensures !up ==> r.Err? && r.error.ConnectionError?
    {
      if !up {
        return Err(ConnectionError("Redis unavailable"));
      }
      r := Ok(if key !in strings && key !in lists then NoKey else if key in expiry then expiry[key] else NoExpiry);
    }

    /** `EXPIRE key seconds`: false when there is no such key. */
    method Expire(key: string, seconds: nat) returns (r: Result<bool>)
      modifies this
      ensures up == old(up) && strings == old(strings) && lists == old(lists)
      ensures old(up) ==> r == Ok(key in strings || key in lists)
      ensures old(up) && (key in strings || key in lists) ==> expiry == old(expiry)[key := seconds]
      ensures !(old(up) && (key in strings || key in lists)) ==> expiry == old(expiry)
      ensures !old(up) ==> r.Err? && r.error.ConnectionError?
    {
      if !up {
        return Err(ConnectionError("Redis unavailable"));
      }
      var present := key in strings || key in lists;
      if present {
        expiry := expiry[key := seconds];
      }
      r := Ok(present);
    }

    /** `LRANGE key start -1` */
    method LRange(key: string, start: int) returns (r: Result<seq<Value>>)
      ensures up ==> r == Ok(ListFrom(if key in lists then lists[key] else [], start))
      ensures !up ==> r.Err? && r.error.ConnectionError?
    {
      if !up {
        return Err(ConnectionError("Redis unavailable"));
      }
      r := Ok(ListFrom(if key in lists then lists[key] else [], start));
    }
  }
}
