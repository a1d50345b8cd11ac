// Shared vocabulary of the model: optional values, the exceptions the
// services raise, and the handful of Python string operations the services
// rely on (`split`, `join`, `in`, `strip`, `lower`, `startswith`,
// `endswith`, the regex class `\w`).
//
// Character classes are modelled over ASCII: `IsSpace` is the ASCII part of
// Python's `str.isspace`, `IsWordChar` is `[A-Za-z0-9_]` and `Lower` folds
// only `A`-`Z`.

module Common {

  datatype Option<T> = None | Some(value: T)

  /** The exceptions the services raise, by kind. */
  datatype Error =
    | ValueError(message: string)
    | NotImplementedError(message: string)
    | FileNotFoundError(message: string)
    | RuntimeError(message: string)
    | LlmProviderError(message: string)
    | EmbeddingProviderError(message: string)
    | ServiceError(message: string)
    | ConnectionError(message: string)
    | InterfaceError(message: string)
    | TypeError(message: string)
    | KeyError(message: string)
    | AttributeError(message: string)
    | DataError(message: string)
    | GitHubAuthError(message: string)
    | ZeroDivisionError
    | HttpError(status: int, detail: string)

  /** `str(e)`; an HTTPException reads as its status code and detail. */
  function ErrorText(e: Error): string {
    match e
    case ZeroDivisionError => "division by zero"
    case HttpError(status, detail) => IntToString(status) + ": " + detail
    case _ => e.message
  }

  datatype Result<T> = Ok(value: T) | Err(error: Error)

  /** An embedding vector. */
  type Vector = seq<real>

  /** A JSON value, as `json.loads` returns it and as rows hold it. */
  datatype Json =
    | JNull
    | JBool(b: bool)
    | JNum(n: real)
    | JStr(s: string)
    | JList(items: seq<Json>)
    | JObject(fields: map<string, Json>)

  /** Python truthiness of a JSON value. */
  predicate Truthy(j: Json) {
    match j
    case JNull => false
    case JBool(b) => b
    case JNum(n) => n != 0.0
    case JStr(s) => s != []
    case JList(items) => items != []
    case JObject(fields) => fields != map[]
  }

  /** `d.get(key, default)` on a JSON object's fields. */
  function Get(fields: map<string, Json>, key: string, default: Json): (r: Json)
    ensures key in fields ==> r == fields[key]
    ensures key !in fields ==> r == default
  {
    if key in fields then fields[key] else default
  }

  // ---------------------------------------------------------------- retry

  /** The first successful attempt among the first `limit`, or the last
      attempt's failure: a call retried up to `limit` times that re-raises
      the final exception. */
  function Retry<T>(attempt: nat -> Result<T>, limit: nat, k: nat): Result<T>
    requires 0 < limit && k < limit
    decreases limit - k
  {
    if attempt(k).Ok? || k == limit - 1 then attempt(k) else Retry(attempt, limit, k + 1)
  }

  /** The retries succeed exactly when some attempt does, with the first
      success; when all fail, the last attempt's failure is the answer. */
  lemma {:induction false} RetryMeaning<T>(attempt: nat -> Result<T>, limit: nat, k: nat)
    requires 0 < limit && k < limit
    ensures var r := Retry(attempt, limit, k);
      && (r.Ok? <==> exists j :: k <= j < limit && attempt(j).Ok?)
      && (r.Ok? ==> exists j :: k <= j < limit && attempt(j) == r && forall i :: k <= i < j ==> attempt(i).Err?)
      && (r.Err? ==> r == attempt(limit - 1))
    decreases limit - k
  {
    if !(attempt(k).Ok? || k == limit - 1) {
      RetryMeaning(attempt, limit, k + 1);
      var r := Retry(attempt, limit, k);
      assert r == Retry(attempt, limit, k + 1);
      if r.Ok? {
        var j :| k + 1 <= j < limit && attempt(j) == r && forall i :: k + 1 <= i < j ==> attempt(i).Err?;
        assert forall i :: k <= i < j ==> attempt(i).Err?;
      }
    }
  }

  /** One unfolding of `Retry`. */
  lemma RetryUnfold<T>(attempt: nat -> Result<T>, limit: nat, k: nat)
    requires 0 < limit && k < limit
    ensures Retry(attempt, limit, k) == if attempt(k).Ok? || k == limit - 1 then attempt(k) else Retry(attempt, limit, k + 1)
  {
  }

  /** The retry loop: at most `limit` attempts, stopping at the first success. */
  method RetryLoop<T>(attempt: nat -> Result<T>, limit: nat) returns (r: Result<T>, attempts: nat)
    requires limit > 0
    ensures r == Retry(attempt, limit, 0)
    ensures 1 <= attempts <= limit
    ensures r.Ok? ==> r == attempt(attempts - 1)
  {
    attempts := 1;
    r := attempt(0);
    while r.Err? && attempts < limit
      invariant 1 <= attempts <= limit
      invariant r == attempt(attempts - 1)
      invariant Retry(attempt, limit, 0) == (if r.Ok? || attempts == limit then r else Retry(attempt, limit, attempts))
    {
      r := attempt(attempts);
      attempts := attempts + 1;
    }
  }

  // ----------------------------------------------------------------- filter-map

  /** A loop over `xs` that appends `f(x)` whenever it gives a value. */
  function FilterMap<A, B>(xs: seq<A>, f: A -> Option<B>): seq<B>
  {
    if xs == [] then []
    else match f(xs[|xs| - 1])
      case Some(y) => FilterMap(xs[..|xs| - 1], f) + [y]
      case None => FilterMap(xs[..|xs| - 1], f)
  }

  /** The element a kept value comes from. */
  lemma {:induction false} FilterMapSource<A, B>(xs: seq<A>, f: A -> Option<B>, y: B) returns (k: nat)
    requires y in FilterMap(xs, f)
    ensures k < |xs| && f(xs[k]) == Some(y)
  {
    var init := xs[..|xs| - 1];
    if f(xs[|xs| - 1]) == Some(y) {
      k := |xs| - 1;
    } else {
      assert y in FilterMap(init, f);
      k := FilterMapSource(init, f, y);
      assert xs[k] == init[k];
    }
  }

  /** The values kept are exactly those some element gives, and there are
      never more of them than elements. */
  lemma {:induction false} FilterMapMembers<A, B>(xs: seq<A>, f: A -> Option<B>)
    ensures |FilterMap(xs, f)| <= |xs|
    ensures forall y :: y in FilterMap(xs, f) <==> exists k :: 0 <= k < |xs| && f(xs[k]) == Some(y)
  {
    if xs != [] {
      var init := xs[..|xs| - 1];
      FilterMapMembers(init, f);
      forall y | y in FilterMap(xs, f)
        ensures exists k :: 0 <= k < |xs| && f(xs[k]) == Some(y)
      {
        var k := FilterMapSource(xs, f, y);
      }
      forall y, k | 0 <= k < |xs| && f(xs[k]) == Some(y)
        ensures y in FilterMap(xs, f)
      {
        if k < |init| {
          assert init[k] == xs[k];
        }
      }
    }
  }

  /** One more iteration of the loop. */
  lemma FilterMapNext<A, B>(xs: seq<A>, i: nat, f: A -> Option<B>)
    requires i < |xs|
    ensures FilterMap(xs[..i + 1], f) == FilterMap(xs[..i], f) + (if f(xs[i]).Some? then [f(xs[i]).value] else [])
  {
    assert xs[..i + 1][..i] == xs[..i];
  }

  // ----------------------------------------------------------------- fold

  /** A loop over `xs` that threads an accumulator through `step` and
      re-raises the first failure. */
  function Fold<A, B>(xs: seq<A>, init: B, step: (B, A) -> Result<B>): Result<B>
    decreases |xs|
  {
    if xs == [] then Ok(init)
    else
      match Fold(xs[..|xs| - 1], init, step)
      case Err(e) => Err(e)
      case Ok(acc) => step(acc, xs[|xs| - 1])
  }

  /** One more iteration of a loop that has not failed yet. */
  lemma FoldNext<A, B>(xs: seq<A>, i: nat, init: B, step: (B, A) -> Result<B>)
    requires i < |xs| && Fold(xs[..i], init, step).Ok?
    ensures Fold(xs[..i + 1], init, step) == step(Fold(xs[..i], init, step).value, xs[i])
  {
    assert xs[..i + 1][..i] == xs[..i];
  }

  /** A failure among the first `n` iterations ends the loop. */
  lemma {:induction false} FoldStop<A, B>(xs: seq<A>, n: nat, init: B, step: (B, A) -> Result<B>)
    requires n <= |xs| && Fold(xs[..n], init, step).Err?
    ensures Fold(xs, init, step) == Fold(xs[..n], init, step)
    decreases |xs| - n
  {
    if n < |xs| {
      assert xs[..n + 1][..n] == xs[..n];
      FoldStop(xs, n + 1, init, step);
    } else {
      assert xs[..n] == xs;
    }
  }

  // --------------------------------------------------------------- numbers

  function DigitChar(d: nat): (c: char)
    requires d < 10
    ensures IsDigit(c) && c as int == '0' as int + d
  {
    ('0' as int + d) as char
  }

  /** `str(n)` for a natural number. */
  function NatToString(n: nat): (s: string)
    ensures |s| > 0 && forall i :: 0 <= i < |s| ==> IsDigit(s[i])
  {
    if n < 10 then [DigitChar(n)] else NatToString(n / 10) + [DigitChar(n % 10)]
  }

  lemma NatToStringLength(n: nat)
    ensures |NatToString(n)| == 1 <==> n < 10
  {
    if n >= 10 {
      assert |NatToString(n / 10)| > 0;
    }
  }

  /** Different numbers print differently. */
  lemma {:induction false} NatToStringInjective(a: nat, b: nat)
    requires NatToString(a) == NatToString(b)
    ensures a == b
  {
    NatToStringLength(a);
    NatToStringLength(b);
    if a >= 10 {
      var s := NatToString(a);
      assert s == NatToString(a / 10) + [DigitChar(a % 10)];
      assert s == NatToString(b / 10) + [DigitChar(b % 10)];
      assert s[|s| - 1] == DigitChar(a % 10) == DigitChar(b % 10);
      assert s[..|s| - 1] == NatToString(a / 10) == NatToString(b / 10);
      NatToStringInjective(a / 10, b / 10);
    }
  }

  /** `str(n)` for an integer. */
  function IntToString(n: int): (s: string)
    ensures |s| > 0
  {
    if n < 0 then "-" + NatToString(-n) else NatToString(n)
  }

  // ---------------------------------------------------------------- chars

  predicate IsSpace(c: char) {
    c == ' ' || c == '\t' || c == '\n' || c == '\r' || c == '\U{B}' || c == '\U{C}'
    || ('\U{1C}' <= c <= '\U{1F}')
  }

  predicate IsWordChar(c: char) {
    ('a' <= c <= 'z') || ('A' <= c <= 'Z') || ('0' <= c <= '9') || c == '_'
  }

  predicate IsUpper(c: char) {
    'A' <= c <= 'Z'
  }

  predicate IsDigit(c: char) {
    '0' <= c <= '9'
  }

  function LowerChar(c: char): (r: char)
    ensures !IsUpper(r)
    ensures !IsUpper(c) ==> r == c
  {
    if IsUpper(c) then (c as int - 'A' as int + 'a' as int) as char else c
  }

  function UpperChar(c: char): (r: char)
    ensures 'a' <= c <= 'z' ==> IsUpper(r)
    ensures !('a' <= c <= 'z') ==> r == c
  {
    if 'a' <= c <= 'z' then (c as int - 'a' as int + 'A' as int) as char else c
  }

  /** `s.lower()` */
  function Lower(s: string): (r: string)
    ensures |r| == |s|
    ensures forall i :: 0 <= i < |s| ==> r[i] == LowerChar(s[i])
  {
    if s == [] then [] else [LowerChar(s[0])] + Lower(s[1..])
  }

  /** `s.upper()` */
  function Upper(s: string): (r: string)
    ensures |r| == |s|
    ensures forall i :: 0 <= i < |s| ==> r[i] == UpperChar(s[i])
  {
    if s == [] then [] else [UpperChar(s[0])] + Upper(s[1..])
  }

  // ------------------------------------------------------------ substrings

  predicate OccursAt(s: string, sub: string, k: int) {
    0 <= k && k + |sub| <= |s| && s[k..k + |sub|] == sub
  }

  /** Leftmost occurrence of `sub` in `s` at or after `from`. */
  function FindFrom(s: string, sub: string, from: nat): (r: Option<nat>)
    ensures r.Some? ==> from <= r.value && OccursAt(s, sub, r.value)
    ensures forall k :: from <= k && (r.None? || k < r.value) ==> !OccursAt(s, sub, k)
    decreases |s| - from
  {
    if from + |sub| > |s| then None
    else if s[from..from + |sub|] == sub then Some(from)
    else FindFrom(s, sub, from + 1)
  }

  /** `sub in s` */
  predicate Contains(s: string, sub: string) {
    FindFrom(s, sub, 0).Some?
  }

  lemma ContainsIff(s: string, sub: string)
    ensures Contains(s, sub) <==> exists k :: OccursAt(s, sub, k)
  {
  }

  /** An occurrence inside a slice of `s` is an occurrence in `s`. */
  lemma OccursInSlice(s: string, sub: string, lo: nat, hi: nat, k: nat)
    requires lo <= hi <= |s| && OccursAt(s[lo..hi], sub, k)
    ensures OccursAt(s, sub, lo + k)
  {
    forall i | 0 <= i < |sub|
      ensures s[lo + k..lo + k + |sub|][i] == sub[i]
    {
      assert s[lo..hi][k..k + |sub|][i] == sub[i];
    }
  }

  /** A slice of a text without `sub` has none either. */
  lemma SliceKeepsAbsent(s: string, sub: string, lo: nat, hi: nat)
    requires lo <= hi <= |s| && !Contains(s, sub)
    ensures !Contains(s[lo..hi], sub)
  {
    if Contains(s[lo..hi], sub) {
      OccursInSlice(s, sub, lo, hi, FindFrom(s[lo..hi], sub, 0).value);
    }
  }

  lemma AppendAssoc<T>(a: seq<T>, b: seq<T>, c: seq<T>)
    ensures a + b + c == a + (b + c)
  {
  }

  /** An occurrence inside a piece of `s` found at `lo` is an occurrence in `s`. */
  lemma OccursInPiece(s: string, sub: string, lo: nat, piece: string, k: nat)
    requires lo + |piece| <= |s| && s[lo..lo + |piece|] == piece && OccursAt(piece, sub, k)
    ensures OccursAt(s, sub, lo + k)
  {
    OccursInSlice(s, sub, lo, lo + |piece|, k);
  }

  predicate StartsWith(s: string, prefix: string) {
    |prefix| <= |s| && s[..|prefix|] == prefix
  }

  predicate EndsWith(s: string, suffix: string) {
    |suffix| <= |s| && s[|s| - |suffix|..] == suffix
  }

  /** `s[:n]` for a non-negative `n` */
  function Take(s: string, n: nat): (r: string)
    ensures |r| == if n < |s| then n else |s|
    ensures r == s[..|r|]
  {
    if n < |s| then s[..n] else s
  }

  // ------------------------------------------------------- split and join

  /** `s.split(sep)` for a non-empty separator. */
  function Split(s: string, sep: string): (parts: seq<string>)
    requires |sep| > 0
    ensures |parts| >= 1
    decreases |s|
  {
    match FindFrom(s, sep, 0)
    case None => [s]
    case Some(k) => [s[..k]] + Split(s[k + |sep|..], sep)
  }

  /** `sep.join(parts)` */
  function Join(parts: seq<string>, sep: string): string
  {
    if |parts| == 0 then []
    else if |parts| == 1 then parts[0]
    else parts[0] + sep + Join(parts[1..], sep)
  }

  lemma JoinCons(head: string, tail: seq<string>, sep: string)
    requires |tail| >= 1
    ensures Join([head] + tail, sep) == head + sep + Join(tail, sep)
  {
    assert ([head] + tail)[1..] == tail;
  }

  /** Joining a concatenation puts one separator between the two joins. */
  lemma {:induction false} JoinAppend(a: seq<string>, b: seq<string>, sep: string)
    requires |a| > 0 && |b| > 0
    ensures Join(a + b, sep) == Join(a, sep) + sep + Join(b, sep)
  {
    if |a| == 1 {
      JoinCons(a[0], b, sep);
      assert a + b == [a[0]] + b;
    } else {
      JoinAppend(a[1..], b, sep);
      assert (a + b)[1..] == a[1..] + b;
      assert (a + b)[0] == a[0];
    }
  }

  /** The concatenation of a sequence of sequences. */
  function Concat<T>(ss: seq<seq<T>>): (r: seq<T>)
  {
    if ss == [] then [] else ss[0] + Concat(ss[1..])
  }

  lemma {:induction false} ConcatAppend<T>(a: seq<seq<T>>, b: seq<seq<T>>)
    ensures Concat(a + b) == Concat(a) + Concat(b)
  {
    if a != [] {
      ConcatAppend(a[1..], b);
      assert (a + b)[1..] == a[1..] + b;
    } else {
      assert a + b == b;
    }
  }

  /** Each group joined with `sep`. */
  function JoinEach(groups: seq<seq<string>>, sep: string): (r: seq<string>)
    ensures |r| == |groups|
  {
    if groups == [] then [] else [Join(groups[0], sep)] + JoinEach(groups[1..], sep)
  }

  lemma {:induction false} JoinEachIndexed(groups: seq<seq<string>>, sep: string)
    ensures forall k :: 0 <= k < |groups| ==> JoinEach(groups, sep)[k] == Join(groups[k], sep)
  {
    if groups != [] {
      JoinEachIndexed(groups[1..], sep);
    }
  }

  /** Joining the joined groups with the same separator joins their concatenation. */
  lemma {:induction false} JoinConcat(groups: seq<seq<string>>, sep: string)
    requires forall k :: 0 <= k < |groups| ==> |groups[k]| > 0
    ensures Join(JoinEach(groups, sep), sep) == Join(Concat(groups), sep)
  {
    if |groups| == 1 {
      assert Concat(groups) == groups[0] + Concat(groups[1..]);
      assert Concat(groups) == groups[0];
      assert JoinEach(groups, sep) == [Join(groups[0], sep)];
    } else if |groups| > 1 {
      var rest := groups[1..];
      JoinConcat(rest, sep);
      assert JoinEach(groups, sep) == [Join(groups[0], sep)] + JoinEach(rest, sep);
      JoinCons(Join(groups[0], sep), JoinEach(rest, sep), sep);
      ConcatNonEmpty(rest);
      JoinAppend(groups[0], Concat(rest), sep);
    }
  }

  lemma ConcatNonEmpty(groups: seq<seq<string>>)
    requires |groups| > 0 && |groups[0]| > 0
    ensures |Concat(groups)| > 0
  {
  }

  /** Joining the pieces of a split gives back the original text. */
  lemma {:induction false} JoinSplit(s: string, sep: string)
    requires |sep| > 0
    ensures Join(Split(s, sep), sep) == s
    decreases |s|
  {
    match FindFrom(s, sep, 0)
    case None =>
    case Some(k) =>
      var rest := s[k + |sep|..];
      assert Split(s, sep) == [s[..k]] + Split(rest, sep);
      JoinSplit(rest, sep);
      JoinCons(s[..k], Split(rest, sep), sep);
      Reassembled(s, k, |sep|);
  }

  /** A text is its part before `k`, the `n` characters from `k`, and the rest. */
  lemma Reassembled(s: string, k: nat, n: nat)
    requires k + n <= |s|
    ensures s == s[..k] + s[k..k + n] + s[k + n..]
  {
  }

  /** No piece of a split contains the separator. */
  lemma {:induction false} SplitPiecesFree(s: string, sep: string)
    requires |sep| > 0
    ensures forall p :: p in Split(s, sep) ==> !Contains(p, sep)
    decreases |s|
  {
    match FindFrom(s, sep, 0)
    case None =>
    case Some(k) =>
      var rest := s[k + |sep|..];
      SplitPiecesFree(rest, sep);
      if Contains(s[..k], sep) {
        var j := FindFrom(s[..k], sep, 0).value;
        OccursInSlice(s, sep, 0, k, j);
        assert false;
      }
      assert Split(s, sep) == [s[..k]] + Split(rest, sep);
  }

  /** A text without the separator splits into itself alone. */
  lemma SplitWithout(s: string, sep: string)
    requires |sep| > 0 && !Contains(s, sep)
    ensures Split(s, sep) == [s]
  {
  }

  /** Splitting a join on a one-character separator that no piece contains
      gives back the pieces. */
  lemma {:induction false} SplitJoin(parts: seq<string>, sep: string)
    requires |sep| == 1 && |parts| >= 1
    requires forall p :: p in parts ==> !Contains(p, sep)
    ensures Split(Join(parts, sep), sep) == parts
  {
    assert parts[0] in parts;
    if |parts| == 1 {
      SplitWithout(parts[0], sep);
    } else {
      var head := parts[0];
      var tail := parts[1..];
      JoinCons(head, tail, sep);
      assert parts == [head] + tail;
      var rest := Join(tail, sep);
      FirstSeparator(head, sep, rest);
      var s := head + sep + rest;
      assert s[..|head|] == head && s[|head| + |sep|..] == rest;
      assert Split(s, sep) == [head] + Split(rest, sep);
      forall p | p in tail
        ensures !Contains(p, sep)
      {
        assert p in parts;
      }
      SplitJoin(tail, sep);
    }
  }

  /** The leftmost occurrence of a one-character separator after a piece
      without it is the one that follows the piece. */
  lemma FirstSeparator(head: string, sep: string, rest: string)
    requires |sep| == 1 && !Contains(head, sep)
    ensures FindFrom(head + sep + rest, sep, 0) == Some(|head|)
  {
    var s := head + sep + rest;
    forall k | 0 <= k < |head|
      ensures !OccursAt(s, sep, k)
    {
      assert !OccursAt(head, sep, k);
      assert s[k..k + 1] == head[k..k + 1];
    }
    assert s[|head|..|head| + 1] == sep;
    assert OccursAt(s, sep, |head|);
  }

  /** A character of a text is an occurrence of that one-character text. */
  lemma CharOccurs(s: string, k: nat)
    requires k < |s|
    ensures OccursAt(s, [s[k]], k)
  {
  }

  /** Two newlines in a row in `head + "\n" + tail` must come from `head`,
      from the start of `tail`, or from inside `tail`. */
  lemma NoDoubleNewlineAcross(head: string, tail: string)
    requires !Contains(head, "\n")
    requires |tail| > 0 && tail[0] != '\n'
    requires !Contains(tail, "\n\n")
    ensures !Contains(head + "\n" + tail, "\n\n")
  {
    var whole := head + "\n" + tail;
    if Contains(whole, "\n\n") {
      var k := FindFrom(whole, "\n\n", 0).value;
      assert whole[k] == whole[k..k + 2][0] == '\n';
      assert whole[k + 1] == whole[k..k + 2][1] == '\n';
      if k < |head| {
        assert head[k] == '\n';
        CharOccurs(head, k);
      } else if k > |head| {
        var t := k - |head| - 1;
        assert tail[t..t + 2] == whole[k..k + 2];
        assert OccursAt(tail, "\n\n", t);
      }
    }
  }

  /** Joining non-empty, newline-free pieces with "\n" never produces two
      newlines in a row. */
  lemma {:induction false} JoinNoDoubleNewline(parts: seq<string>)
    requires forall p :: p in parts ==> |p| > 0 && !Contains(p, "\n")
    ensures !Contains(Join(parts, "\n"), "\n\n")
  {
    if |parts| == 1 {
      var p := parts[0];
      if Contains(p, "\n\n") {
        var k := FindFrom(p, "\n\n", 0).value;
        assert p[k] == p[k..k + 2][0] == '\n';
        CharOccurs(p, k);
      }
    } else if |parts| > 1 {
      JoinNoDoubleNewline(parts[1..]);
      assert parts[1] in parts;
      TailStartsWithPiece(parts[1..]);
      if parts[1][0] == '\n' {
        CharOccurs(parts[1], 0);
      }
      NoDoubleNewlineAcross(parts[0], Join(parts[1..], "\n"));
    }
  }

  lemma TailStartsWithPiece(parts: seq<string>)
    requires |parts| > 0 && |parts[0]| > 0
    ensures |Join(parts, "\n")| > 0 && Join(parts, "\n")[0] == parts[0][0]
  {
  }

  // --------------------------------------------------------------- strip

  /** `len(s) - len(s.lstrip())`: the number of leading whitespace characters. */
  function LeadingSpace(s: string): (n: nat)
    ensures n <= |s|
    ensures forall i :: 0 <= i < n ==> IsSpace(s[i])
    ensures n < |s| ==> !IsSpace(s[n])
  {
    if s == [] || !IsSpace(s[0]) then 0 else 1 + LeadingSpace(s[1..])
  }

  /** The number of trailing whitespace characters. */
  function TrailingSpace(s: string): (n: nat)
    ensures n <= |s|
    ensures forall i :: |s| - n <= i < |s| ==> IsSpace(s[i])
    ensures n < |s| ==> !IsSpace(s[|s| - n - 1])
  {
    if s == [] || !IsSpace(s[|s| - 1]) then 0 else 1 + TrailingSpace(s[..|s| - 1])
  }

  /** `s.lstrip()` */
  function LStrip(s: string): string
  {
    s[LeadingSpace(s)..]
  }

  /** `s.strip()` */
  function Strip(s: string): (r: string)
    ensures |r| <= |s|
    ensures r != [] ==> !IsSpace(r[0]) && !IsSpace(r[|r| - 1])
    ensures (forall i :: 0 <= i < |s| ==> IsSpace(s[i])) <==> r == []
  {
    var t := LStrip(s);
    t[..|t| - TrailingSpace(t)]
  }

  // -------------------------------------------------------- word tokens

  /** The length of the run of word characters at the start of `s`. */
  function WordRun(s: string): (n: nat)
    ensures n <= |s|
    ensures forall i :: 0 <= i < n ==> IsWordChar(s[i])
    ensures n < |s| ==> !IsWordChar(s[n])
  {
    if s == [] || !IsWordChar(s[0]) then 0 else 1 + WordRun(s[1..])
  }

  /** `re.findall(r"\b\w+\b", s)`: the maximal runs of word characters, in order. */
  function Words(s: string): (ws: seq<string>)
    ensures forall w :: w in ws ==> |w| > 0 && forall i :: 0 <= i < |w| ==> IsWordChar(w[i])
    decreases |s|
  {
    if s == [] then []
    else if !IsWordChar(s[0]) then Words(s[1..])
    else
      var n := WordRun(s);
      [s[..n]] + Words(s[n..])
  }
}
