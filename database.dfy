// The tables the services read and write, each a map from its key to its
// rows inside a class whose methods mirror the SQL statements: upserts on a
// conflict key, plain inserts, and updates by key that change nothing for
// an unknown key. Generated ids are drawn from a counter; `NOW()` is the
// `now` argument.

module Database {
  import opened Common
  import opened Ordering

  // ---------------------------------------------------------------- upsert

  /** `INSERT … ON CONFLICT (key) DO UPDATE`: a new key takes the row, an
      existing one is `refresh`ed with it. */
  function Upsert<R>(rows: map<string, R>, key: string, row: R, refresh: (R, R) -> R): (r: map<string, R>)
    ensures r.Keys == rows.Keys + {key}
  {
    rows[key := if key in rows then refresh(rows[key], row) else row]
  }

  /** The statement executed for each item in turn (`executemany`). */
  function UpsertAll<R>(rows: map<string, R>, items: seq<R>, keyOf: R -> string, refresh: (R, R) -> R): map<string, R>
  {
    if items == [] then rows
    else Upsert(UpsertAll(rows, items[..|items| - 1], keyOf, refresh), keyOf(items[|items| - 1]), items[|items| - 1], refresh)
  }

  /** The keys afterwards: the old ones and those of the items. */
  lemma {:induction false} UpsertAllKeys<R>(rows: map<string, R>, items: seq<R>, keyOf: R -> string, refresh: (R, R) -> R)
    ensures forall key :: key in UpsertAll(rows, items, keyOf, refresh) <==>
      (key in rows || exists i :: 0 <= i < |items| && keyOf(items[i]) == key)
  {
    if items != [] {
      UpsertAllKeys(rows, items[..|items| - 1], keyOf, refresh);
      assert forall i :: 0 <= i < |items| - 1 ==> items[..|items| - 1][i] == items[i];
    }
  }

  /** A refresh that keeps the `kept` part of a row keeps it for every row
      that existed before, whatever the items. */
  lemma {:induction false} UpsertAllKeeps<R, P>(rows: map<string, R>, items: seq<R>, keyOf: R -> string, refresh: (R, R) -> R,
                                                kept: R -> P, key: string)
    requires forall a, b :: kept(refresh(a, b)) == kept(a)
    requires key in rows
    ensures key in UpsertAll(rows, items, keyOf, refresh) && kept(UpsertAll(rows, items, keyOf, refresh)[key]) == kept(rows[key])
  {
    if items != [] {
      UpsertAllKeeps(rows, items[..|items| - 1], keyOf, refresh, kept, key);
      var before := UpsertAll(rows, items[..|items| - 1], keyOf, refresh);
      var last := items[|items| - 1];
      assert UpsertAll(rows, items, keyOf, refresh) == Upsert(before, keyOf(last), last, refresh);
    }
  }

  /** When a refresh takes `part` from the new row, the row under a key holds
      the part of the last item with that key. */
  lemma {:induction false} UpsertAllLastWins<R, P>(rows: map<string, R>, items: seq<R>, keyOf: R -> string, refresh: (R, R) -> R,
                                                   part: R -> P, k: nat)
    requires forall a, b :: part(refresh(a, b)) == part(b)
    requires k < |items| && forall j :: k < j < |items| ==> keyOf(items[j]) != keyOf(items[k])
    ensures keyOf(items[k]) in UpsertAll(rows, items, keyOf, refresh)
    ensures part(UpsertAll(rows, items, keyOf, refresh)[keyOf(items[k])]) == part(items[k])
  {
    var before := UpsertAll(rows, items[..|items| - 1], keyOf, refresh);
    var last := items[|items| - 1];
    assert UpsertAll(rows, items, keyOf, refresh) == Upsert(before, keyOf(last), last, refresh);
    if k < |items| - 1 {
      assert items[..|items| - 1][k] == items[k];
      assert forall j :: k < j < |items| - 1 ==> items[..|items| - 1][j] == items[j];
      UpsertAllLastWins(rows, items[..|items| - 1], keyOf, refresh, part, k);
    }
  }

  // ---------------------------------------------------------------- code chunks

  datatype CodeChunkRow = CodeChunkRow(
    repoId: nat, filePath: string, language: string, startLine: int, endLine: int, chunkText: string,
    astNodeType: Option<string>, fileHash: string, chunkHash: string,
    embedding: Option<Vector>, nlSummary: Option<string>, metadata: Json)

  function CodeChunkHash(c: CodeChunkRow): string { c.chunkHash }

  /** `DO UPDATE SET embedding, nl_summary`: nothing else changes. */
  function RefreshCodeChunk(existing: CodeChunkRow, incoming: CodeChunkRow): CodeChunkRow {
    existing.(embedding := incoming.embedding, nlSummary := incoming.nlSummary)
  }

  /** Everything but the embedding and the summary. */
  function CodeContent(c: CodeChunkRow): CodeChunkRow {
    c.(embedding := None, nlSummary := None)
  }

  function CodeChunkDerived(c: CodeChunkRow): (Option<Vector>, Option<string>) {
    (c.embedding, c.nlSummary)
  }

  /** Re-inserting a stored chunk changes only its embedding and summary,
      and these come from the last chunk with its hash. */
  lemma CodeChunkUpsertKeepsContent(rows: map<string, CodeChunkRow>, chunks: seq<CodeChunkRow>, hash: string)
    requires hash in rows
    ensures hash in UpsertAll(rows, chunks, CodeChunkHash, RefreshCodeChunk)
    ensures CodeContent(UpsertAll(rows, chunks, CodeChunkHash, RefreshCodeChunk)[hash]) == CodeContent(rows[hash])
  {
    UpsertAllKeeps(rows, chunks, CodeChunkHash, RefreshCodeChunk, CodeContent, hash);
  }

  lemma CodeChunkUpsertLastWins(rows: map<string, CodeChunkRow>, chunks: seq<CodeChunkRow>, k: nat)
    requires k < |chunks| && forall j :: k < j < |chunks| ==> chunks[j].chunkHash != chunks[k].chunkHash
    ensures chunks[k].chunkHash in UpsertAll(rows, chunks, CodeChunkHash, RefreshCodeChunk)
    ensures UpsertAll(rows, chunks, CodeChunkHash, RefreshCodeChunk)[chunks[k].chunkHash].embedding == chunks[k].embedding
    ensures UpsertAll(rows, chunks, CodeChunkHash, RefreshCodeChunk)[chunks[k].chunkHash].nlSummary == chunks[k].nlSummary
  {
    UpsertAllLastWins(rows, chunks, CodeChunkHash, RefreshCodeChunk, CodeChunkDerived, k);
  }

  class CodeChunkTable {
    /** `code_chunks`, by its unique `chunk_hash`. */
    var rows: map<string, CodeChunkRow>

    constructor ()
      ensures rows == map[]
    {
      rows := map[];
    }

    /** `insert_batch`: one transaction upserting every chunk; the count of
        chunks given, inserted or updated. */
    method InsertBatch(chunks: seq<CodeChunkRow>) returns (n: nat)
      modifies this
      ensures rows == UpsertAll(old(rows), chunks, CodeChunkHash, RefreshCodeChunk)
      ensures n == |chunks|
    {
      var i := 0;
      while i < |chunks|
        invariant 0 <= i <= |chunks|
        invariant rows == UpsertAll(old(rows), chunks[..i], CodeChunkHash, RefreshCodeChunk)
      {
        assert chunks[..i + 1][..i] == chunks[..i];
        rows := Upsert(rows, chunks[i].chunkHash, chunks[i], RefreshCodeChunk);
        i := i + 1;
      }
      assert chunks[..|chunks|] == chunks;
      n := |chunks|;
    }

    /** `search_similar`: the rows of the repo (of every repo without one)
        nearest to the query, nearest first, at most `topK` of them;
        `distance` is pgvector's `<->` to the query embedding. */
    method SearchSimilar(distance: CodeChunkRow -> real, repoId: Option<nat>, topK: nat) returns (r: seq<CodeChunkRow>)
      ensures Nearest(r, RepoPool(rows, repoId), distance, topK)
    {
      r := TopBy(RepoPool(rows, repoId), distance, (c: CodeChunkRow) => 0, topK);
    }
  }

  /** The rows `search_similar` draws from: the repository's, or all. */
  function RepoPool(rows: map<string, CodeChunkRow>, repoId: Option<nat>): set<CodeChunkRow> {
    set h | h in rows && (repoId.None? || rows[h].repoId == repoId.value) :: rows[h]
  }

  /** `r` is what `search_similar` may answer from `pool`: `topK` rows (or
      all there are), each once, nearest first, none farther than a row
      left out. */
  ghost predicate Nearest(r: seq<CodeChunkRow>, pool: set<CodeChunkRow>, distance: CodeChunkRow -> real, topK: nat) {
    && |r| == Min(topK, |pool|)
    && Distinct(r) && (forall i :: 0 <= i < |r| ==> r[i] in pool)
    && SortedBy(r, distance, (c: CodeChunkRow) => 0)
    && (forall c, i :: c in pool && c !in r && 0 <= i < |r| ==> distance(r[i]) <= distance(c))
  }

  /** The `distance` column of a search row: `<->` is NULL for a row
      stored without an embedding. */
  function DistanceColumn(c: CodeChunkRow, distance: CodeChunkRow -> real): (d: Option<real>)
    ensures d.None? <==> c.embedding.None?
    ensures d.Some? ==> d.value == distance(c)
  {
    if c.embedding.Some? then Some(distance(c)) else None
  }

  // ---------------------------------------------------------------- regulation chunks

  datatype RegulationChunkRow = RegulationChunkRow(
    ruleId: string, ruleSection: Json, sourceDocument: Option<string>, chunkText: string, chunkIndex: int,
    chunkHash: string, embedding: Option<Vector>, nlSummary: Option<string>, metadata: Json)

  function RegulationChunkHash(c: RegulationChunkRow): string { c.chunkHash }

  function RefreshRegulationChunk(existing: RegulationChunkRow, incoming: RegulationChunkRow): RegulationChunkRow {
    existing.(embedding := incoming.embedding, nlSummary := incoming.nlSummary)
  }

  function RegulationContent(c: RegulationChunkRow): RegulationChunkRow {
    c.(embedding := None, nlSummary := None)
  }

  /** The same upsert rule as for code chunks. */
  lemma RegulationChunkUpsertKeepsContent(rows: map<string, RegulationChunkRow>, chunks: seq<RegulationChunkRow>, hash: string)
    requires hash in rows
    ensures hash in UpsertAll(rows, chunks, RegulationChunkHash, RefreshRegulationChunk)
    ensures RegulationContent(UpsertAll(rows, chunks, RegulationChunkHash, RefreshRegulationChunk)[hash]) == RegulationContent(rows[hash])
  {
    UpsertAllKeeps(rows, chunks, RegulationChunkHash, RefreshRegulationChunk, RegulationContent, hash);
  }

  function RuleIds(rows: map<string, RegulationChunkRow>): set<string> {
    set h | h in rows :: rows[h].ruleId
  }

  class RegulationChunkTable {
    var rows: map<string, RegulationChunkRow>

    constructor ()
      ensures rows == map[]
    {
      rows := map[];
    }

    /** `insert_batch` */
    method InsertBatch(chunks: seq<RegulationChunkRow>) returns (n: nat)
      modifies this
      ensures rows == UpsertAll(old(rows), chunks, RegulationChunkHash, RefreshRegulationChunk)
      ensures n == |chunks|
    {
      var i := 0;
      while i < |chunks|
        invariant 0 <= i <= |chunks|
        invariant rows == UpsertAll(old(rows), chunks[..i], RegulationChunkHash, RefreshRegulationChunk)
      {
        assert chunks[..i + 1][..i] == chunks[..i];
        rows := Upsert(rows, chunks[i].chunkHash, chunks[i], RefreshRegulationChunk);
        i := i + 1;
      }
      assert chunks[..|chunks|] == chunks;
      n := |chunks|;
    }

    /** `get_by_rule_id`: all the rule's chunks, by `chunk_index`. */
    method GetByRuleId(ruleId: string) returns (r: seq<RegulationChunkRow>)
      ensures var pool := set h | h in rows && rows[h].ruleId == ruleId :: rows[h];
        && Distinct(r) && (forall c :: c in pool <==> c in r)
        && forall i, j :: 0 <= i < j < |r| ==> r[i].chunkIndex <= r[j].chunkIndex
    {
      var pool := set h | h in rows && rows[h].ruleId == ruleId :: rows[h];
      var key := (c: RegulationChunkRow) => c.chunkIndex as real;
      var tie := (c: RegulationChunkRow) => 0;
      r := TopBy(pool, key, tie, |pool|);
      assert forall i, j :: 0 <= i < j < |r| ==> Before(key, tie, r[i], r[j]);
    }

    /** `list_all_rules`: every rule id once, in increasing order. */
    method ListAllRules() returns (r: seq<string>)
      ensures forall id :: id in RuleIds(rows) <==> id in r
      ensures forall i, j :: 0 <= i < j < |r| ==> StrLess(r[i], r[j])
    {
      r := SortedStrings(RuleIds(rows));
    }
  }

  // ---------------------------------------------------------------- policy rules

  /** A row of `policy_rules`, which the regulation preloader and the
      ingestion service both write; `rule_id` is the generated UUID. */
  datatype PolicyRuleRow = PolicyRuleRow(
    ruleId: string, ruleCode: string, documentId: Option<string>, spec: Json, category: seq<string>,
    severity: Option<string>, isActive: bool, version: int, supersededBy: Option<string>, validUntil: Option<nat>)

  // ---------------------------------------------------------------- scans

  datatype ScanRow = ScanRow(
    repoId: nat, scanType: string, status: string, initiator: Option<string>, commitSha: Option<string>,
    startedAt: nat, result: Option<Json>, error: Option<string>, completedAt: Option<nat>,
    totalViolations: nat, criticalViolations: nat, highViolations: nat, mediumViolations: nat, lowViolations: nat)

  /** Whether `update_status` stamps `completed_at`. */
  predicate Finished(status: string) {
    status == "completed" || status == "failed"
  }

  // ---------------------------------------------------------------- violations

  datatype ViolationRow = ViolationRow(
    violationId: nat, scanId: nat, ruleId: string, codeChunkId: string, regulationChunkId: Option<string>,
    verdict: string, severity: string, severityScore: real, explanation: string,
    evidence: Option<string>, remediation: Option<string>, filePath: string, startLine: int, endLine: int,
    metadata: Json, createdAt: nat, status: string, reviewerNote: Option<string>, reviewedAt: Option<nat>)

  /** The violations of a scan, optionally of one severity. */
  function OfScan(rows: map<nat, ViolationRow>, scanId: nat, severity: Option<string>): set<ViolationRow> {
    set id | id in rows && rows[id].scanId == scanId && (severity.None? || rows[id].severity == severity.value) :: rows[id]
  }

  /** The ids of a scan's violations, optionally of one severity. */
  function IdsOf(rows: map<nat, ViolationRow>, scanId: nat, severity: Option<string>): set<nat> {
    set id | id in rows && rows[id].scanId == scanId && (severity.None? || rows[id].severity == severity.value)
  }

  function CountOf(rows: map<nat, ViolationRow>, scanId: nat, severity: Option<string>): nat {
    |IdsOf(rows, scanId, severity)|
  }

  /** Violations of different severities are different violations. */
  lemma IdsDisjoint(rows: map<nat, ViolationRow>, scanId: nat, a: string, b: string)
    requires a != b
    ensures IdsOf(rows, scanId, Some(a)) * IdsOf(rows, scanId, Some(b)) == {}
  {
  }

  /** Each severity's violations are among the scan's, and the four
      severities are distinct, so their counts add up to at most the total. */
  lemma SeverityCountsBounded(rows: map<nat, ViolationRow>, scanId: nat)
    ensures CountOf(rows, scanId, Some("critical")) + CountOf(rows, scanId, Some("high"))
      + CountOf(rows, scanId, Some("medium")) + CountOf(rows, scanId, Some("low")) <= CountOf(rows, scanId, None)
  {
    var c := IdsOf(rows, scanId, Some("critical"));
    var h := IdsOf(rows, scanId, Some("high"));
    var m := IdsOf(rows, scanId, Some("medium"));
    var l := IdsOf(rows, scanId, Some("low"));
    IdsDisjoint(rows, scanId, "critical", "high");
    IdsDisjoint(rows, scanId, "critical", "medium");
    IdsDisjoint(rows, scanId, "critical", "low");
    IdsDisjoint(rows, scanId, "high", "medium");
    IdsDisjoint(rows, scanId, "high", "low");
    IdsDisjoint(rows, scanId, "medium", "low");
    DisjointCard(c, h);
    DisjointCard(c + h, m);
    DisjointCard(c + h + m, l);
    IdsWithin(rows, scanId, "critical");
    IdsWithin(rows, scanId, "high");
    IdsWithin(rows, scanId, "medium");
    IdsWithin(rows, scanId, "low");
    SubsetCard(c + h + m + l, IdsOf(rows, scanId, None));
  }

  /** A severity's violations are among the scan's. */
  lemma IdsWithin(rows: map<nat, ViolationRow>, scanId: nat, severity: string)
    ensures IdsOf(rows, scanId, Some(severity)) <= IdsOf(rows, scanId, None)
  {
  }

  lemma DisjointCard<T>(a: set<T>, b: set<T>)
    requires a * b == {}
    ensures |a + b| == |a| + |b|
  {
  }

  lemma SubsetCard<T>(a: set<T>, b: set<T>)
    requires a <= b
    ensures |a| <= |b|
  {
    assert b == a + (b - a);
  }

  /** Rows for a batch: ids from `first` on, stamped `now`. */
  function Stamped(vs: seq<ViolationRow>, first: nat, now: nat): (r: seq<ViolationRow>)
    ensures |r| == |vs|
    ensures forall i :: 0 <= i < |vs| ==> r[i] == vs[i].(violationId := first + i, createdAt := now)
  {
    seq(|vs|, i requires 0 <= i < |vs| => vs[i].(violationId := first + i, createdAt := now))
  }

  class ViolationTable {
    var rows: map<nat, ViolationRow>
    var nextId: nat

    ghost predicate Valid()
      reads this
    {
      forall id :: id in rows ==> id < nextId && rows[id].violationId == id
    }

    constructor ()
      ensures rows == map[] && nextId == 0 && Valid()
    {
      rows := map[];
      nextId := 0;
    }

    /** `insert_batch`: no conflict clause, so every violation becomes a new
        row, duplicates included. */
    method InsertBatch(vs: seq<ViolationRow>, now: nat) returns (n: nat)
      requires Valid()
      modifies this
      ensures Valid()
      ensures nextId == old(nextId) + |vs| && n == |vs|
      ensures forall id :: id in rows <==> id in old(rows) || old(nextId) <= id < nextId
      ensures forall id :: id in old(rows) ==> rows[id] == old(rows)[id]
      ensures forall i :: 0 <= i < |vs| ==> rows[old(nextId) + i] == Stamped(vs, old(nextId), now)[i]
    {
      var stamped := Stamped(vs, nextId, now);
      var i := 0;
      while i < |vs|
        invariant 0 <= i <= |vs| && nextId == old(nextId) + i && Valid()
        invariant forall id :: id in rows <==> id in old(rows) || old(nextId) <= id < nextId
        invariant forall id :: id in old(rows) ==> rows[id] == old(rows)[id]
        invariant forall j :: 0 <= j < i ==> rows[old(nextId) + j] == stamped[j]
      {
        rows := rows[nextId := stamped[i]];
        nextId := nextId + 1;
        i := i + 1;
      }
      n := |vs|;
    }

    /** `get_by_scan`: the scan's violations (of one severity when one is
        given), highest score first, newest first among equal scores. */
    method GetByScan(scanId: nat, severity: Option<string>) returns (r: seq<ViolationRow>)
      ensures var filter := if severity.Some? && severity.value != "" then severity else None;
        && Distinct(r) && (forall v :: v in OfScan(rows, scanId, filter) <==> v in r)
        && forall i, j :: 0 <= i < j < |r| ==>
             r[i].severityScore > r[j].severityScore
             || (r[i].severityScore == r[j].severityScore && r[i].createdAt >= r[j].createdAt)
    {
      var filter := if severity.Some? && severity.value != "" then severity else None;
      var pool := OfScan(rows, scanId, filter);
      var key := (v: ViolationRow) => -v.severityScore;
      var tie := (v: ViolationRow) => -(v.createdAt as int);
      r := TopBy(pool, key, tie, |pool|);
      assert forall i, j :: 0 <= i < j < |r| ==> Before(key, tie, r[i], r[j]);
    }
  }

  class ScanTable {
    var rows: map<nat, ScanRow>
    var nextId: nat

    ghost predicate Valid()
      reads this
    {
      forall id :: id in rows ==> id < nextId
    }

    constructor ()
      ensures rows == map[] && nextId == 0 && Valid()
    {
      rows := map[];
      nextId := 0;
    }

    /** `create`: a new scan, `"running"`, of type `"full"` by default. */
    method Create(repoId: nat, scanType: Option<string>, initiator: Option<string>, commitSha: Option<string>, now: nat)
      returns (id: nat)
      requires Valid()
      modifies this
      ensures Valid() && id !in old(rows)
      ensures rows == old(rows)[id := ScanRow(repoId, if scanType.Some? then scanType.value else "full", "running",
                                              initiator, commitSha, now, None, None, None, 0, 0, 0, 0, 0)]
    {
      id := nextId;
      nextId := nextId + 1;
      rows := rows[id := ScanRow(repoId, if scanType.Some? then scanType.value else "full", "running",
                                 initiator, commitSha, now, None, None, None, 0, 0, 0, 0, 0)];
    }

    /** `update_status`: status, result and error are overwritten;
        `completed_at` is stamped for completed/failed and cleared
        otherwise. An unknown id changes nothing. */
    method UpdateStatus(id: nat, status: string, result: Option<Json>, error: Option<string>, now: nat)
      requires Valid()
      modifies this
      ensures Valid() && nextId == old(nextId)
      ensures id in old(rows) ==> rows == old(rows)[id := old(rows)[id].(status := status, result := result, error := error,
                                                          completedAt := if Finished(status) then Some(now) else None)]
      ensures id !in old(rows) ==> rows == old(rows)
    {
      if id in rows {
        rows := rows[id := rows[id].(status := status, result := result, error := error,
                                     completedAt := if Finished(status) then Some(now) else None)];
      }
    }

    /** `update_violation_counts`: the scan's totals, read from the
        violations table. */
    method UpdateViolationCounts(id: nat, violations: ViolationTable)
      requires Valid()
      modifies this
      ensures Valid() && nextId == old(nextId)
      ensures id in old(rows) ==> && rows == old(rows)[id := old(rows)[id].(
                                     totalViolations := CountOf(violations.rows, id, None),
                                     criticalViolations := CountOf(violations.rows, id, Some("critical")),
                                     highViolations := CountOf(violations.rows, id, Some("high")),
                                     mediumViolations := CountOf(violations.rows, id, Some("medium")),
                                     lowViolations := CountOf(violations.rows, id, Some("low")))]
                                  && rows[id].criticalViolations + rows[id].highViolations + rows[id].mediumViolations
                                     + rows[id].lowViolations <= rows[id].totalViolations
      ensures id !in old(rows) ==> rows == old(rows)
    {
      if id in rows {
        SeverityCountsBounded(violations.rows, id);
        rows := rows[id := rows[id].(
          totalViolations := CountOf(violations.rows, id, None),
          criticalViolations := CountOf(violations.rows, id, Some("critical")),
          highViolations := CountOf(violations.rows, id, Some("high")),
          mediumViolations := CountOf(violations.rows, id, Some("medium")),
          lowViolations := CountOf(violations.rows, id, Some("low")))];
      }
    }
  }

  // ---------------------------------------------------------------- webhook events

  datatype EventRow = EventRow(eventType: string, installationId: Json, repositoryId: Json, payload: Json,
                               processed: bool, processedAt: Option<nat>)

  /** `payload.get(key, {}).get("id")`: fails when the value there is not
      an object. */
  function NestedId(payload: map<string, Json>, key: string): (r: Result<Json>)
    ensures key !in payload ==> r == Ok(JNull)
    ensures r.Err? ==> r.error.AttributeError?
  {
    match Get(payload, key, JObject(map[]))
    case JObject(inner) => Ok(Get(inner, "id", JNull))
    case _ => Err(AttributeError("'" + key + "' value has no attribute 'get'"))
  }

  class WebhookEventTable {
    var rows: map<string, EventRow>

    constructor ()
      ensures rows == map[]
    {
      rows := map[];
    }

    /** `insert`: `ON CONFLICT DO NOTHING`, so a known event, and its
        `processed` flag, stay as they were. */
    method Insert(eventId: string, eventType: string, payload: map<string, Json>) returns (r: Result<()>)
      modifies this
      ensures r.Err? <==> NestedId(payload, "installation").Err? || NestedId(payload, "repository").Err?
      ensures r.Err? ==> r.error.AttributeError?
      ensures r.Ok? && eventId !in old(rows) ==>
        rows == old(rows)[eventId := EventRow(eventType, NestedId(payload, "installation").value,
                                              NestedId(payload, "repository").value, JObject(payload), false, None)]
      ensures r.Err? || eventId in old(rows) ==> rows == old(rows)
    {
      var installation := NestedId(payload, "installation");
      var repository := NestedId(payload, "repository");
      if installation.Err? {
        return Err(installation.error);
      }
      if repository.Err? {
        return Err(repository.error);
      }
      if eventId !in rows {
        rows := rows[eventId := EventRow(eventType, installation.value, repository.value, JObject(payload), false, None)];
      }
      r := Ok(());
    }

    /** `is_processed`: only a stored event whose flag is set. */
    function IsProcessed(eventId: string): (b: bool)
      reads this
      ensures b <==> eventId in rows && rows[eventId].processed
    {
      eventId in rows && rows[eventId].processed
    }

    /** `mark_processed`; an unknown id changes nothing. */
    method MarkProcessed(eventId: string, now: nat)
      modifies this
      ensures eventId in old(rows) ==> rows == old(rows)[eventId := old(rows)[eventId].(processed := true, processedAt := Some(now))]
      ensures eventId !in old(rows) ==> rows == old(rows)
    {
      if eventId in rows {
        rows := rows[eventId := rows[eventId].(processed := true, processedAt := Some(now))];
      }
    }
  }

  // ---------------------------------------------------------------- installations

  datatype InstallationRow = InstallationRow(
    accountId: int, accountLogin: string, appId: int, targetType: string,
    permissions: Json, events: Json, repositories: Json)

  class InstallationTable {
    var rows: map<int, InstallationRow>

    constructor ()
      ensures rows == map[]
    {
      rows := map[];
    }

    /** `upsert`: an existing installation keeps its account id, app id and
        target type and takes the rest. */
    method Upsert(installationId: int, data: InstallationRow) returns (id: int)
      modifies this
      ensures id == installationId
      ensures installationId !in old(rows) ==> rows == old(rows)[installationId := data]
      ensures installationId in old(rows) ==>
        rows == old(rows)[installationId := old(rows)[installationId].(accountLogin := data.accountLogin,
                          permissions := data.permissions, events := data.events, repositories := data.repositories)]
    {
      if installationId in rows {
        rows := rows[installationId := rows[installationId].(accountLogin := data.accountLogin,
                     permissions := data.permissions, events := data.events, repositories := data.repositories)];
      } else {
        rows := rows[installationId := data];
      }
      id := installationId;
    }

    /** `delete`: true when a row went. */
    method Delete(installationId: int) returns (deleted: bool)
      modifies this
      ensures deleted == (installationId in old(rows))
      ensures rows == old(rows) - {installationId}
    {
      deleted := installationId in rows;
      rows := rows - {installationId};
    }
  }

  // ---------------------------------------------------------------- repositories

  datatype RepoRow = RepoRow(
    repoId: nat, installationId: int, githubId: int, repoName: string, fullName: string, private: bool,
    defaultBranch: string, cloneUrl: Option<string>, lastCommitSha: Option<string>,
    indexedFileCount: int, totalChunks: int, lastSyncedAt: Option<nat>)

  /** What a caller of `upsert` supplies. */
  datatype RepoData = RepoData(installationId: int, githubId: int, repoName: string, fullName: string, private: bool,
                               defaultBranch: Option<string>, cloneUrl: Option<string>)

  class RepoTable {
    /** `repos`, by its unique `github_id`. */
    var rows: map<int, RepoRow>
    var nextId: nat

    ghost predicate Valid()
      reads this
    {
      && (forall g :: g in rows ==> rows[g].githubId == g && rows[g].repoId < nextId)
      && (forall g, h :: g in rows && h in rows && g != h ==> rows[g].repoId != rows[h].repoId)
    }

    constructor ()
      ensures rows == map[] && nextId == 0 && Valid()
    {
      rows := map[];
      nextId := 0;
    }

    /** `upsert`: a known repository (by GitHub id) keeps its id,
        installation and visibility and takes the names, branch and clone
        URL; the branch defaults to `"main"`. */
    method Upsert(data: RepoData) returns (repoId: nat)
      requires Valid()
      modifies this
      ensures Valid() && data.githubId in rows && rows[data.githubId].repoId == repoId
      ensures var branch := if data.defaultBranch.Some? then data.defaultBranch.value else "main";
        && (data.githubId in old(rows) ==>
              nextId == old(nextId)
              && rows == old(rows)[data.githubId := old(rows)[data.githubId].(repoName := data.repoName,
                           fullName := data.fullName, defaultBranch := branch, cloneUrl := data.cloneUrl)])
        && (data.githubId !in old(rows) ==>
              repoId == old(nextId) && nextId == old(nextId) + 1
              && rows == old(rows)[data.githubId := RepoRow(repoId, data.installationId, data.githubId, data.repoName,
                           data.fullName, data.private, branch, data.cloneUrl, None, 0, 0, None)])
    {
      var branch := if data.defaultBranch.Some? then data.defaultBranch.value else "main";
      if data.githubId in rows {
        repoId := rows[data.githubId].repoId;
        rows := rows[data.githubId := rows[data.githubId].(repoName := data.repoName,
                     fullName := data.fullName, defaultBranch := branch, cloneUrl := data.cloneUrl)];
      } else {
        repoId := nextId;
        rows := rows[data.githubId := RepoRow(repoId, data.installationId, data.githubId, data.repoName,
                     data.fullName, data.private, branch, data.cloneUrl, None, 0, 0, None)];
        nextId := nextId + 1;
      }
    }

    /** `get_by_github_id` */
    function GetByGithubId(githubId: int): (r: Option<RepoRow>)
      reads this
      ensures r.Some? <==> githubId in rows
      ensures r.Some? ==> r.value == rows[githubId]
    {
      if githubId in rows then Some(rows[githubId]) else None
    }

    /** `get_by_id` */
    method GetById(repoId: nat) returns (r: Option<RepoRow>)
      requires Valid()
      ensures r.Some? <==> exists g :: g in rows && rows[g].repoId == repoId
      ensures r.Some? ==> r.value in rows.Values && r.value.repoId == repoId
      ensures r.Some? ==> forall g :: g in rows && rows[g].repoId == repoId ==> rows[g] == r.value
    {
      if g :| g in rows && rows[g].repoId == repoId {
        r := Some(rows[g]);
      } else {
        r := None;
      }
    }

    /** `update_sync_status` */
    method UpdateSyncStatus(repoId: nat, commitSha: string, fileCount: int, chunkCount: int, now: nat)
      requires Valid()
      modifies this
      ensures Valid() && nextId == old(nextId) && rows.Keys == old(rows).Keys
      ensures forall g :: g in rows ==> rows[g] == if old(rows)[g].repoId == repoId
        then old(rows)[g].(lastSyncedAt := Some(now), lastCommitSha := Some(commitSha),
                           indexedFileCount := fileCount, totalChunks := chunkCount)
        else old(rows)[g]
    {
      if g :| g in rows && rows[g].repoId == repoId {
        rows := rows[g := rows[g].(lastSyncedAt := Some(now), lastCommitSha := Some(commitSha),
                                   indexedFileCount := fileCount, totalChunks := chunkCount)];
      }
    }
  }
}
