// The dashboard statistics: the latest scan of every repository, the open
// and critical violations they report, and the compliance score, a
// heuristic of 100 points less 15 per critical violation and 2 per
// violation, never below 0.

module Dashboard {
  import opened Common
  import opened Database

  /** A row of `scans` as the dashboard's query reads it: the repository,
      the insert time `created_at`, and the two counts, which the column
      types allow to be NULL. */
  datatype ScanView = ScanView(repoId: nat, createdAt: nat, totalViolations: Option<nat>, criticalViolations: Option<nat>)

  /** A stored scan row as the dashboard reads it. `created_at` is set when
      the row is inserted, as `started_at` is, so the insert time stands in
      for it; the counts the services write are never NULL. */
  function ViewOf(row: ScanRow): (v: ScanView)
    ensures v.repoId == row.repoId && v.createdAt == row.startedAt
    ensures v.totalViolations == Some(row.totalViolations) && v.criticalViolations == Some(row.criticalViolations)
  {
    ScanView(row.repoId, row.startedAt, Some(row.totalViolations), Some(row.criticalViolations))
  }

  /** Row `i` is the one `SELECT DISTINCT ON (repo_id) ... ORDER BY
      repo_id, created_at DESC` keeps for its repository: no scan of the
      repository is more recent, and among equally recent ones it is the
      first listed. */
  predicate Kept(rows: seq<ScanView>, i: nat)
    requires i < |rows|
  {
    && (forall j | 0 <= j < |rows| :: rows[j].repoId == rows[i].repoId ==> rows[j].createdAt <= rows[i].createdAt)
    && (forall j | 0 <= j < i :: rows[j].repoId == rows[i].repoId ==> rows[j].createdAt < rows[i].createdAt)
  }

  /** The positions, from `k` on, of the rows the query keeps, in order. */
  function KeptFrom(rows: seq<ScanView>, k: nat): (p: seq<nat>)
    requires k <= |rows|
    ensures forall n :: 0 <= n < |p| ==> k <= p[n] < |rows| && Kept(rows, p[n])
    ensures forall n, m :: 0 <= n < m < |p| ==> p[n] < p[m]
    ensures forall i :: k <= i < |rows| && Kept(rows, i) ==> i in p
    decreases |rows| - k
  {
    if k == |rows| then []
    else if Kept(rows, k) then [k] + KeptFrom(rows, k + 1)
    else KeptFrom(rows, k + 1)
  }

  /** The scans the dashboard reads: one per repository, the latest. The
      rows are the `scans` table in the order the query meets them. */
  function LatestScans(rows: seq<ScanView>): (r: seq<ScanView>)
    ensures |r| == |KeptFrom(rows, 0)|
    ensures forall n :: 0 <= n < |r| ==> r[n] == rows[KeptFrom(rows, 0)[n]]
  {
    var p := KeptFrom(rows, 0);
    seq(|p|, n requires 0 <= n < |p| => rows[p[n]])
  }

  /** No two of the scans read belong to the same repository, and none of
      them has a more recent scan of its repository. */
  lemma OnePerRepository(rows: seq<ScanView>)
    ensures var r := LatestScans(rows);
      forall n, m :: 0 <= n < m < |r| ==> r[n].repoId != r[m].repoId
    ensures var r := LatestScans(rows);
      forall n, j :: 0 <= n < |r| && 0 <= j < |rows| && rows[j].repoId == r[n].repoId ==> rows[j].createdAt <= r[n].createdAt
  {
    var p := KeptFrom(rows, 0);
    forall n, m | 0 <= n < m < |p|
      ensures rows[p[n]].repoId != rows[p[m]].repoId
    {
      assert p[n] < p[m] && Kept(rows, p[n]) && Kept(rows, p[m]);
    }
  }

  /** Every repository with a scan is represented. */
  lemma EveryRepositoryRead(rows: seq<ScanView>, j: nat)
    requires j < |rows|
    ensures exists n :: 0 <= n < |LatestScans(rows)| && LatestScans(rows)[n].repoId == rows[j].repoId
  {
    var i := LatestOf(rows, j);
    var p := KeptFrom(rows, 0);
    var n :| 0 <= n < |p| && p[n] == i;
    assert LatestScans(rows)[n] == rows[i];
  }

  /** The row the query keeps for row `j`'s repository. */
  lemma LatestOf(rows: seq<ScanView>, j: nat) returns (i: nat)
    requires j < |rows|
    ensures i < |rows| && rows[i].repoId == rows[j].repoId && Kept(rows, i)
  {
    var repo := rows[j].repoId;
    var m := j;
    var t := 0;
    while t < |rows|
      invariant 0 <= t <= |rows| && m < |rows| && rows[m].repoId == repo
      invariant forall s :: 0 <= s < t && rows[s].repoId == repo ==> rows[s].createdAt <= rows[m].createdAt
      invariant rows[j].createdAt <= rows[m].createdAt
    {
      if rows[t].repoId == repo && rows[t].createdAt > rows[m].createdAt {
        m := t;
      }
      t := t + 1;
    }
    i := 0;
    while !(rows[i].repoId == repo && rows[i].createdAt == rows[m].createdAt)
      invariant 0 <= i <= m
      invariant forall s :: 0 <= s < i && rows[s].repoId == repo ==> rows[s].createdAt < rows[m].createdAt
      decreases m - i
    {
      i := i + 1;
    }
  }

  /** `x or 0` on a count read from the database. */
  function OrZero(x: Option<nat>): (n: nat)
    ensures x.None? ==> n == 0
    ensures x.Some? ==> n == x.value
  {
    if x.Some? then x.value else 0
  }

  /** `sum(s['total_violations'] or 0 for s in scans)` */
  function SumTotal(scans: seq<ScanView>): (n: nat)
    ensures scans == [] ==> n == 0
    ensures forall i :: 0 <= i < |scans| ==> OrZero(scans[i].totalViolations) <= n
    ensures (forall i :: 0 <= i < |scans| ==> scans[i].totalViolations.None?) ==> n == 0
  {
    if scans == [] then 0 else SumTotal(scans[..|scans| - 1]) + OrZero(scans[|scans| - 1].totalViolations)
  }

  /** `sum(s['critical_violations'] or 0 for s in scans)` */
  function SumCritical(scans: seq<ScanView>): (n: nat)
    ensures scans == [] ==> n == 0
    ensures forall i :: 0 <= i < |scans| ==> OrZero(scans[i].criticalViolations) <= n
    ensures (forall i :: 0 <= i < |scans| ==> scans[i].criticalViolations.None?) ==> n == 0
  {
    if scans == [] then 0 else SumCritical(scans[..|scans| - 1]) + OrZero(scans[|scans| - 1].criticalViolations)
  }

  /** A scan whose counts are NULL adds nothing to either sum. */
  lemma NullCountsAddNothing(scans: seq<ScanView>, s: ScanView)
    requires s.totalViolations.None? && s.criticalViolations.None?
    ensures SumTotal(scans + [s]) == SumTotal(scans)
    ensures SumCritical(scans + [s]) == SumCritical(scans)
  {
    assert (scans + [s])[..|scans|] == scans;
  }

  /** Critical violations are counted among all violations, scan by scan,
      so in the sums too. */
  lemma {:induction false} CriticalWithinTotal(scans: seq<ScanView>)
    requires forall n :: 0 <= n < |scans| ==> OrZero(scans[n].criticalViolations) <= OrZero(scans[n].totalViolations)
    ensures SumCritical(scans) <= SumTotal(scans)
  {
    if scans != [] {
      CriticalWithinTotal(scans[..|scans| - 1]);
    }
  }

  const BaseScore: int := 100
  const CriticalPenalty: int := 15
  const ViolationPenalty: int := 2

  /** `max(0, 100 - (critical * 15 + total * 2))` */
  function ComplianceScore(critical: int, total: int): (s: int)
    ensures s >= 0
    ensures s >= BaseScore - (critical * CriticalPenalty + total * ViolationPenalty)
    ensures s == 0 || s == BaseScore - (critical * CriticalPenalty + total * ViolationPenalty)
  {
    var penalty := critical * CriticalPenalty + total * ViolationPenalty;
    if BaseScore - penalty > 0 then BaseScore - penalty else 0
  }

  /** For counts that are not negative the score is between 0 and 100, 100
      exactly when there is no violation at all. */
  lemma ScoreBounds(critical: nat, total: nat)
    ensures 0 <= ComplianceScore(critical, total) <= 100
    ensures ComplianceScore(critical, total) == 100 <==> critical == 0 && total == 0
  {
  }

  /** More violations never raise the score. */
  lemma ScoreMonotone(c1: nat, t1: nat, c2: nat, t2: nat)
    requires c1 <= c2 && t1 <= t2
    ensures ComplianceScore(c2, t2) <= ComplianceScore(c1, t1)
  {
  }

  /** A critical violation is also one of the violations, so it costs 17
      points while the score stays positive. */
  lemma CriticalCostsSeventeen(critical: nat, total: nat)
    requires ComplianceScore(critical, total) >= 17
    ensures ComplianceScore(critical + 1, total + 1) == ComplianceScore(critical, total) - 17
  {
  }

  /** The response of `get_dashboard_stats`. */
  datatype DashboardStats = DashboardStats(
    complianceScore: int, trend: int, openViolations: nat, criticalViolations: nat,
    reposScanned: nat, pendingReviews: int, activeAgents24h: int)

  /** The statistics over the scans table; the pending-review and 24-hour
      counts come from their own queries. */
  function GetDashboardStats(rows: seq<ScanView>, pendingReviews: int, activeScans: int): (d: DashboardStats)
    ensures d.reposScanned == |LatestScans(rows)| && d.trend == -5
    ensures d.openViolations == SumTotal(LatestScans(rows)) && d.criticalViolations == SumCritical(LatestScans(rows))
    ensures d.complianceScore == ComplianceScore(d.criticalViolations, d.openViolations)
    ensures 0 <= d.complianceScore <= 100
    ensures d.pendingReviews == pendingReviews && d.activeAgents24h == activeScans
  {
    var scans := LatestScans(rows);
    var total := SumTotal(scans);
    var critical := SumCritical(scans);
    ScoreBounds(critical, total);
    DashboardStats(ComplianceScore(critical, total), -5, total, critical, |scans|, pendingReviews, activeScans)
  }

  /** When every scan counts its critical violations among its violations
      (as `update_violation_counts` records them), the score is at most
      100 less 17 points per critical violation. */
  lemma CriticalBoundsScore(rows: seq<ScanView>, pendingReviews: int, activeScans: int)
    requires forall j :: 0 <= j < |rows| ==> OrZero(rows[j].criticalViolations) <= OrZero(rows[j].totalViolations)
    ensures var d := GetDashboardStats(rows, pendingReviews, activeScans);
      d.complianceScore == 0 || d.complianceScore <= 100 - 17 * d.criticalViolations
  {
    var scans := LatestScans(rows);
    CriticalWithinTotal(scans);
  }
}
