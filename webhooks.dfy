// The GitHub webhook endpoint: a delivery is verified, checked against the
// deliveries already processed, stored, dispatched on its event type and
// only then marked processed. The handlers store installations and
// repositories and enqueue indexing jobs.
//
// The JSON payload is read through decoders, one per event type, that
// return what the handler reads from it or the KeyError it would raise.

module Webhooks {
  import opened Common
  import opened Hashing
  import opened Database
  import opened JobQueue
  import opened WebhookVerification

  // ------------------------------------------------------------ payloads

  /** A repository as a payload lists it. */
  datatype RepoRef = RepoRef(githubId: int, name: string, fullName: string)

  /** The installation's own fields, read only for `created`. */
  datatype InstallationInfo = InstallationInfo(accountId: int, accountLogin: string, appId: int, targetType: string,
                                               permissions: Json, events: Json)

  /** An `installation` event; `repositories` is stored as sent, and each
      listed repository is read (or fails) when the loop reaches it. */
  datatype InstallationEvent = InstallationEvent(action: string, installationId: int, info: Result<InstallationInfo>,
                                                 repositoriesJson: Json, repositories: seq<Result<RepoRef>>)

  /** An `installation_repositories` event. */
  datatype InstallationReposEvent = InstallationReposEvent(action: string, installationId: int,
                                                           added: seq<Result<RepoRef>>)

  /** One commit of a push; missing lists are empty. */
  datatype Commit = Commit(added: seq<string>, modified: seq<string>, removed: seq<string>)

  /** A `push` event. */
  datatype PushEvent = PushEvent(ref: string, repository: RepoRef, defaultBranch: Option<string>,
                                 installationId: int, after: Option<string>, commits: seq<Commit>)

  /** How each supported event type's payload is read. */
  datatype Decoders = Decoders(
    installation: map<string, Json> -> Result<InstallationEvent>,
    installationRepositories: map<string, Json> -> Result<InstallationReposEvent>,
    push: map<string, Json> -> Result<PushEvent>,
    pullRequest: map<string, Json> -> Result<()>)

  // ------------------------------------------------------------ indexing

  /** The clone URL a first-time repository is stored with. */
  function CloneUrl(fullName: string): string {
    "https://github.com/" + fullName + ".git"
  }

  /** `_enqueue_repo_indexing`: the repository is stored (private, on
      `main`) and one indexing job names the id it is stored under. */
  method EnqueueRepoIndexing(repos: RepoTable, queue: JobQueue, installationId: int, repo: RepoRef,
                             commitSha: Option<string>)
    requires repos.Valid()
    modifies repos, queue
    ensures repos.Valid() && repo.githubId in repos.rows
    ensures repos.rows.Keys == old(repos.rows).Keys + {repo.githubId}
    ensures forall g :: g in old(repos.rows) && g != repo.githubId ==> repos.rows[g] == old(repos.rows)[g]
    ensures KeepsIds(old(repos.rows), repos.rows)
    ensures repos.rows[repo.githubId].fullName == repo.fullName && repos.rows[repo.githubId].repoName == repo.name
    ensures repos.rows[repo.githubId].cloneUrl == Some(CloneUrl(repo.fullName))
    ensures queue.asyncRedis == old(queue.asyncRedis)
    ensures queue.jobs == old(queue.jobs) + [IndexRepository(repos.rows[repo.githubId].repoId, installationId,
                                                             repo.fullName, commitSha, None, ResultTtl, Some(FailureTtl))]
  {
    var repoId := repos.Upsert(RepoData(installationId, repo.githubId, repo.name, repo.fullName, true, Some("main"),
                                        Some(CloneUrl(repo.fullName))));
    var _ := queue.EnqueueIndexingJob(repoId, installationId, repo.fullName, commitSha, None);
  }

  /** How many entries, from the front, read without error. */
  function ReadPrefix(list: seq<Result<RepoRef>>): (k: nat)
    ensures k <= |list|
    ensures forall i :: 0 <= i < k ==> list[i].Ok?
    ensures k < |list| ==> list[k].Err?
  {
    if list == [] || list[0].Err? then 0 else 1 + ReadPrefix(list[1..])
  }

  /** The GitHub ids among the first `k` entries. */
  function ListedIds(list: seq<Result<RepoRef>>, k: nat): (ids: set<int>)
    requires k <= ReadPrefix(list)
    ensures forall i :: 0 <= i < k ==> list[i].value.githubId in ids
    ensures forall g :: g in ids ==> exists i :: 0 <= i < k && list[i].value.githubId == g
  {
    set i | 0 <= i < k :: list[i].value.githubId
  }

  /** The indexing job for a listed repository, given the table after the
      loop. */
  function JobFor(rows: map<int, RepoRow>, installationId: int, repo: RepoRef, commitSha: Option<string>): Job
    requires repo.githubId in rows
  {
    IndexRepository(rows[repo.githubId].repoId, installationId, repo.fullName, commitSha, None, ResultTtl, Some(FailureTtl))
  }

  /** The first `k` entries are all stored in `rows`. */
  predicate Stored(rows: map<int, RepoRow>, list: seq<Result<RepoRef>>, k: nat)
    requires k <= ReadPrefix(list)
  {
    forall j :: 0 <= j < k ==> list[j].value.githubId in rows
  }

  /** The jobs for the first `k` entries, in order. */
  function JobsFor(rows: map<int, RepoRow>, installationId: int, list: seq<Result<RepoRef>>, k: nat,
                   commitSha: Option<string>): (jobs: seq<Job>)
    requires k <= ReadPrefix(list) && Stored(rows, list, k)
    ensures |jobs| == k
    ensures forall j :: 0 <= j < k ==> jobs[j] == JobFor(rows, installationId, list[j].value, commitSha)
  {
    if k == 0 then []
    else JobsFor(rows, installationId, list, k - 1, commitSha) + [JobFor(rows, installationId, list[k - 1].value, commitSha)]
  }

  /** Every stored repository is still stored, under the same id. */
  predicate KeepsIds(before: map<int, RepoRow>, after: map<int, RepoRow>) {
    forall g :: g in before ==> g in after && after[g].repoId == before[g].repoId
  }

  /** Jobs only depend on the ids the repositories are stored under. */
  lemma {:induction false} JobsForKept(before: map<int, RepoRow>, after: map<int, RepoRow>, installationId: int,
                                       list: seq<Result<RepoRef>>, k: nat, commitSha: Option<string>)
    requires k <= ReadPrefix(list) && Stored(before, list, k) && KeepsIds(before, after)
    ensures Stored(after, list, k)
    ensures JobsFor(after, installationId, list, k, commitSha) == JobsFor(before, installationId, list, k, commitSha)
  {
    if k > 0 {
      JobsForKept(before, after, installationId, list, k - 1, commitSha);
    }
  }

  /** One more stored repository extends the jobs by its own, and the
      earlier jobs are unaffected since their ids are kept. */
  lemma JobsForNext(before: map<int, RepoRow>, after: map<int, RepoRow>, installationId: int,
                    list: seq<Result<RepoRef>>, i: nat, commitSha: Option<string>)
    requires i < ReadPrefix(list) && Stored(before, list, i) && KeepsIds(before, after)
    requires list[i].value.githubId in after
    ensures Stored(after, list, i + 1)
    ensures JobsFor(after, installationId, list, i + 1, commitSha)
         == JobsFor(before, installationId, list, i, commitSha) + [JobFor(after, installationId, list[i].value, commitSha)]
  {
    JobsForKept(before, after, installationId, list, i, commitSha);
  }

  lemma ListedIdsNext(list: seq<Result<RepoRef>>, i: nat)
    requires i < ReadPrefix(list)
    ensures ListedIds(list, i + 1) == ListedIds(list, i) + {list[i].value.githubId}
  {
  }

  /** After the first `i` entries: they are stored, the repositories
      stored before keep their ids (and their rows unless listed), and the
      jobs for the `i` entries follow the jobs there were. */
  ghost predicate Progress(start: map<int, RepoRow>, startJobs: seq<Job>, rows: map<int, RepoRow>, jobs: seq<Job>,
                           installationId: int, list: seq<Result<RepoRef>>, i: nat, commitSha: Option<string>)
    requires i <= ReadPrefix(list)
  {
    && rows.Keys == start.Keys + ListedIds(list, i)
    && KeepsIds(start, rows)
    && (forall g :: g in start && g !in ListedIds(list, i) ==> rows[g] == start[g])
    && Stored(rows, list, i)
    && jobs == startJobs + JobsFor(rows, installationId, list, i, commitSha)
  }

  /** One iteration of the loop over a payload's repositories. */
  method EnqueueNext(repos: RepoTable, queue: JobQueue, installationId: int, list: seq<Result<RepoRef>>, i: nat,
                     commitSha: Option<string>, ghost start: map<int, RepoRow>, ghost startJobs: seq<Job>)
    requires i < ReadPrefix(list) && repos.Valid()
    requires Progress(start, startJobs, repos.rows, queue.jobs, installationId, list, i, commitSha)
    modifies repos, queue
    ensures repos.Valid() && queue.asyncRedis == old(queue.asyncRedis)
    ensures Progress(start, startJobs, repos.rows, queue.jobs, installationId, list, i + 1, commitSha)
  {
    ghost var before := repos.rows;
    ghost var jobsBefore := queue.jobs;
    var repo := list[i].value;
    EnqueueRepoIndexing(repos, queue, installationId, repo, commitSha);
    ghost var after := repos.rows;
    JobsForNext(before, after, installationId, list, i, commitSha);
    ListedIdsNext(list, i);
    UnionStep(start.Keys, before.Keys, after.Keys, ListedIds(list, i), ListedIds(list, i + 1), repo.githubId);
    assert forall g :: g in start && g !in ListedIds(list, i + 1) ==> after[g] == start[g] by {
      forall g | g in start && g !in ListedIds(list, i + 1)
        ensures after[g] == start[g]
      {
        assert g != repo.githubId && g !in ListedIds(list, i);
      }
    }
    assert KeepsIds(start, after) by {
      forall g | g in start
        ensures g in after && after[g].repoId == start[g].repoId
      {
        assert g in before.Keys;
      }
    }
    assert queue.jobs == startJobs + JobsFor(after, installationId, list, i + 1, commitSha) by {
      assert queue.jobs == jobsBefore + [JobFor(after, installationId, repo, commitSha)];
      AppendAssoc(startJobs, JobsFor(before, installationId, list, i, commitSha), [JobFor(after, installationId, repo, commitSha)]);
    }
  }

  lemma UnionStep<T>(start: set<T>, before: set<T>, after: set<T>, listed: set<T>, listedNext: set<T>, x: T)
    requires before == start + listed && after == before + {x} && listedNext == listed + {x}
    ensures after == start + listedNext
  {
  }

  /** The loop over a payload's repositories: each one, in order, is stored
      and gets one job, until an entry fails to read; that entry's error is
      raised and the entries before it stay done. Repositories already
      stored keep their ids. */
  method EnqueueAll(repos: RepoTable, queue: JobQueue, installationId: int, list: seq<Result<RepoRef>>,
                    commitSha: Option<string>) returns (r: Result<()>)
    requires repos.Valid()
    modifies repos, queue
    ensures repos.Valid() && queue.asyncRedis == old(queue.asyncRedis)
    ensures r.Ok? <==> ReadPrefix(list) == |list|
    ensures r.Err? ==> r == Err(list[ReadPrefix(list)].error)
    ensures repos.rows.Keys == old(repos.rows).Keys + ListedIds(list, ReadPrefix(list))
    ensures KeepsIds(old(repos.rows), repos.rows)
    ensures forall g :: g in old(repos.rows) && g !in ListedIds(list, ReadPrefix(list)) ==> repos.rows[g] == old(repos.rows)[g]
    ensures Stored(repos.rows, list, ReadPrefix(list))
    ensures queue.jobs == old(queue.jobs) + JobsFor(repos.rows, installationId, list, ReadPrefix(list), commitSha)
  {
    var k := ReadPrefix(list);
    var i := 0;
    assert old(queue.jobs) + [] == old(queue.jobs);
    while i < k
      invariant 0 <= i <= k && repos.Valid() && queue.asyncRedis == old(queue.asyncRedis)
      invariant Progress(old(repos.rows), old(queue.jobs), repos.rows, queue.jobs, installationId, list, i, commitSha)
    {
      EnqueueNext(repos, queue, installationId, list, i, commitSha, old(repos.rows), old(queue.jobs));
      i := i + 1;
    }
    if k < |list| {
      r := Err(list[k].error);
    } else {
      r := Ok(());
    }
  }

  // ------------------------------------------------------------ handlers

  /** `handle_installation_event`: `created` stores the installation and
      indexes its repositories, `deleted` removes it, other actions do
      nothing. */
  method HandleInstallation(ev: InstallationEvent, installations: InstallationTable, repos: RepoTable, queue: JobQueue)
    returns (r: Result<()>)
    requires repos.Valid()
    modifies installations, repos, queue
    ensures repos.Valid() && queue.asyncRedis == old(queue.asyncRedis)
    ensures ev.action == "created" && ev.info.Err? ==>
      r == Err(ev.info.error) && installations.rows == old(installations.rows)
      && repos.rows == old(repos.rows) && queue.jobs == old(queue.jobs)
    ensures ev.action == "created" && ev.info.Ok? ==>
      && ev.installationId in installations.rows
      && installations.rows.Keys == old(installations.rows).Keys + {ev.installationId}
      && installations.rows[ev.installationId].accountLogin == ev.info.value.accountLogin
      && installations.rows[ev.installationId].repositories == ev.repositoriesJson
      && (r.Ok? <==> ReadPrefix(ev.repositories) == |ev.repositories|)
      && Stored(repos.rows, ev.repositories, ReadPrefix(ev.repositories))
      && queue.jobs == old(queue.jobs) + JobsFor(repos.rows, ev.installationId, ev.repositories,
                                                 ReadPrefix(ev.repositories), None)
      && repos.rows.Keys == old(repos.rows).Keys + ListedIds(ev.repositories, ReadPrefix(ev.repositories))
    ensures ev.action == "deleted" ==>
      r.Ok? && installations.rows == old(installations.rows) - {ev.installationId}
      && repos.rows == old(repos.rows) && queue.jobs == old(queue.jobs)
    ensures ev.action != "created" && ev.action != "deleted" ==>
      r.Ok? && installations.rows == old(installations.rows) && repos.rows == old(repos.rows) && queue.jobs == old(queue.jobs)
  {
    if ev.action == "created" {
      if ev.info.Err? {
        return Err(ev.info.error);
      }
      var info := ev.info.value;
      var _ := installations.Upsert(ev.installationId, InstallationRow(info.accountId, info.accountLogin, info.appId,
                                                                       info.targetType, info.permissions, info.events,
                                                                       ev.repositoriesJson));
      r := EnqueueAll(repos, queue, ev.installationId, ev.repositories, None);
    } else if ev.action == "deleted" {
      var _ := installations.Delete(ev.installationId);
      r := Ok(());
    } else {
      r := Ok(());
    }
  }

  /** `handle_installation_repositories_event`: `added` indexes every added
      repository; `removed` and other actions change nothing. */
  method HandleInstallationRepositories(ev: InstallationReposEvent, repos: RepoTable, queue: JobQueue)
    returns (r: Result<()>)
    requires repos.Valid()
    modifies repos, queue
    ensures repos.Valid() && queue.asyncRedis == old(queue.asyncRedis)
    ensures ev.action == "added" ==>
      && (r.Ok? <==> ReadPrefix(ev.added) == |ev.added|)
      && Stored(repos.rows, ev.added, ReadPrefix(ev.added))
      && queue.jobs == old(queue.jobs) + JobsFor(repos.rows, ev.installationId, ev.added, ReadPrefix(ev.added), None)
      && repos.rows.Keys == old(repos.rows).Keys + ListedIds(ev.added, ReadPrefix(ev.added))
    ensures ev.action != "added" ==> r.Ok? && repos.rows == old(repos.rows) && queue.jobs == old(queue.jobs)
  {
    if ev.action == "added" {
      r := EnqueueAll(repos, queue, ev.installationId, ev.added, None);
    } else {
      r := Ok(());
    }
  }

  /** The files a push touched: every added, modified or removed path of
      every commit. */
  function Touched(commits: seq<Commit>): (files: set<string>)
  {
    if commits == [] then {}
    else
      var c := commits[|commits| - 1];
      Touched(commits[..|commits| - 1]) + set f | f in c.added + c.modified + c.removed
  }

  /** A path is touched exactly when some commit lists it. */
  lemma {:induction false} TouchedMeaning(commits: seq<Commit>, f: string)
    ensures f in Touched(commits) <==>
      exists i :: 0 <= i < |commits| && (f in commits[i].added || f in commits[i].modified || f in commits[i].removed)
  {
    if commits != [] {
      var n := |commits| - 1;
      TouchedMeaning(commits[..n], f);
      if f in Touched(commits) && f !in Touched(commits[..n]) {
        assert f in commits[n].added + commits[n].modified + commits[n].removed;
      }
      if exists i :: 0 <= i < |commits| && (f in commits[i].added || f in commits[i].modified || f in commits[i].removed) {
        var i :| 0 <= i < |commits| && (f in commits[i].added || f in commits[i].modified || f in commits[i].removed);
        if i < n {
          assert commits[..n][i] == commits[i];
        } else {
          assert f in commits[n].added + commits[n].modified + commits[n].removed;
        }
      }
    }
  }

  /** The loop that gathers the changed files (they are only logged). */
  method ChangedFiles(commits: seq<Commit>) returns (files: set<string>)
    ensures files == Touched(commits)
  {
    files := {};
    var i := 0;
    while i < |commits|
      invariant 0 <= i <= |commits| && files == Touched(commits[..i])
    {
      assert commits[..i + 1][..i] == commits[..i];
      var c := commits[i];
      files := files + (set f | f in c.added) + (set f | f in c.modified) + (set f | f in c.removed);
      assert files == Touched(commits[..i + 1]);
      i := i + 1;
    }
    assert commits[..i] == commits;
  }

  /** The branch guard of `handle_push_event` as written: the ref only has
      to end with the branch name. */
  predicate PushGuardAsWritten(ref: string, branch: string)
    ensures OnDefaultBranch(ref, branch) ==> PushGuardAsWritten(ref, branch)
  {
    EndsWith(ref, branch)
  }

  /** The guard as intended: the ref is the default branch itself. */
  predicate OnDefaultBranch(ref: string, branch: string)
    ensures OnDefaultBranch(ref, branch) <==> StartsWith(ref, "refs/heads/") && ref[|"refs/heads/"|..] == branch
  {
    ref == "refs/heads/" + branch
  }

  /** A push to `refs/heads/notmain` passes the guard as written although
      it is not a push to `main`. */
  lemma OtherBranchPassesAsWritten()
    ensures PushGuardAsWritten("refs/heads/notmain", "main")
    ensures !OnDefaultBranch("refs/heads/notmain", "main")
  {
    assert "refs/heads/notmain"[|"refs/heads/notmain"| - |"main"|..] == "main";
    assert |"refs/heads/notmain"| != |"refs/heads/" + "main"|;
  }

  /** The intended guard accepts exactly the default branch's ref, which
      the guard as written accepts too, and refuses every other branch. */
  lemma DefaultBranchGuard(ref: string, branch: string, other: string)
    requires other != branch
    ensures OnDefaultBranch(ref, branch) ==> PushGuardAsWritten(ref, branch)
    ensures OnDefaultBranch("refs/heads/" + branch, branch)
    ensures !OnDefaultBranch("refs/heads/" + other, branch)
  {
    if OnDefaultBranch(ref, branch) {
      assert ref[|ref| - |branch|..] == branch;
    }
    var p := "refs/heads/";
    assert (p + other)[|p|..] == other && (p + branch)[|p|..] == branch;
  }

  /** The branch a push is checked against: the repository's default,
      `main` when the payload has none. */
  function BranchOf(ev: PushEvent): string {
    if ev.defaultBranch.Some? then ev.defaultBranch.value else "main"
  }

  /** `handle_push_event`: a push to the default branch enqueues one
      indexing job at the pushed commit, for the stored repository or for
      the repository stored now. */
  method HandlePush(ev: PushEvent, repos: RepoTable, queue: JobQueue) returns (r: Result<()>)
    requires repos.Valid()
    modifies repos, queue
    ensures r.Ok? && repos.Valid() && queue.asyncRedis == old(queue.asyncRedis)
    ensures !OnDefaultBranch(ev.ref, BranchOf(ev)) ==> repos.rows == old(repos.rows) && queue.jobs == old(queue.jobs)
    ensures OnDefaultBranch(ev.ref, BranchOf(ev)) ==>
      && ev.repository.githubId in repos.rows
      && queue.jobs == old(queue.jobs) + [IndexRepository(repos.rows[ev.repository.githubId].repoId, ev.installationId,
                                                          ev.repository.fullName, ev.after, None, ResultTtl, Some(FailureTtl))]
    ensures OnDefaultBranch(ev.ref, BranchOf(ev)) && ev.repository.githubId in old(repos.rows) ==>
      repos.rows == old(repos.rows)
    ensures OnDefaultBranch(ev.ref, BranchOf(ev)) && ev.repository.githubId !in old(repos.rows) ==>
      && repos.rows.Keys == old(repos.rows).Keys + {ev.repository.githubId}
      && repos.rows[ev.repository.githubId].cloneUrl == Some(CloneUrl(ev.repository.fullName))
  {
    if !OnDefaultBranch(ev.ref, BranchOf(ev)) {
      return Ok(());
    }
    var changed := ChangedFiles(ev.commits);
    var known := repos.GetByGithubId(ev.repository.githubId);
    if known.Some? {
      var _ := queue.EnqueueIndexingJob(known.value.repoId, ev.installationId, ev.repository.fullName, ev.after, None);
    } else {
      EnqueueRepoIndexing(repos, queue, ev.installationId, ev.repository, ev.after);
    }
    r := Ok(());
  }

  /** Dispatch on the event type; unsupported types, and pull requests
      (which are only logged), change nothing. */
  method HandleEvent(eventType: string, payload: map<string, Json>, decoders: Decoders,
                     installations: InstallationTable, repos: RepoTable, queue: JobQueue) returns (r: Result<()>)
    requires repos.Valid()
    modifies installations, repos, queue
    ensures repos.Valid() && queue.asyncRedis == old(queue.asyncRedis)
    ensures eventType == "installation" && decoders.installation(payload).Err? ==> r == Err(decoders.installation(payload).error)
    ensures eventType == "installation_repositories" && decoders.installationRepositories(payload).Err? ==>
      r == Err(decoders.installationRepositories(payload).error)
    ensures eventType == "push" && decoders.push(payload).Err? ==> r == Err(decoders.push(payload).error)
    ensures eventType == "pull_request" ==> r == decoders.pullRequest(payload)
    ensures eventType !in {"installation", "installation_repositories", "push"} ==>
      installations.rows == old(installations.rows) && repos.rows == old(repos.rows) && queue.jobs == old(queue.jobs)
    ensures eventType !in {"installation", "installation_repositories", "push", "pull_request"} ==> r.Ok?
  {
    if eventType == "installation" {
      var ev := decoders.installation(payload);
      if ev.Err? {
        return Err(ev.error);
      }
      r := HandleInstallation(ev.value, installations, repos, queue);
    } else if eventType == "installation_repositories" {
      var ev := decoders.installationRepositories(payload);
      if ev.Err? {
        return Err(ev.error);
      }
      r := HandleInstallationRepositories(ev.value, repos, queue);
    } else if eventType == "push" {
      var ev := decoders.push(payload);
      if ev.Err? {
        return Err(ev.error);
      }
      r := HandlePush(ev.value, repos, queue);
    } else if eventType == "pull_request" {
      r := decoders.pullRequest(payload);
    } else {
      r := Ok(());
    }
  }

  // ------------------------------------------------------------ intake

  /** A header's value, `""` when it is missing or empty. */
  function HeaderOr(header: Option<string>): (v: string)
    ensures header.Some? ==> v == header.value
    ensures header.None? ==> v == ""
  {
    if header.Some? then header.value else ""
  }

  /** The reply to a delivery handled now. */
  function ProcessedMessage(eventType: string): string {
    "Webhook " + eventType + " processed successfully"
  }

  const AlreadyProcessed: string := "Webhook already processed"

  /** The HTTP 500 a failing handler turns into. */
  function ProcessingFailed(e: Error): Error {
    HttpError(500, "Webhook processing failed: " + ErrorText(e))
  }

  /** Every delivery without an `X-GitHub-Delivery` header is filed under
      the same id, so once one is processed the others read as duplicates. */
  lemma HeaderlessDeliveriesShareId(events: map<string, EventRow>)
    requires "" in events && events[""].processed
    ensures HeaderOr(None) == HeaderOr(Some("")) == ""
    ensures HeaderOr(None) in events && events[HeaderOr(None)].processed
  {
  }

  /** `github_webhook`. The signature is checked first (failing with 401);
      a delivery already processed is acknowledged with nothing stored or
      dispatched; otherwise the event is stored (once: a redelivery keeps
      the stored row), dispatched, and marked processed only when its
      handler returned, a failing handler turning into HTTP 500 and
      leaving the delivery to be handled again. */
  method GithubWebhook(verifier: WebhookVerifier, body: seq<byte>, signature: Option<string>, eventHeader: Option<string>,
                       deliveryHeader: Option<string>, hex: Digest -> string, parse: seq<byte> -> Option<Json>,
                       decoders: Decoders, events: WebhookEventTable, installations: InstallationTable,
                       repos: RepoTable, queue: JobQueue, now: nat) returns (r: Result<string>)
    requires repos.Valid()
    modifies events, installations, repos, queue
    ensures repos.Valid()
    ensures VerifyRequest(verifier, body, signature, hex).Err? ==>
      r == Err(VerifyRequest(verifier, body, signature, hex).error) && events.rows == old(events.rows)
    ensures VerifyRequest(verifier, body, signature, hex).Ok? && parse(body).None? ==>
      r.Err? && r.error.ValueError? && events.rows == old(events.rows)
    ensures VerifyRequest(verifier, body, signature, hex).Ok? && parse(body).Some?
            && old(events.IsProcessed(HeaderOr(deliveryHeader))) ==>
      && r == Ok(AlreadyProcessed) && events.rows == old(events.rows)
      && installations.rows == old(installations.rows) && repos.rows == old(repos.rows) && queue.jobs == old(queue.jobs)
    ensures r.Ok? && r.value != AlreadyProcessed ==>
      && r.value == ProcessedMessage(HeaderOr(eventHeader))
      && HeaderOr(deliveryHeader) in events.rows && events.rows[HeaderOr(deliveryHeader)].processed
    ensures r.Ok? ==> VerifyRequest(verifier, body, signature, hex).Ok?
    ensures r.Err? && r.error.HttpError? && r.error.status == 500 ==>
      HeaderOr(deliveryHeader) in events.rows && !events.rows[HeaderOr(deliveryHeader)].processed
  {
    var verified := VerifyRequest(verifier, body, signature, hex);
    if verified.Err? {
      return Err(verified.error);
    }
    var payload := parse(verified.value);
    if payload.None? {
      return Err(ValueError("Expecting value"));
    }
    var eventType := HeaderOr(eventHeader);
    var deliveryId := HeaderOr(deliveryHeader);
    if events.IsProcessed(deliveryId) {
      return Ok(AlreadyProcessed);
    }
    if !payload.value.JObject? {
      return Err(AttributeError("'" + "payload" + "' has no attribute 'get'"));
    }
    var stored := events.Insert(deliveryId, eventType, payload.value.fields);
    if stored.Err? {
      return Err(stored.error);
    }
    assert deliveryId in events.rows && !events.rows[deliveryId].processed;
    var handled := HandleEvent(eventType, payload.value.fields, decoders, installations, repos, queue);
    if handled.Err? {
      return Err(ProcessingFailed(handled.error));
    }
    events.MarkProcessed(deliveryId, now);
    r := Ok(ProcessedMessage(eventType));
  }
}
