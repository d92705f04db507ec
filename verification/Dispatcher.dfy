/** READY to JOB_ASSIGN: match, claim, add the build secrets, send. */
module Dispatch {
  import opened Previews
  import opened Queries
  import opened Hub
  import opened Store
  import opened SecretText
  import opened SecretStore

  /** The JOB_ASSIGN body. */
  datatype JobAssign = JobAssign(
    preview: string, repo: string, repoUrl: string, sha: string, branch: string, labels: seq<string>, env: Env)

  function JobFor(id: string, r: Row, env: Env): JobAssign {
    JobAssign(id, r.repo, if r.cloneUrl == "" then r.repo else r.cloneUrl, ShaText(r.sha), r.branch, r.labels, env)
  }

  method LabelsMatchLoop(preview: seq<string>, agent: seq<string>) returns (ok: bool)
    ensures ok == LabelsMatch(preview, agent)
    ensures ok <==> forall l | l in preview :: l in agent
  {
    if |preview| == 0 { return true; }
    var have: set<string> := {};
    for i := 0 to |agent|
      invariant forall l :: l in have <==> l in agent[..i]
    {
      have := have + {agent[i]};
    }
    assert agent[..|agent|] == agent;
    for i := 0 to |preview|
      invariant forall j | 0 <= j < i :: preview[j] in agent
    {
      if preview[i] !in have {
        assert preview[i] in preview;
        return false;
      }
    }
    ok := true;
  }

  class Dispatcher {
    const store: PreviewStore
    const secrets: RepoSecretStore
    var paused: bool
    /** JOB_ASSIGN attempts, as (agent, body). */
    var sent: seq<(string, JobAssign)>

    constructor (store: PreviewStore, secrets: RepoSecretStore)
      ensures this.store == store && this.secrets == secrets && !paused && sent == []
    {
      this.store, this.secrets, paused, sent := store, secrets, false, [];
    }

    method Pause()
      modifies this`paused
      ensures paused
    {
      paused := true;
    }

    /** The candidates that match, in listing order. */
    method MatchingOf(found: seq<string>, labels: seq<string>) returns (matched: seq<string>)
      requires forall id | id in found :: id in store.rows
      ensures matched == Matches(store.Tables(), found, labels)
    {
      matched := [];
      for i := 0 to |found|
        invariant matched == Matches(store.Tables(), found[..i], labels)
      {
        assert found[..i + 1] == found[..i] + [found[i]];
        assert Front(found[..i + 1]) == found[..i];
        assert found[i] in found;
        var ok := LabelsMatchLoop(store.rows[found[i]].labels, labels);
        if ok { matched := matched + [found[i]]; }
      }
      assert found[..|found|] == found;
    }

    /** The rows of the repository as a map; a store that cannot be read gives none. */
    method HydrateBuildEnv(repo: string, readFails: bool) returns (env: Env)
      ensures env == if readFails then map[] else secrets.Of(repo)
      ensures readFails ==> env == map[]
      ensures !readFails ==> forall k :: k in env <==> (repo, k) in secrets.values
      ensures !readFails ==> forall k | k in env && (repo, k) in secrets.values :: env[k] == secrets.values[(repo, k)]
    {
      env := map[];
      if readFails { return; }
      var rows := secrets.List(repo);
      for i := 0 to |rows|
        invariant env == ToEnv(rows[..i])
      {
        assert rows[..i + 1][..i] == rows[..i];
        env := env[rows[i].0 := rows[i].1];
      }
      assert rows[..|rows|] == rows;
      ListedEnv(rows, secrets.Of(repo));
      secrets.OfMeans(repo);
    }

    /** Without interference: an oldest of the matching rows among the 50 oldest queued ones is claimed
        and sent, with the repository's secrets if they can be read; nothing happens exactly when there
        is none. */
    method OnReady(agent: string, now: int, readFails: bool) returns (claimed: Option<string>, ghost found: seq<string>)
      requires store.Valid()
      modifies store, this`sent
      ensures store.Valid() && IsOldestQueued(old(store.Tables()), found)
      ensures claimed.None? ==> store.Tables() == old(store.Tables()) && sent == old(sent)
      ensures claimed.None? <==>
        paused || agent !in old(store.agents) ||
        forall c | c in found :: !LabelsMatch(old(store.rows)[c].labels, old(store.agents)[agent])
      ensures claimed.Some? ==>
        && IsBestMatch(old(store.Tables()), found, old(store.agents)[agent], claimed.value)
        && Stepped(old(store.Tables()), Op.Claim(claimed.value, agent, now), store.Tables())
        && claimed.value in store.rows
        && sent == old(sent) + [(agent, JobFor(claimed.value, store.rows[claimed.value],
                                              if readFails then map[] else secrets.Of(store.rows[claimed.value].repo)))]
      ensures claimed.None? <==>
        paused || agent !in old(store.agents) ||
        forall c | c in found && c in old(store.rows) :: exists l :: l in old(store.rows)[c].labels && l !in old(store.agents)[agent]
      ensures claimed.Some? ==>
        && claimed.value in found && claimed.value in old(store.rows) && agent in old(store.agents)
        && (forall l | l in old(store.rows)[claimed.value].labels :: l in old(store.agents)[agent])
        && (forall c | c in found && c in old(store.rows) && (forall l | l in old(store.rows)[c].labels :: l in old(store.agents)[agent]) ::
              old(store.rows)[claimed.value].createdAt <= old(store.rows)[c].createdAt)
        && store.rows == old(store.rows)[claimed.value :=
             old(store.rows)[claimed.value].(status := Assigned, agent := Some(agent), updatedAt := now)]
        && store.log == old(store.log) + [Event(claimed.value, Some(Queued), Assigned, "", now)]
      // The job sent, field by field.
      ensures claimed.Some? ==>
        && |sent| == |old(sent)| + 1 && old(sent) <= sent && sent[|old(sent)|].0 == agent
        && claimed.value in store.rows
        && var job, r := sent[|old(sent)|].1, store.rows[claimed.value];
        && job.preview == claimed.value && job.repo == r.repo && job.branch == r.branch && job.labels == r.labels
        && job.sha == (if r.sha.Some? then r.sha.value else "")
        && job.repoUrl == (if r.cloneUrl != "" then r.cloneUrl else r.repo)
        && (readFails ==> job.env == map[])
        && (!readFails ==> forall k :: k in job.env <==> (r.repo, k) in secrets.values)
        && (!readFails ==> forall k | k in job.env && (r.repo, k) in secrets.values :: job.env[k] == secrets.values[(r.repo, k)])
    {
      hide Replay, Apply, Enabled, Distinct, Matches, LabelsMatch, IsBestMatch, JobFor, IsOldestQueued;
      var candidates := store.ListQueuedForCandidates();
      found := candidates;
      claimed := None;
      if paused || agent !in store.agents { return; }
      var labels := store.agents[agent];
      var matched := MatchingOf(candidates, labels);
      MatchedMeans(store.Tables(), candidates, labels);
      if matched == [] { return; }
      assert matched[0] in matched;
      var r := store.Claim(matched, agent, now);
      claimed := Some(r.id);
      BestMeans(old(store.Tables()), found, labels, r.id);
      var env := HydrateBuildEnv(r.row.repo, readFails);
      JobMeans(r.id, r.row, env);
      sent := sent + [(agent, JobFor(r.id, r.row, env))];
    }
  }

  /** `id` is a matching candidate and no matching candidate is older. */
  predicate IsBestMatch(db: Db, found: seq<string>, labels: seq<string>, id: string) {
    && id in found && id in db.rows && LabelsMatch(db.rows[id].labels, labels)
    && forall c | c in found && c in db.rows && LabelsMatch(db.rows[c].labels, labels) ::
         db.rows[id].createdAt <= db.rows[c].createdAt
  }

  lemma JobMeans(id: string, r: Row, env: Env)
    ensures var job := JobFor(id, r, env);
      && job.preview == id && job.repo == r.repo && job.branch == r.branch && job.labels == r.labels && job.env == env
      && job.sha == (if r.sha.Some? then r.sha.value else "")
      && job.repoUrl == (if r.cloneUrl != "" then r.cloneUrl else r.repo)
  {
  }

  lemma MatchedMeans(db: Db, found: seq<string>, labels: seq<string>)
    requires forall id | id in found :: id in db.rows
    ensures var matched := Matches(db, found, labels);
      && (forall c :: c in matched <==> c in found && LabelsMatch(db.rows[c].labels, labels))
      && (matched == [] <==> forall c | c in found :: c !in matched)
      && (matched == [] <==> forall c | c in found && c in db.rows :: exists l :: l in db.rows[c].labels && l !in labels)
      && (forall c | c in matched :: forall l | l in db.rows[c].labels :: l in labels)
      && (forall c | c in found && c in db.rows && (forall l | l in db.rows[c].labels :: l in labels) :: c in matched)
  {
    MatchesAre(db, found, labels);
    hide Matches;
    if Matches(db, found, labels) != [] { assert Matches(db, found, labels)[0] in Matches(db, found, labels); }
  }

  lemma BestMeans(db: Db, found: seq<string>, labels: seq<string>, id: string)
    requires forall c | c in found :: c in db.rows
    requires IsOldestOf(db, Matches(db, found, labels), id) && forall c | c in found :: db.rows[c].status == Queued
    ensures IsBestMatch(db, found, labels, id)
  {
    MatchesAre(db, found, labels);
    hide Matches, LabelsMatch;
    assert forall c | c in found :: c in QueuedIds(db);
  }

  lemma {:induction false} MatchesAre(db: Db, found: seq<string>, labels: seq<string>)
    requires forall id | id in found :: id in db.rows
    ensures forall c :: c in Matches(db, found, labels) <==> c in found && LabelsMatch(db.rows[c].labels, labels)
  {
    if found == [] {
    } else {
      MatchesAre(db, Front(found), labels);
      assert found == Front(found) + [Last(found)];
    }
  }
}
