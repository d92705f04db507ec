/** Where a claim came from: the READY handler's reads of the agent and of the queue, in every run. */
module ClaimTrace {
  import opened Previews
  import opened Queries
  import opened Hub
  import opened DispatchSafety
  import Dispatch

  ghost predicate Reached(actions: seq<Action>, i: nat) { i <= |actions| && After(actions[..i]).Some? }

  /** Action i is thread t reading its agent, whose labels are these. */
  ghost predicate ReadLabels(actions: seq<Action>, i: nat, t: nat, agent: string, labels: seq<string>) {
    && i < |actions| && Reached(actions, i) && actions[i] == ReadAgent(t)
    && (var db := DbOf(After(actions[..i]).value); agent in db.agents && db.agents[agent] == labels)
  }

  /** Action i is thread t listing the queue and keeping exactly the listed rows whose labels the agent has. */
  ghost predicate ListedQueue(actions: seq<Action>, i: nat, t: nat, labels: seq<string>, matched: seq<string>) {
    && i < |actions| && Reached(actions, i) && actions[i].ListQueued? && actions[i].tid == t
    && (var db := DbOf(After(actions[..i]).value);
        && IsOldestQueued(db, actions[i].found)
        && (forall id | id in matched :: id in QueuedIds(db))
        && (forall id :: id in matched <==> id in actions[i].found && id in db.rows && LabelsMatch(db.rows[id].labels, labels)))
  }

  ghost predicate Traced(actions: seq<Action>, t: nat, th: Thread) {
    match th
    case Listing(agent, labels) => exists h: nat :: ReadLabels(actions, h, t, agent, labels)
    case Matching(agent, matched) =>
      exists h: nat, i: nat, labels :: h < i && ReadLabels(actions, h, t, agent, labels) && ListedQueue(actions, i, t, labels, matched)
    case _ => true
  }

  lemma Longer(actions: seq<Action>, i: nat)
    requires actions != [] && i <= |Front(actions)|
    ensures Front(actions)[..i] == actions[..i]
  {
  }

  lemma StaysTraced(actions: seq<Action>, t: nat, th: Thread)
    requires actions != [] && Traced(Front(actions), t, th)
    ensures Traced(actions, t, th)
  {
    hide After, LabelsMatch, IsOldestQueued;
    match th
    case Listing(agent, labels) =>
      var h: nat :| ReadLabels(Front(actions), h, t, agent, labels);
      Longer(actions, h);
      assert ReadLabels(actions, h, t, agent, labels);
    case Matching(agent, matched) =>
      var h: nat, i: nat, labels :| h < i && ReadLabels(Front(actions), h, t, agent, labels) && ListedQueue(Front(actions), i, t, labels, matched);
      Longer(actions, h);
      Longer(actions, i);
      assert ReadLabels(actions, h, t, agent, labels) && ListedQueue(actions, i, t, labels, matched);
    case _ =>
  }

  /** Which steps lead to a listing or a match. */
  lemma ComesFrom(s: Sys, a: Action)
    requires Legal(s.ops) && Can(s, a) && !a.Restart? && !a.NewAgent? && !a.DeleteAgent?
    ensures Then(s, a).Listing? ==>
      a.ReadAgent? && Then(s, a).agent in DbOf(s).agents && DbOf(s).agents[Then(s, a).agent] == Then(s, a).labels
    ensures Then(s, a).Matching? ==>
      a.ListQueued? && s.threads[a.tid].Listing? && IsOldestQueued(DbOf(s), a.found) &&
      Then(s, a) == Matching(s.threads[a.tid].agent, Matches(DbOf(s), a.found, s.threads[a.tid].labels))
  {
    hide Replay, Matches, IsOldestQueued;
  }

  lemma NewlyListed(actions: seq<Action>, i: nat, labels: seq<string>)
    requires i < |actions| && Reached(actions, i) && actions[i].ListQueued?
    requires IsOldestQueued(DbOf(After(actions[..i]).value), actions[i].found)
    ensures ListedQueue(actions, i, actions[i].tid, labels, Matches(DbOf(After(actions[..i]).value), actions[i].found, labels))
  {
    var db := DbOf(After(actions[..i]).value);
    Dispatch.MatchesAre(db, actions[i].found, labels);
    hide After, Replay, LabelsMatch;
    assert forall id | id in actions[i].found :: id in QueuedIds(db);
  }

  lemma NewlyTraced(actions: seq<Action>, a: Action, t: nat)
    requires actions != [] && After(actions).Some? && Last(actions) == a && After(Front(actions)).Some?
    requires var s := After(Front(actions)).value;
      Can(s, a) && !a.Restart? && !a.NewAgent? && !a.DeleteAgent? && t == a.tid &&
      (t in s.threads ==> Traced(Front(actions), t, s.threads[t]))
    ensures Traced(actions, t, Then(After(Front(actions)).value, a))
  {
    var s := After(Front(actions)).value;
    var n := |actions| - 1;
    ComesFrom(s, a);
    assert actions[..n] == Front(actions) && actions[n] == a;
    assert Reached(actions, n);
    hide After, Replay, Can, Matches, IsOldestQueued, LabelsMatch;
    var th := Then(s, a);
    hide Then;
    match th
    case Listing(agent, labels) => assert ReadLabels(actions, n, t, agent, labels);
    case Matching(agent, matched) =>
      var labels := s.threads[t].labels;
      var h: nat :| ReadLabels(Front(actions), h, t, agent, labels);
      Longer(actions, h);
      assert ReadLabels(actions, h, t, agent, labels);
      NewlyListed(actions, n, labels);
      hide ListedQueue, ReadLabels;
      assert ListedQueue(actions, n, t, labels, matched);
    case _ =>
  }

  lemma {:induction false} AlwaysTraced(actions: seq<Action>, t: nat)
    requires After(actions).Some? && t in After(actions).value.threads
    ensures Traced(actions, t, After(actions).value.threads[t])
  {
    if actions == [] {
    } else {
      LastAction(actions);
      var s, a := After(Front(actions)).value, Last(actions);
      if t in s.threads { AlwaysTraced(Front(actions), t); }
      hide After, Replay, Can, Then, OpOf, Traced;
      if !a.Restart? && !a.NewAgent? && !a.DeleteAgent? && a.tid == t {
        NewlyTraced(actions, a, t);
      } else {
        StaysTraced(actions, t, s.threads[t]);
      }
    }
  }

  // ---------- every claim ----------

  /** Action j commits operation k. */
  ghost predicate Commits(actions: seq<Action>, j: nat, k: nat, op: Op) {
    && j < |actions| && Reached(actions, j)
    && (var s := After(actions[..j]).value; Can(s, actions[j]) && OpOf(s, actions[j]) == Some(op) && |s.ops| == k)
  }

  lemma NextCommits(s: Sys, a: Action)
    requires Legal(s.ops) && Can(s, a)
    ensures Next(s, a).ops == if OpOf(s, a).Some? then s.ops + [OpOf(s, a).value] else s.ops
  {
    hide Replay, OpOf, Can, Then;
  }

  lemma {:induction false} OpHasAction(actions: seq<Action>, k: nat)
    requires After(actions).Some? && k < |After(actions).value.ops|
    ensures exists j: nat :: Commits(actions, j, k, After(actions).value.ops[k])
    decreases |actions|
  {
    hide Replay, Can, OpOf, Then, Commits;
    if actions == [] {
    } else {
      LastAction(actions);
      var s, a := After(Front(actions)).value, Last(actions);
      NextCommits(s, a);
      hide After, Next;
      if k < |s.ops| {
        OpHasAction(Front(actions), k);
        var j: nat :| Commits(Front(actions), j, k, s.ops[k]);
        StillCommits(actions, j, k, s.ops[k]);
        assert After(actions).value.ops[k] == s.ops[k];
      } else {
        LastCommits(actions, s, a);
        assert k == |s.ops| && After(actions).value.ops[k] == OpOf(s, a).value;
      }
    }
  }

  lemma StillCommits(actions: seq<Action>, j: nat, k: nat, op: Op)
    requires actions != [] && Commits(Front(actions), j, k, op)
    ensures Commits(actions, j, k, op)
  {
    hide After, Replay, Can, OpOf;
    Longer(actions, j);
  }

  lemma LastCommits(actions: seq<Action>, s: Sys, a: Action)
    requires actions != [] && a == Last(actions) && After(Front(actions)) == Some(s) && Can(s, a) && OpOf(s, a).Some?
    ensures Commits(actions, |actions| - 1, |s.ops|, OpOf(s, a).value)
  {
    hide After, Replay, Can, OpOf;
    assert actions[..|actions| - 1] == Front(actions);
  }

  /** Thread t read the agent's labels at h, listed the queue at i and claimed at j: of the rows it had matched,
      one of least creation time among those still queued. */
  ghost predicate ClaimedAfter(actions: seq<Action>, h: nat, i: nat, j: nat, k: nat, op: Op, labels: seq<string>, matched: seq<string>)
    requires op.Claim?
  {
    && h < i < j < |actions| && Commits(actions, j, k, op) && actions[j].DoClaim? && Reached(actions, j)
    && ReadLabels(actions, h, actions[j].tid, op.agent, labels)
    && ListedQueue(actions, i, actions[j].tid, labels, matched)
    && IsOldestOf(DbOf(After(actions[..j]).value), matched, op.id)
  }

  lemma ClaimAction(s: Sys, a: Action)
    requires Legal(s.ops) && Can(s, a) && OpOf(s, a).Some? && OpOf(s, a).value.Claim?
    ensures a.DoClaim? && a.tid in s.threads && s.threads[a.tid].Matching?
    ensures s.threads[a.tid].agent == OpOf(s, a).value.agent
    ensures IsOldestOf(DbOf(s), s.threads[a.tid].matched, OpOf(s, a).value.id)
  {
    hide Replay, Enabled, IsOldestOf;
    if !a.DoClaim? { ClaimsOnlyByDispatch(s, a); }
  }

  lemma CommitTraced(actions: seq<Action>, j: nat, k: nat, op: Op)
    requires After(actions).Some? && Commits(actions, j, k, op) && op.Claim?
    ensures j < |actions| && actions[j].DoClaim? && Reached(actions, j)
    ensures var s, t := After(actions[..j]).value, actions[j].tid;
      && t in s.threads && s.threads[t].Matching? && s.threads[t].agent == op.agent
      && IsOldestOf(DbOf(s), s.threads[t].matched, op.id) && Traced(actions[..j], t, s.threads[t])
  {
    ClaimAction(After(actions[..j]).value, actions[j]);
    AlwaysTraced(actions[..j], actions[j].tid);
    hide After, Replay, Can, OpOf, IsOldestOf, Traced;
  }

  lemma ReadBefore(actions: seq<Action>, j: nat, h: nat, t: nat, agent: string, labels: seq<string>)
    requires j <= |actions| && ReadLabels(actions[..j], h, t, agent, labels)
    ensures h < j && ReadLabels(actions, h, t, agent, labels)
  {
    hide After;
    assert actions[..j][..h] == actions[..h];
  }

  lemma ListedBefore(actions: seq<Action>, j: nat, i: nat, t: nat, labels: seq<string>, matched: seq<string>)
    requires j <= |actions| && ListedQueue(actions[..j], i, t, labels, matched)
    ensures i < j && ListedQueue(actions, i, t, labels, matched)
  {
    hide After, LabelsMatch, IsOldestQueued;
    assert actions[..j][..i] == actions[..i];
  }

  /** In every run, every claimed row was in the snapshot its handler had listed, queued and with labels the agent
      had when read; and at the moment of the claim it was still queued, and no matching row still queued was
      older. */
  lemma ClaimIsTraced(actions: seq<Action>, k: nat)
    requires After(actions).Some? && k in Claims(After(actions).value.ops)
    ensures exists h: nat, i: nat, j: nat, labels, matched ::
      ClaimedAfter(actions, h, i, j, k, After(actions).value.ops[k], labels, matched)
  {
    hide After, Replay, Can, OpOf, IsOldestOf, Commits, ReadLabels, ListedQueue;
    OpHasAction(actions, k);
    var op := After(actions).value.ops[k];
    var j: nat :| Commits(actions, j, k, op);
    CommitTraced(actions, j, k, op);
    var t, matched := actions[j].tid, After(actions[..j]).value.threads[actions[j].tid].matched;
    var h: nat, i: nat, labels :| h < i && ReadLabels(actions[..j], h, t, op.agent, labels) && ListedQueue(actions[..j], i, t, labels, matched);
    ReadBefore(actions, j, h, t, op.agent, labels);
    ListedBefore(actions, j, i, t, labels, matched);
    assert ClaimedAfter(actions, h, i, j, k, op, labels, matched);
  }
}
