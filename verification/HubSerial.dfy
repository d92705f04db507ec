/** The handlers of the interleaved system are the handlers run from start to end: left undisturbed, a thread leads
    to the tables, and the job, that the handler's own contract gives. */
module HubSerial {
  import opened Previews
  import opened Queries
  import opened Hub
  import opened HubRuns
  import opened OneActive
  import AdhocRows
  import Dispatch
  import StatusUpdates
  import Sweep
  import Webhook

  function ThreadOf(a: Action): Option<nat> {
    if a.Restart? || a.NewAgent? || a.DeleteAgent? then None else Some(a.tid)
  }

  /** The steps of thread tid. */
  function Only(tid: nat): (Sys, Action) -> bool { (s, a) => ThreadOf(a) == Some(tid) }

  /** Thread tid alone takes the system from s to t. */
  ghost predicate Alone(s: Sys, t: Sys, tid: nat) {
    Legal(s.ops) && Legal(t.ops) && exists steps :: Leads(Only(tid), s, steps, t)
  }

  /** It begins at s and is done at t, where the tables are as said. */
  ghost predicate Serves(s: Sys, t: Sys, tid: nat, after: Db) {
    Alone(s, t, tid) && DbOf(t) == after && t.threads == s.threads[tid := Calling([])] && t.sent == s.sent
  }

  lemma Begin(s: Sys, tid: nat)
    requires Legal(s.ops)
    ensures Alone(s, s, tid)
  {
    assert Leads(Only(tid), s, [], s);
  }

  lemma Step(s: Sys, t: Sys, tid: nat, a: Action) returns (u: Sys)
    requires Alone(s, t, tid) && Can(t, a) && ThreadOf(a) == Some(tid)
    ensures Alone(s, u, tid) && Legal(u.ops) && u.threads == t.threads[tid := Then(t, a)] && u == Next(t, a)
    ensures DbOf(u) == if OpOf(t, a).Some? then Apply(DbOf(t), OpOf(t, a).value) else DbOf(t)
    ensures !a.Send? ==> u.sent == t.sent
  {
    u := Next(t, a);
    NextDb(t, a);
    NextThreads(t, a);
    SentBySend(t, a);
    hide Can, Next, OpOf, Then, Replay, Apply;
    var steps :| Leads(Only(tid), s, steps, t);
    LeadsOn(Only(tid), s, steps, t, a);
  }

  lemma SentBySend(t: Sys, a: Action)
    requires Legal(t.ops) && Can(t, a)
    ensures !a.Send? ==> Next(t, a).sent == t.sent
  {
    hide Can, OpOf, Then, Replay;
  }

  lemma SameThreads(threads: map<nat, Thread>, tid: nat, a: Thread, b: Thread)
    ensures threads[tid := a][tid := b] == threads[tid := b]
  {
  }

  // ---------- one call of UpdateStatus ----------

  lemma CallThen(t: Sys, tid: nat, calls: seq<Call>, now: int)
    requires Legal(t.ops) && tid in t.threads && t.threads[tid] == Calling(calls) && calls != []
    ensures var a := DoCall(tid, now);
      Can(t, a) && OpOf(t, a) == IfEnabled(DbOf(t), CallOp(calls[0], now)) && Then(t, a) == Calling(calls[1..])
  {
    hide Replay, Enabled;
  }

  function Called(db: Db, c: Call, now: int): Db {
    if Enabled(db, CallOp(c, now)) then Apply(db, CallOp(c, now)) else db
  }

  lemma OneCall(s: Sys, t: Sys, tid: nat, c: Call, now: int) returns (u: Sys)
    requires Alone(s, t, tid) && t.threads == s.threads[tid := Calling([c])] && t.sent == s.sent
    ensures Serves(s, u, tid, Called(DbOf(t), c, now))
  {
    CallThen(t, tid, [c], now);
    hide Can, Next, OpOf, Then, Replay, Enabled, Apply, Alone;
    u := Step(s, t, tid, DoCall(tid, now));
    SameThreads(s.threads, tid, Calling([c]), Calling([]));
    assert [c][1..] == [] && [c][0] == c;
  }

  // ---------- webhook events ----------

  lemma PushBegins(s: Sys, tid: nat, push: Push, active: Option<string>)
    requires Legal(s.ops) && tid !in s.threads && !push.input.adhoc && push.input.pr != 0 && Webhook.Looked(DbOf(s), push, active)
    ensures var a := OnPush(tid, push, active);
      && Can(s, a) && OpOf(s, a).None?
      && Then(s, a) == if Supersedes(DbOf(s), push, active) then Superseding(push, active.value) else Upserting(push, None)
  {
    hide Replay;
  }

  lemma SupersedeThen(t: Sys, tid: nat, push: Push, prior: string, now: int)
    requires Legal(t.ops) && tid in t.threads && t.threads[tid] == Superseding(push, prior) && prior in DbOf(t).rows
    ensures var a := DoSupersede(tid, now);
      && Can(t, a) && OpOf(t, a) == Some(SupersedeOp(push, prior, now)) && Then(t, a) == Upserting(push, Some(prior))
  {
    hide Replay;
  }

  lemma UpsertThen(t: Sys, tid: nat, push: Push, superseded: Option<string>, existing: Option<string>)
    requires Legal(t.ops) && tid in t.threads && t.threads[tid] == Upserting(push, superseded)
    requires IsUpsertLookup(DbOf(t), push.input, existing)
    ensures var a := DoUpsert(tid, existing);
      && Can(t, a) && OpOf(t, a) == UpsertOp(DbOf(t), push.input, existing)
      && Then(t, a) == AfterUpsert(DbOf(t), push, superseded, existing, OpOf(t, a).Some?)
  {
    hide Replay, UpsertOp, AfterUpsert;
  }

  lemma TailIs(db: Db, push: Push, superseded: Option<string>, existing: Option<string>, now: int)
    requires IsUpsertLookup(db, push.input, existing)
    ensures var op := UpsertOp(db, push.input, existing);
      var th := AfterUpsert(db, push, superseded, existing, op.Some?);
      && th.Calling? && |th.calls| <= 1
      && Tail(db, push, superseded, existing, now, ALL_WRITES) ==
           (var mid := if op.Some? then Apply(db, op.value) else db;
            if th.calls == [] then mid else Called(mid, th.calls[0], now))
  {
    hide Apply, Enabled;
  }

  /** Upsert, and then the reopening or the note. */
  lemma Upserts(s: Sys, t: Sys, tid: nat, push: Push, superseded: Option<string>, existing: Option<string>, now: int) returns (u: Sys)
    requires Alone(s, t, tid) && t.threads == s.threads[tid := Upserting(push, superseded)] && t.sent == s.sent
    requires IsUpsertLookup(DbOf(t), push.input, existing)
    ensures Serves(s, u, tid, Tail(DbOf(t), push, superseded, existing, now, ALL_WRITES))
  {
    UpsertThen(t, tid, push, superseded, existing);
    TailIs(DbOf(t), push, superseded, existing, now);
    hide Can, Next, OpOf, Then, Replay, Enabled, Apply, Alone, UpsertOp, AfterUpsert, Tail, IsUpsertLookup, Called;
    var a := DoUpsert(tid, existing);
    var mid := Step(s, t, tid, a);
    var th := Then(t, a);
    SameThreads(s.threads, tid, Upserting(push, superseded), th);
    if th.calls == [] {
      u := mid;
      assert th == Calling([]);
    } else {
      assert th == Calling([th.calls[0]]);
      u := OneCall(s, mid, tid, th.calls[0], now);
    }
  }

  /** opened, synchronize and reopened. */
  lemma PushIsARun(s: Sys, tid: nat, push: Push, active: Option<string>, existing: Option<string>, now: int) returns (u: Sys)
    requires Legal(s.ops) && tid !in s.threads && !push.input.adhoc && push.input.pr != 0 && Webhook.Looked(DbOf(s), push, active)
    requires IsUpsertLookup(AfterSupersede(DbOf(s), push, active, now), push.input, existing)
    ensures Serves(s, u, tid, PushResult(DbOf(s), push, active, existing, now, ALL_WRITES))
  {
    PushBegins(s, tid, push, active);
    Begin(s, tid);
    hide Can, Next, OpOf, Then, Replay, Enabled, Apply, Alone, Tail, IsUpsertLookup, Webhook.Looked;
    var t := Step(s, s, tid, OnPush(tid, push, active));
    if Supersedes(DbOf(s), push, active) {
      SupersedeThen(t, tid, push, active.value, now);
      var mid := Step(s, t, tid, DoSupersede(tid, now));
      SameThreads(s.threads, tid, Superseding(push, active.value), Upserting(push, active));
      u := Upserts(s, mid, tid, push, active, existing, now);
    } else {
      u := Upserts(s, t, tid, push, None, existing, now);
    }
  }

  // ---------- closed, and the admin's buttons ----------

  /** closed. */
  lemma CloseIsARun(s: Sys, tid: nat, repo: string, pr: int, newest: Option<string>, now: int) returns (u: Sys)
    requires Legal(s.ops) && tid !in s.threads && IsNewest(DbOf(s), PrIds(DbOf(s), repo, pr), newest)
    ensures newest.None? ==> Serves(s, u, tid, DbOf(s))
    ensures newest.Some? ==>
      && Enabled(DbOf(s), Webhook.CloseOp(newest.value, now))
      && Serves(s, u, tid, Apply(DbOf(s), Webhook.CloseOp(newest.value, now)))
  {
    var a := OnClose(tid, repo, pr, newest);
    assert Can(s, a) && OpOf(s, a).None?;
    Begin(s, tid);
    hide Can, Next, OpOf, Replay, Alone, Called;
    var t := Step(s, s, tid, a);
    if newest.Some? {
      var c := Call(newest.value, None, Teardown, "closed_via_webhook", NO_FIELDS.(error := Some("closed_via_webhook")), Closer);
      u := OneCall(s, t, tid, c, now);
      CalledIs(DbOf(s), c, now);
    } else {
      u := t;
    }
  }

  lemma CalledIs(db: Db, c: Call, now: int)
    requires c.id in db.rows && c.from.None? && NonEmpty(c.fields.sha).None? && c.fields.sha.None? && NonEmpty(c.fields.agent).None?
    ensures Enabled(db, CallOp(c, now)) && Called(db, c, now) == Apply(db, CallOp(c, now))
  {
  }

  /** The rebuild button puts a finished row back to the queue with its runtime columns reset. */
  lemma RebuildIsARun(s: Sys, tid: nat, id: string, now: int) returns (u: Sys)
    requires Legal(s.ops) && tid !in s.threads && id in DbOf(s).rows && DbOf(s).rows[id].status in {Done, Failed}
    ensures var db := DbOf(s);
      Serves(s, u, tid, db.(
        rows := db.rows[id := db.rows[id].(status := Queued, updatedAt := now, container := Some(""), host := Some(""),
                                           port := Some(0), urls := "", error := Some(""))],
        log := db.log + [Event(id, Some(db.rows[id].status), Queued, "rebuild requested via admin UI", now)]))
  {
    var a := OnRebuild(tid, id);
    assert Can(s, a) && OpOf(s, a).None?;
    Begin(s, tid);
    var c := Call(id, Some(DbOf(s).rows[id].status), Queued, "rebuild requested via admin UI", RESET_FIELDS, Caller.Rebuild);
    assert Then(s, a) == Calling([c]);
    ResetRowIs(DbOf(s), c, now);
    hide Can, Next, OpOf, Then, Replay, Alone, Called;
    var t := Step(s, s, tid, a);
    u := OneCall(s, t, tid, c, now);
  }

  lemma ResetRowIs(db: Db, c: Call, now: int)
    requires c.id in db.rows && c.from == Some(db.rows[c.id].status) && c.fields == RESET_FIELDS
    ensures Called(db, c, now) == db.(
      rows := db.rows[c.id := db.rows[c.id].(status := c.to, updatedAt := now, container := Some(""), host := Some(""),
                                             port := Some(0), urls := "", error := Some(""))],
      log := db.log + [Event(c.id, Some(db.rows[c.id].status), c.to, c.message, now)])
  {
  }

  /** The stop button tears a running row down. */
  lemma StopIsARun(s: Sys, tid: nat, id: string, now: int) returns (u: Sys)
    requires Legal(s.ops) && tid !in s.threads && id in DbOf(s).rows && DbOf(s).rows[id].status == Running
    ensures var db := DbOf(s);
      Serves(s, u, tid, db.(
        rows := db.rows[id := db.rows[id].(status := Teardown, updatedAt := now, urls := "", error := Some("stopped via admin UI"))],
        log := db.log + [Event(id, Some(Running), Teardown, "stopped via admin UI", now)]))
  {
    var a := OnStop(tid, id);
    assert Can(s, a) && OpOf(s, a).None?;
    Begin(s, tid);
    var c := Call(id, Some(Running), Teardown, "stopped via admin UI", NO_FIELDS, Caller.Stop);
    assert Then(s, a) == Calling([c]);
    PlainRowIs(DbOf(s), c, now);
    hide Can, Next, OpOf, Then, Replay, Alone, Called;
    var t := Step(s, s, tid, a);
    u := OneCall(s, t, tid, c, now);
  }

  lemma PlainRowIs(db: Db, c: Call, now: int)
    requires c.id in db.rows && c.from in {None, Some(db.rows[c.id].status)} && c.fields == NO_FIELDS && c.message != ""
    ensures Called(db, c, now) == db.(
      rows := db.rows[c.id := db.rows[c.id].(status := c.to, updatedAt := now, urls := "", error := Some(c.message))],
      log := db.log + [Event(c.id, Some(db.rows[c.id].status), c.to, c.message, now)])
  {
  }

  /** The delete button tears any row down. */
  lemma DeleteIsARun(s: Sys, tid: nat, id: string, now: int) returns (u: Sys)
    requires Legal(s.ops) && tid !in s.threads && id in DbOf(s).rows
    ensures var db := DbOf(s);
      Serves(s, u, tid, db.(
        rows := db.rows[id := db.rows[id].(status := Teardown, updatedAt := now, urls := "", error := Some("manual_teardown"))],
        log := db.log + [Event(id, Some(db.rows[id].status), Teardown, "manual_teardown", now)]))
  {
    var a := OnDelete(tid, id);
    assert Can(s, a) && OpOf(s, a).None?;
    Begin(s, tid);
    var c := Call(id, None, Teardown, "manual_teardown", NO_FIELDS, Deleter);
    assert Then(s, a) == Calling([c]);
    PlainRowIs(DbOf(s), c, now);
    hide Can, Next, OpOf, Then, Replay, Alone, Called;
    var t := Step(s, s, tid, a);
    u := OneCall(s, t, tid, c, now);
  }

  // ---------- test builds ----------

  /** A submission. */
  lemma SubmitIsARun(s: Sys, tid: nat, p: Input, newest: Option<string>, existing: Option<string>, now: int) returns (u: Sys)
    requires Legal(s.ops) && tid !in s.threads && p.adhoc && p.pr == 0 && p.labels == []
    requires IsNewest(DbOf(s), AdhocIds(DbOf(s), p.repo, p.branch), newest) && IsUpsertLookup(DbOf(s), p, existing)
    ensures Serves(s, u, tid, AdhocRows.SubmitResult(DbOf(s), p, newest, existing, now))
  {
    var db, a := DbOf(s), OnTestBuild(tid, p, newest);
    SubmissionBegins(s, tid, p, newest);
    SubmitIs(db, p, newest, existing, now);
    Begin(s, tid);
    hide Can, Next, OpOf, Then, Replay, Alone, Called, UpsertOp, IsUpsertLookup, IsNewest, Apply, Enabled, AdhocRows.SubmitResult;
    var t := Step(s, s, tid, a);
    if newest.None? {
      u := SubmitOnce(s, t, tid, p, existing);
    } else if db.rows[newest.value].status in {Done, Failed} {
      u := OneCall(s, t, tid, Requeue(db, newest.value), now);
    } else {
      u := t;
    }
  }

  lemma SubmitOnce(s: Sys, t: Sys, tid: nat, p: Input, existing: Option<string>) returns (u: Sys)
    requires Alone(s, t, tid) && t.threads == s.threads[tid := Submitting(p)] && t.sent == s.sent
    requires IsUpsertLookup(DbOf(t), p, existing)
    ensures Serves(s, u, tid, if UpsertOp(DbOf(t), p, existing).Some? then Apply(DbOf(t), UpsertOp(DbOf(t), p, existing).value) else DbOf(t))
  {
    SubmitThen(t, tid, p, existing);
    hide Can, Next, OpOf, Then, Replay, Alone, UpsertOp, IsUpsertLookup, Apply;
    u := Step(s, t, tid, DoSubmit(tid, existing));
    SameThreads(s.threads, tid, Submitting(p), Calling([]));
  }

  function Requeue(db: Db, id: string): Call
    requires id in db.rows
  { Call(id, Some(db.rows[id].status), Queued, "re-queued by test build", RESET_FIELDS, TestBuild) }

  lemma SubmissionBegins(s: Sys, tid: nat, p: Input, newest: Option<string>)
    requires Legal(s.ops) && tid !in s.threads && p.adhoc && p.pr == 0 && p.labels == []
    requires IsNewest(DbOf(s), AdhocIds(DbOf(s), p.repo, p.branch), newest)
    ensures newest.Some? ==> newest.value in DbOf(s).rows
    ensures var a := OnTestBuild(tid, p, newest);
      Can(s, a) && OpOf(s, a).None? &&
      Then(s, a) == if newest.None? then Submitting(p)
        else if DbOf(s).rows[newest.value].status in {Done, Failed} then Calling([Requeue(DbOf(s), newest.value)]) else Calling([])
  {
    hide Replay;
  }

  lemma SubmitThen(t: Sys, tid: nat, p: Input, existing: Option<string>)
    requires Legal(t.ops) && tid in t.threads && t.threads[tid] == Submitting(p) && IsUpsertLookup(DbOf(t), p, existing)
    ensures var a := DoSubmit(tid, existing);
      Can(t, a) && OpOf(t, a) == UpsertOp(DbOf(t), p, existing) && Then(t, a) == Calling([])
  {
    hide Replay, UpsertOp;
  }

  lemma SubmitIs(db: Db, p: Input, newest: Option<string>, existing: Option<string>, now: int)
    requires IsUpsertLookup(db, p, existing) && (newest.Some? ==> newest.value in db.rows)
    ensures AdhocRows.SubmitResult(db, p, newest, existing, now) ==
      if newest.None? then (if UpsertOp(db, p, existing).Some? then Apply(db, UpsertOp(db, p, existing).value) else db)
      else if db.rows[newest.value].status in {Done, Failed} then Called(db, Requeue(db, newest.value), now) else db
  {
    hide Apply, Enabled;
  }

  // ---------- status reports ----------

  function Reported(db: Db, agent: string, r: Report, now: int): Db {
    if Enabled(db, ReportOp(agent, r, now)) then Apply(db, ReportOp(agent, r, now)) else db
  }

  predicate Mismatches(db: Db, agent: string, r: Report) {
    UpdateOutcome(db, r.id, None, ReportFields(agent, r)) == ShaMismatch
  }

  lemma ReportThen(t: Sys, tid: nat, agent: string, r: Report, now: int)
    requires Legal(t.ops) && tid in t.threads && t.threads[tid] == Reporting(agent, r)
    ensures var a := DoReport(tid, now);
      Can(t, a) && OpOf(t, a) == IfEnabled(DbOf(t), ReportOp(agent, r, now)) &&
      Then(t, a) == if Mismatches(DbOf(t), agent, r)
        then Reporting(agent, r.(sha := None)) else Calling([])
  {
    hide Replay, Enabled, UpdateOutcome;
  }

  lemma ReportOnce(s: Sys, t: Sys, tid: nat, agent: string, r: Report, now: int) returns (u: Sys)
    requires Alone(s, t, tid) && t.threads == s.threads[tid := Reporting(agent, r)] && t.sent == s.sent
    ensures Alone(s, u, tid) && DbOf(u) == Reported(DbOf(t), agent, r, now) && u.sent == s.sent
    ensures u.threads == s.threads[tid := if Mismatches(DbOf(t), agent, r) then Reporting(agent, r.(sha := None)) else Calling([])]
  {
    ReportThen(t, tid, agent, r, now);
    hide Can, Next, OpOf, Then, Replay, Alone, Apply, Enabled, Mismatches, ReportFields;
    u := Step(s, t, tid, DoReport(tid, now));
    SameThreads(s.threads, tid, Reporting(agent, r), u.threads[tid]);
  }

  /** STATUS_UPDATE, with its retry. */
  lemma ReportIsARun(s: Sys, tid: nat, agent: string, r: Report, now: int, later: int) returns (u: Sys)
    requires Legal(s.ops) && tid !in s.threads && agent != "" && r.status in {Building, Running, Failed, Done}
    ensures var db, settled := DbOf(s), StatusUpdates.Settled(DbOf(s), r);
      var op := ReportOp(agent, settled, if settled == r then now else later);
      Serves(s, u, tid, if Enabled(db, op) then Apply(db, op) else db)
  {
    var db, a := DbOf(s), OnReport(tid, agent, r);
    assert Can(s, a) && OpOf(s, a).None? && Then(s, a) == Reporting(agent, r);
    SettledIs(db, agent, r, now);
    Begin(s, tid);
    hide Can, Next, OpOf, Then, Replay, Alone, Apply, Enabled, Mismatches, ReportFields, StatusUpdates.Settled;
    var t := Step(s, s, tid, a);
    u := ReportOnce(s, t, tid, agent, r, now);
    if Mismatches(db, agent, r) { u := ReportOnce(s, u, tid, agent, r.(sha := None), later); }
  }

  lemma SettledIs(db: Db, agent: string, r: Report, now: int)
    ensures var mismatch := Mismatches(db, agent, r);
      && StatusUpdates.Settled(db, r) == (if mismatch then r.(sha := None) else r)
      && (mismatch ==> !Enabled(db, ReportOp(agent, r, now)) && r.sha.Some?)
      && !Mismatches(db, agent, r.(sha := None))
  {
  }

  // ---------- READY ----------

  lemma ReadySteps(t: Sys, tid: nat, agent: string)
    requires Legal(t.ops) && tid in t.threads && t.threads[tid] == Ready(agent) && agent in DbOf(t).agents
    ensures var a := ReadAgent(tid);
      Can(t, a) && OpOf(t, a).None? && Then(t, a) == Listing(agent, DbOf(t).agents[agent])
  {
    hide Replay;
  }

  lemma ListSteps(t: Sys, tid: nat, agent: string, labels: seq<string>, found: seq<string>)
    requires Legal(t.ops) && tid in t.threads && t.threads[tid] == Listing(agent, labels) && IsOldestQueued(DbOf(t), found)
    ensures forall c | c in found :: c in DbOf(t).rows
    ensures var a := ListQueued(tid, found);
      Can(t, a) && OpOf(t, a).None? && Then(t, a) == Matching(agent, Matches(DbOf(t), found, labels))
  {
    hide Replay, Matches;
  }

  lemma ClaimSteps(t: Sys, tid: nat, agent: string, matched: seq<string>, id: string, now: int)
    requires Legal(t.ops) && tid in t.threads && t.threads[tid] == Matching(agent, matched)
    requires IsOldestOf(DbOf(t), matched, id) && agent in DbOf(t).agents
    ensures var a := DoClaim(tid, Some(id), now);
      Can(t, a) && OpOf(t, a) == Some(Claim(id, agent, now)) && Then(t, a) == Sending(agent, id, |t.ops|)
  {
    hide Replay;
  }

  lemma SendSteps(t: Sys, tid: nat, agent: string, id: string, k: nat)
    requires Legal(t.ops) && tid in t.threads && t.threads[tid] == Sending(agent, id, k)
    ensures var a := Send(tid);
      Can(t, a) && OpOf(t, a).None? && Then(t, a) == Calling([]) && Next(t, a).sent == t.sent + [Attempt(k, agent, id)]
  {
    hide Replay;
  }

  lemma BestIsOldest(db: Db, found: seq<string>, labels: seq<string>, id: string)
    requires IsOldestQueued(db, found) && (forall c | c in found :: c in db.rows) && Dispatch.IsBestMatch(db, found, labels, id)
    ensures IsOldestOf(db, Matches(db, found, labels), id)
  {
    Dispatch.MatchesAre(db, found, labels);
    hide Matches, LabelsMatch;
  }

  /** Up to the list of matching rows. */
  lemma Matched(s: Sys, tid: nat, agent: string, found: seq<string>) returns (t: Sys)
    requires Legal(s.ops) && tid !in s.threads && agent in DbOf(s).agents && IsOldestQueued(DbOf(s), found)
    ensures Alone(s, t, tid) && t.ops == s.ops && t.sent == s.sent && forall c | c in found :: c in DbOf(s).rows
    ensures t.threads == s.threads[tid := Matching(agent, Matches(DbOf(s), found, DbOf(s).agents[agent]))]
  {
    var labels := DbOf(s).agents[agent];
    Begin(s, tid);
    assert Can(s, OnReady(tid, agent)) && OpOf(s, OnReady(tid, agent)).None? && Then(s, OnReady(tid, agent)) == Ready(agent);
    hide Can, OpOf, Then, Replay, Alone, Apply, Matches, IsOldestQueued, Enabled, Next;
    t := Step(s, s, tid, OnReady(tid, agent));
    Reads(s, t, OnReady(tid, agent));
    ReadySteps(t, tid, agent);
    var t2 := Step(s, t, tid, ReadAgent(tid));
    Reads(t, t2, ReadAgent(tid));
    SameThreads(s.threads, tid, Ready(agent), Listing(agent, labels));
    t := t2;
    ListSteps(t, tid, agent, labels, found);
    var t3 := Step(s, t, tid, ListQueued(tid, found));
    Reads(t, t3, ListQueued(tid, found));
    SameThreads(s.threads, tid, Listing(agent, labels), Matching(agent, Matches(DbOf(s), found, labels)));
    t := t3;
  }

  lemma Reads(t: Sys, u: Sys, a: Action)
    requires Legal(t.ops) && Can(t, a) && OpOf(t, a).None? && u == Next(t, a)
    ensures u.ops == t.ops
  {
    hide Can, OpOf, Then, Replay;
  }

  /** READY, when one of the oldest queued rows matches: the claim the dispatcher makes, and one send for it. */
  lemma ReadyIsARun(s: Sys, tid: nat, agent: string, found: seq<string>, id: string, now: int) returns (u: Sys)
    requires Legal(s.ops) && tid !in s.threads && agent in DbOf(s).agents && IsOldestQueued(DbOf(s), found)
    requires Dispatch.IsBestMatch(DbOf(s), found, DbOf(s).agents[agent], id)
    ensures Enabled(DbOf(s), Claim(id, agent, now))
    ensures Alone(s, u, tid) && DbOf(u) == Apply(DbOf(s), Claim(id, agent, now))
    ensures u.threads == s.threads[tid := Calling([])] && u.sent == s.sent + [Attempt(|s.ops|, agent, id)]
  {
    hide Replay, Apply, Matches, IsOldestQueued, Dispatch.IsBestMatch, IsOldestOf, Enabled, Leads;
    var t := Matched(s, tid, agent, found);
    BestIsOldest(DbOf(s), found, DbOf(s).agents[agent], id);
    u := Claims(s, t, tid, agent, Matches(DbOf(s), found, DbOf(s).agents[agent]), id, now);
  }

  lemma Claims(s: Sys, t: Sys, tid: nat, agent: string, matched: seq<string>, id: string, now: int) returns (u: Sys)
    requires Alone(s, t, tid) && tid in t.threads && t.threads == s.threads[tid := Matching(agent, matched)]
    requires t.ops == s.ops && t.sent == s.sent && IsOldestOf(DbOf(t), matched, id) && agent in DbOf(t).agents
    ensures Enabled(DbOf(t), Claim(id, agent, now))
    ensures Alone(s, u, tid) && DbOf(u) == Apply(DbOf(t), Claim(id, agent, now))
    ensures u.threads == s.threads[tid := Calling([])] && u.sent == s.sent + [Attempt(|s.ops|, agent, id)]
  {
    ClaimSteps(t, tid, agent, matched, id, now);
    hide Can, OpOf, Then, Replay, Alone, Apply, IsOldestOf, Enabled, Next;
    var mid := Step(s, t, tid, DoClaim(tid, Some(id), now));
    SendSteps(mid, tid, agent, id, |s.ops|);
    u := Step(s, mid, tid, Send(tid));
    SameThreads(s.threads, tid, Matching(agent, matched), Sending(agent, id, |s.ops|));
    SameThreads(s.threads, tid, Sending(agent, id, |s.ops|), Calling([]));
  }

  // ---------- sweeps ----------

  /** The calls still to be made, each with the status its row was listed with. */
  ghost predicate Sweeps(before: Db, ids: seq<string>, calls: seq<Call>, to: Status, message: string, caller: Caller) {
    && Distinct(ids) && |calls| == |ids|
    && forall i | 0 <= i < |ids| ::
         ids[i] in before.rows && calls[i] == Call(ids[i], Some(before.rows[ids[i]].status), to, message, NO_FIELDS, caller)
  }

  /** The rows in `done` are swept. */
  ghost predicate SweptTo(before: Db, db: Db, done: set<string>, to: Status, message: string, now: int) {
    && db.agents == before.agents && db.rows == Sweep.Swept(before.rows, done, to, message, now)
    && Sweep.SweptLog(before.rows, done, before.log, db.log, to, message, now)
  }

  lemma SweepOne(before: Db, db: Db, done: set<string>, id: string, to: Status, message: string, now: int, caller: Caller)
    requires SweptTo(before, db, done, to, message, now) && id in before.rows && id !in done
    ensures SweptTo(before, Called(db, Call(id, Some(before.rows[id].status), to, message, NO_FIELDS, caller), now), done + {id}, to, message, now)
  {
    Sweep.SweepNext(before.rows, done, to, message, now, id);
    Sweep.LogNext(before.rows, done, before.log, db.log, to, message, now, id);
    assert db.rows[id] == before.rows[id];
    hide Sweep.Swept, Sweep.SweptLog;
  }

  /** However many calls, one after the other. */
  lemma {:induction false} SweepRuns(s: Sys, t: Sys, tid: nat, before: Db, ids: seq<string>, calls: seq<Call>, done: set<string>,
                                     to: Status, message: string, caller: Caller, now: int) returns (u: Sys)
    requires Legal(t.ops) && Alone(s, t, tid) && t.threads == s.threads[tid := Calling(calls)] && t.sent == s.sent
    requires Sweeps(before, ids, calls, to, message, caller) && (forall id | id in ids :: id !in done)
    requires SweptTo(before, DbOf(t), done, to, message, now)
    ensures Alone(s, u, tid) && u.threads == s.threads[tid := Calling([])] && u.sent == s.sent
    ensures SweptTo(before, DbOf(u), done + (set id | id in ids), to, message, now)
    decreases |ids|
  {
    hide Can, Next, OpOf, Then, Replay, Alone, Apply, Enabled, SweptTo, Called;
    if ids == [] {
      u := t;
      assert done + (set id | id in ids) == done;
    } else {
      CallThen(t, tid, calls, now);
      var mid := Step(s, t, tid, DoCall(tid, now));
      SameThreads(s.threads, tid, Calling(calls), Calling(calls[1..]));
      SweepOne(before, DbOf(t), done, ids[0], to, message, now, caller);
      StepCalled(DbOf(t), calls[0], now);
      FewerSweeps(before, ids, calls, to, message, caller, done);
      u := SweepRuns(s, mid, tid, before, ids[1..], calls[1..], done + {ids[0]}, to, message, caller, now);
      assert done + {ids[0]} + (set id | id in ids[1..]) == done + (set id | id in ids) by { FirstAndRest(ids); }
    }
  }

  lemma StepCalled(db: Db, c: Call, now: int)
    ensures Called(db, c, now) ==
      if IfEnabled(db, CallOp(c, now)).Some? then Apply(db, IfEnabled(db, CallOp(c, now)).value) else db
  {
    hide Enabled, Apply;
  }

  lemma FirstAndRest(ids: seq<string>)
    requires ids != []
    ensures (set id | id in ids) == {ids[0]} + (set id | id in ids[1..])
  {
  }

  lemma FewerSweeps(before: Db, ids: seq<string>, calls: seq<Call>, to: Status, message: string, caller: Caller, done: set<string>)
    requires Sweeps(before, ids, calls, to, message, caller) && ids != [] && forall id | id in ids :: id !in done
    ensures Sweeps(before, ids[1..], calls[1..], to, message, caller)
    ensures ids[0] in ids && ids[0] !in done && forall id | id in ids[1..] :: id !in done + {ids[0]}
  {
    forall id | id in ids[1..] ensures id != ids[0] && id in ids {
      var i :| 0 <= i < |ids[1..]| && ids[1..][i] == id;
      assert ids[i + 1] == id;
    }
  }

  lemma NothingSwept(db: Db, to: Status, message: string, now: int)
    ensures SweptTo(db, db, {}, to, message, now)
  {
    Sweep.SweepNone(db.rows, to, message, now);
    Sweep.LogNone(db.rows, db.log, to, message, now);
    hide Sweep.Swept, Sweep.SweptLog;
  }

  /** A sweep from its listing to its last call. */
  lemma SweepIsARun(s: Sys, tid: nat, a: Action, ids: seq<string>, calls: seq<Call>, to: Status, message: string, caller: Caller, now: int)
    returns (u: Sys)
    requires Legal(s.ops) && tid !in s.threads && Can(s, a) && ThreadOf(a) == Some(tid) && !a.Send? && OpOf(s, a).None?
    requires Then(s, a) == Calling(calls) && Sweeps(DbOf(s), ids, calls, to, message, caller)
    ensures Alone(s, u, tid) && u.threads == s.threads[tid := Calling([])] && u.sent == s.sent
    ensures SweptTo(DbOf(s), DbOf(u), (set id | id in ids), to, message, now)
  {
    hide Can, OpOf, Then, Replay, Alone, SweptTo, Sweeps;
    var t := Opens(s, tid, a);
    NothingSwept(DbOf(s), to, message, now);
    u := SweepRuns(s, t, tid, DbOf(s), ids, calls, {}, to, message, caller, now);
    NothingMore(set id | id in ids);
  }

  lemma NothingMore(ids: set<string>)
    ensures {} + ids == ids
  {
  }

  /** A handler's first step, which only reads. */
  lemma Opens(s: Sys, tid: nat, a: Action) returns (t: Sys)
    requires Legal(s.ops) && tid !in s.threads && Can(s, a) && ThreadOf(a) == Some(tid) && !a.Send? && OpOf(s, a).None?
    ensures Legal(t.ops) && Alone(s, t, tid) && DbOf(t) == DbOf(s) && t.threads == s.threads[tid := Then(s, a)] && t.sent == s.sent
  {
    Begin(s, tid);
    hide Can, Next, OpOf, Then, Replay, Alone;
    t := Step(s, s, tid, a);
  }

  /** One reconciler cycle. */
  lemma TickIsARun(s: Sys, tid: nat, cutoff: int, stale: seq<string>, now: int) returns (u: Sys)
    requires Legal(s.ops) && tid !in s.threads && IsListing(StaleIds(DbOf(s), cutoff), stale)
    ensures Alone(s, u, tid) && u.threads == s.threads[tid := Calling([])] && u.sent == s.sent
    ensures SweptTo(DbOf(s), DbOf(u), StaleIds(DbOf(s), cutoff), Queued, "reconciliation: stale assigned", now)
  {
    var a := OnTick(tid, cutoff, stale);
    assert Can(s, a) && OpOf(s, a).None? && Then(s, a) == Calling(TickCalls(stale));
    TickSweeps(DbOf(s), cutoff, stale);
    hide Can, OpOf, Then, Replay, Sweeps, SweptTo;
    u := SweepIsARun(s, tid, a, stale, TickCalls(stale), Queued, "reconciliation: stale assigned", Reconciler, now);
    assert (set id | id in stale) == StaleIds(DbOf(s), cutoff);
  }

  lemma TickSweeps(db: Db, cutoff: int, stale: seq<string>)
    requires IsListing(StaleIds(db, cutoff), stale)
    ensures Sweeps(db, stale, TickCalls(stale), Queued, "reconciliation: stale assigned", Reconciler)
  {
    forall i | 0 <= i < |stale| ensures stale[i] in db.rows && db.rows[stale[i]].status == Assigned { assert stale[i] in stale; }
  }

  /** The held rows that were not reported, in listing order. */
  function Lost(held: seq<string>, reported: set<string>): seq<string> {
    if held == [] then [] else Lost(Front(held), reported) + if Last(held) in reported then [] else [Last(held)]
  }

  lemma {:induction false} LostSweeps(db: Db, held: seq<string>, reported: set<string>)
    requires Distinct(held) && forall id | id in held :: id in db.rows
    ensures Sweeps(db, Lost(held, reported), HelloCalls(db, held, reported), Failed, "agent restart lost container", Caller.Hello)
    ensures forall id :: id in Lost(held, reported) <==> id in held && id !in reported
  {
    if held == [] {
    } else {
      LostSweeps(db, Front(held), reported);
      LastIsNew(held);
      assert held == Front(held) + [Last(held)];
      assert Last(held) !in Lost(Front(held), reported);
    }
  }

  lemma LastIsNew(ids: seq<string>)
    requires Distinct(ids) && ids != []
    ensures Distinct(Front(ids)) && Last(ids) !in Front(ids) && Last(ids) in ids
  {
  }

  /** The database side of HELLO. */
  lemma HelloIsARun(s: Sys, tid: nat, agent: string, reported: set<string>, held: seq<string>, now: int) returns (u: Sys)
    requires Legal(s.ops) && tid !in s.threads && IsListing(HeldIds(DbOf(s), agent, HELLO_STATUSES), held)
    ensures Alone(s, u, tid) && u.threads == s.threads[tid := Calling([])] && u.sent == s.sent
    ensures SweptTo(DbOf(s), DbOf(u), HeldIds(DbOf(s), agent, HELLO_STATUSES) - reported, Failed, "agent restart lost container", now)
  {
    var db, a := DbOf(s), OnHello(tid, agent, reported, held);
    assert forall id | id in held :: id in db.rows;
    assert Can(s, a) && OpOf(s, a).None? && Then(s, a) == Calling(HelloCalls(db, held, reported));
    LostSweeps(db, held, reported);
    hide Can, OpOf, Then, Replay, Sweeps, SweptTo, Lost, HelloCalls;
    u := SweepIsARun(s, tid, a, Lost(held, reported), HelloCalls(db, held, reported), Failed, "agent restart lost container",
                     Caller.Hello, now);
    assert (set id | id in Lost(held, reported)) == HeldIds(db, agent, HELLO_STATUSES) - reported;
  }

  /** The button that tears down every row an agent holds. */
  lemma TeardownsIsARun(s: Sys, tid: nat, agent: string, held: seq<string>, now: int) returns (u: Sys)
    requires Legal(s.ops) && tid !in s.threads && IsListing(HeldIds(DbOf(s), agent, {Assigned, Building, Running}), held)
    ensures Alone(s, u, tid) && u.threads == s.threads[tid := Calling([])] && u.sent == s.sent
    ensures SweptTo(DbOf(s), DbOf(u), HeldIds(DbOf(s), agent, {Assigned, Building, Running}), Teardown,
                    "manual teardown via admin UI", now)
  {
    var db, a := DbOf(s), OnTeardowns(tid, agent, held);
    assert forall id | id in held :: id in db.rows;
    assert Can(s, a) && OpOf(s, a).None? && Then(s, a) == Calling(TeardownCalls(db, held));
    TeardownSweeps(db, held);
    hide Can, OpOf, Then, Replay, Sweeps, SweptTo, TeardownCalls;
    u := SweepIsARun(s, tid, a, held, TeardownCalls(db, held), Teardown, "manual teardown via admin UI", Teardowns, now);
    assert (set id | id in held) == HeldIds(db, agent, {Assigned, Building, Running});
  }

  lemma TeardownSweeps(db: Db, held: seq<string>)
    requires Distinct(held) && forall id | id in held :: id in db.rows
    ensures Sweeps(db, held, TeardownCalls(db, held), Teardown, "manual teardown via admin UI", Teardowns)
  {
    forall i | 0 <= i < |held| ensures held[i] in db.rows { assert held[i] in held; }
  }

  // ---------- the hub's own steps ----------

  /** A restart ends every handler, puts every assigned row back to the queue, and no other row changes. */
  lemma RestartMeans(s: Sys, ids: seq<string>, now: int)
    requires Legal(s.ops) && Can(s, Restart(ids, now))
    ensures var t := Next(s, Restart(ids, now));
      && Legal(t.ops) && t.threads == map[] && t.sent == s.sent
      && DbOf(t).rows.Keys == DbOf(s).rows.Keys
      && (forall id | id in DbOf(s).rows ::
            DbOf(t).rows[id] == if DbOf(s).rows[id].status != Assigned then DbOf(s).rows[id]
              else DbOf(s).rows[id].(status := Queued, agent := None, updatedAt := now))
      && (forall k: nat :: k in t.cut <==>
            k in s.cut || exists tid :: tid in s.threads && s.threads[tid].Sending? && s.threads[tid].k == k)
  {
    NextDb(s, Restart(ids, now));
    RestartIs(s, ids, now);
    hide Can, Replay, Enabled;
  }

  lemma RestartIs(s: Sys, ids: seq<string>, now: int)
    requires Legal(s.ops) && Can(s, Restart(ids, now))
    ensures OpOf(s, Restart(ids, now)) == Some(Reset(ids, now))
  {
    hide Replay, Enabled;
  }

  /** An agent that is deleted is gone from the rows it was assigned, and nothing else changes. */
  lemma DeleteAgentMeans(s: Sys, agent: string)
    requires Legal(s.ops) && Can(s, DeleteAgent(agent))
    ensures var t := Next(s, DeleteAgent(agent));
      && Legal(t.ops) && t.threads == s.threads && DbOf(t).agents == DbOf(s).agents - {agent} && DbOf(t).log == DbOf(s).log
      && DbOf(t).rows.Keys == DbOf(s).rows.Keys
      && (forall id | id in DbOf(s).rows ::
            DbOf(t).rows[id] == if DbOf(s).rows[id].agent == Some(agent) then DbOf(s).rows[id].(agent := None) else DbOf(s).rows[id])
  {
    NextDb(s, DeleteAgent(agent));
    hide Replay;
  }
}
