/** The hub's request handlers running side by side over one preview store.

    Every store transaction is one step (the database has a single connection); a handler that makes
    several is a thread that keeps what it read in between.  Any store call may fail.  A run is a list
    of actions; `After` is the system it leads to, or None if some action was not possible. */
module Hub {
  import opened Previews
  import opened Queries

  /** A call of UpdateStatus a handler is about to make. */
  datatype Call = Call(id: string, from: Option<Status>, to: Status, message: string, fields: Fields, caller: Caller)

  datatype Push = Push(action: string, input: Input)

  /** A STATUS_UPDATE message of an agent. */
  datatype Report = Report(
    id: string, status: Status, message: string, container: Option<string>, host: Option<string>,
    port: Option<int>, error: Option<string>, urls: Option<string>, sha: Option<string>)

  datatype Thread =
    | Ready(agent: string)
    | Listing(agent: string, labels: seq<string>)
    | Matching(agent: string, matched: seq<string>)
    | Sending(agent: string, id: string, k: nat)  // claimed by operation k, JOB_ASSIGN not sent yet
    | Superseding(push: Push, prior: string)
    | Upserting(push: Push, superseded: Option<string>)
    | Submitting(input: Input)
    | Calling(calls: seq<Call>)
    | Reporting(agent: string, report: Report)

  /** One JOB_ASSIGN attempt, for the claim made by operation k. */
  datatype Attempt = Attempt(k: nat, agent: string, id: string)

  /** `cut` holds the claims whose handler was killed by a hub restart before it could send. */
  datatype Sys = Sys(ops: seq<Op>, threads: map<nat, Thread>, sent: seq<Attempt>, cut: set<nat>)

  datatype Action =
    | OnReady(tid: nat, agent: string)
    | OnPush(tid: nat, push: Push, active: Option<string>)
    | OnClose(tid: nat, repo: string, pr: int, newest: Option<string>)
    | OnDelete(tid: nat, id: string)
    | OnTick(tid: nat, cutoff: int, stale: seq<string>)
    | OnHello(tid: nat, agent: string, reported: set<string>, held: seq<string>)
    | OnRebuild(tid: nat, id: string)
    | OnStop(tid: nat, id: string)
    | OnTeardowns(tid: nat, agent: string, held: seq<string>)
    | OnTestBuild(tid: nat, input: Input, newest: Option<string>)
    | OnReport(tid: nat, agent: string, report: Report)
    | ReadAgent(tid: nat)
    | ListQueued(tid: nat, found: seq<string>)
    | DoClaim(tid: nat, pick: Option<string>, now: int)
    | Send(tid: nat)
    | DoSupersede(tid: nat, now: int)
    | DoUpsert(tid: nat, existing: Option<string>)
    | DoSubmit(tid: nat, existing: Option<string>)
    | DoCall(tid: nat, now: int)
    | DoReport(tid: nat, now: int)
    | Fail(tid: nat)
    | Restart(ids: seq<string>, now: int)
    | NewAgent(agent: string, labels: seq<string>)
    | DeleteAgent(agent: string)

  // ---------- what the handlers ask for ----------

  /** The values an agent's runner puts in a STATUS_UPDATE. */
  predicate RunnerSends(r: Report) { r.status in {Building, Running, Failed, Done} }

  function ReportFields(agent: string, r: Report): Fields {
    Fields(r.container, r.host, r.port, r.urls, r.error,
           if r.status == Running || r.status == Building then Some(agent) else None, r.sha)
  }

  const RESET_FIELDS := Fields(Some(""), Some(""), Some(0), Some(""), Some(""), Some(""), None)

  const HELLO_STATUSES := {Assigned, Building, Running, Teardown}

  function ShaText(sha: Option<string>): string { if sha.Some? then sha.value else "" }

  function TickCalls(stale: seq<string>): seq<Call> {
    seq(|stale|, i requires 0 <= i < |stale| =>
      Call(stale[i], Some(Assigned), Queued, "reconciliation: stale assigned", NO_FIELDS, Reconciler))
  }

  function HelloCall(db: Db, id: string): Call
    requires id in db.rows
  { Call(id, Some(db.rows[id].status), Failed, "agent restart lost container", NO_FIELDS, Caller.Hello) }

  /** HELLO: fail every listed row the agent did not report. */
  function HelloCalls(db: Db, held: seq<string>, reported: set<string>): seq<Call>
    requires forall id | id in held :: id in db.rows
  {
    if held == [] then []
    else HelloCalls(db, Front(held), reported) + if Last(held) in reported then [] else [HelloCall(db, Last(held))]
  }

  function TeardownCalls(db: Db, held: seq<string>): seq<Call>
    requires forall id | id in held :: id in db.rows
  {
    seq(|held|, i requires 0 <= i < |held| =>
      Call(held[i], Some(db.rows[held[i]].status), Teardown, "manual teardown via admin UI", NO_FIELDS, Teardowns))
  }

  function SupersedeOp(push: Push, prior: string, now: int): Op {
    Update(prior, None, Teardown, "superseded_by_sha=" + push.input.sha, NO_FIELDS, now, Webhook)
  }

  function CallOp(c: Call, now: int): Op { Update(c.id, c.from, c.to, c.message, c.fields, now, c.caller) }

  function ReportOp(agent: string, r: Report, now: int): Op {
    Update(r.id, None, r.status, r.message, ReportFields(agent, r), now, Agent)
  }

  // ---------- steps ----------

  function DbOf(s: Sys): Db
    requires Legal(s.ops)
  { At(s.ops) }

  predicate LabelsMatch(preview: seq<string>, agent: seq<string>) {
    forall l | l in preview :: l in agent
  }

  /** The candidates whose labels the agent has, in listing order. */
  function Matches(db: Db, found: seq<string>, labels: seq<string>): seq<string>
    requires forall id | id in found :: id in db.rows
  {
    if found == [] then []
    else Matches(db, Front(found), labels) + if LabelsMatch(db.rows[Last(found)].labels, labels) then [Last(found)] else []
  }

  predicate IsUpsertLookup(db: Db, p: Input, existing: Option<string>) {
    if p.sha == "" then existing.None?
    else if existing.None? then ShaIds(db, p.repo, p.sha) == {}
    else existing.value in ShaIds(db, p.repo, p.sha)
  }

  /** Some answer to the lookup. */
  ghost function AnExisting(db: Db, p: Input): (existing: Option<string>)
    ensures IsUpsertLookup(db, p, existing)
  {
    if p.sha == "" || ShaIds(db, p.repo, p.sha) == {} then None
    else var id :| id in ShaIds(db, p.repo, p.sha); Some(id)
  }

  ghost predicate Can(s: Sys, a: Action)
    requires Legal(s.ops)
  {
    var db := DbOf(s);
    match a
    case OnReady(t, _) => t !in s.threads
    // A failed active-row lookup is ignored by the handler, so no row may be found at any time.
    case OnPush(t, push, active) =>
      t !in s.threads && !push.input.adhoc && push.input.pr != 0 &&
      (active.Some? ==> push.action == "synchronize" && IsNewest(db, ActiveIds(db, push.input.repo, push.input.pr), active))
    case OnClose(t, repo, pr, newest) => t !in s.threads && IsNewest(db, PrIds(db, repo, pr), newest)
    case OnDelete(t, id) => t !in s.threads && id in db.rows
    case OnTick(t, cutoff, stale) => t !in s.threads && IsListing(StaleIds(db, cutoff), stale)
    case OnHello(t, agent, _, held) => t !in s.threads && IsListing(HeldIds(db, agent, HELLO_STATUSES), held)
    case OnRebuild(t, id) => t !in s.threads && id in db.rows && db.rows[id].status in {Done, Failed}
    case OnStop(t, id) => t !in s.threads && id in db.rows && db.rows[id].status == Running
    case OnTeardowns(t, agent, held) => t !in s.threads && IsListing(HeldIds(db, agent, {Assigned, Building, Running}), held)
    case OnTestBuild(t, p, newest) =>
      t !in s.threads && p.adhoc && p.pr == 0 && p.labels == [] && IsNewest(db, AdhocIds(db, p.repo, p.branch), newest)
    case OnReport(t, agent, r) => t !in s.threads && agent != "" && RunnerSends(r)
    case ReadAgent(t) => t in s.threads && s.threads[t].Ready?
    case ListQueued(t, found) => t in s.threads && s.threads[t].Listing? && IsOldestQueued(db, found)
    case DoClaim(t, pick, _) =>
      t in s.threads && s.threads[t].Matching? &&
      (pick.None? <==> forall c | c in s.threads[t].matched :: c !in QueuedIds(db)) &&
      (pick.Some? ==> IsOldestOf(db, s.threads[t].matched, pick.value))
    case Send(t) => t in s.threads && s.threads[t].Sending?
    case DoSupersede(t, _) => t in s.threads && s.threads[t].Superseding?
    case DoUpsert(t, existing) =>
      t in s.threads && s.threads[t].Upserting? && IsUpsertLookup(db, s.threads[t].push.input, existing)
    case DoSubmit(t, existing) => t in s.threads && s.threads[t].Submitting? && IsUpsertLookup(db, s.threads[t].input, existing)
    case DoCall(t, _) => t in s.threads && s.threads[t].Calling? && s.threads[t].calls != []
    case DoReport(t, _) => t in s.threads && s.threads[t].Reporting?
    case Fail(t) => t in s.threads && !s.threads[t].Sending?
    case Restart(ids, _) => ListsAssigned(db, ids)
    case NewAgent(agent, labels) => Enabled(db, AddAgent(agent, labels))
    case DeleteAgent(agent) => Enabled(db, DropAgent(agent))
  }

  function IfEnabled(db: Db, op: Op): Option<Op> { if Enabled(db, op) then Some(op) else None }

  function UpsertOp(db: Db, p: Input, existing: Option<string>): Option<Op> {
    IfEnabled(db, if existing.Some? then Refresh(existing.value, p) else Insert(p))
  }

  lemma UpsertWorks(db: Db, p: Input, existing: Option<string>)
    requires p.id !in db.rows && IsUpsertLookup(db, p, existing)
    ensures UpsertOp(db, p, existing).Some?
  {
    TakenIffListed(db, p.repo, p.sha);
  }

  /** The transaction an action commits, if any. */
  function OpOf(s: Sys, a: Action): (op: Option<Op>)
    requires Legal(s.ops) && Can(s, a)
    ensures op.Some? ==> Enabled(DbOf(s), op.value)
  {
    var db := DbOf(s);
    match a
    case DoClaim(t, pick, now) =>
      if pick.Some? then IfEnabled(db, Claim(pick.value, s.threads[t].agent, now)) else None
    case DoSupersede(t, now) => IfEnabled(db, SupersedeOp(s.threads[t].push, s.threads[t].prior, now))
    case DoUpsert(t, existing) => UpsertOp(db, s.threads[t].push.input, existing)
    case DoSubmit(t, existing) => UpsertOp(db, s.threads[t].input, existing)
    case DoCall(t, now) => IfEnabled(db, CallOp(s.threads[t].calls[0], now))
    case DoReport(t, now) => IfEnabled(db, ReportOp(s.threads[t].agent, s.threads[t].report, now))
    case Restart(ids, now) => Some(Reset(ids, now))
    case NewAgent(agent, labels) => Some(AddAgent(agent, labels))
    case DeleteAgent(agent) => Some(DropAgent(agent))
    case _ => None
  }

  /** What the acting thread goes on with; Calling([]) is a handler that has returned. */
  function Then(s: Sys, a: Action): Thread
    requires Legal(s.ops) && Can(s, a) && !a.Restart? && !a.NewAgent? && !a.DeleteAgent?
  {
    var db := DbOf(s);
    match a
    case OnReady(_, agent) => Ready(agent)
    case OnPush(_, push, active) =>
      if active.Some? && ShaText(db.rows[active.value].sha) != push.input.sha then Superseding(push, active.value)
      else Upserting(push, None)
    case OnClose(_, _, _, newest) =>
      Calling(if newest.None? then []
              else [Call(newest.value, None, Teardown, "closed_via_webhook",
                         NO_FIELDS.(error := Some("closed_via_webhook")), Closer)])
    case OnDelete(_, id) => Calling([Call(id, None, Teardown, "manual_teardown", NO_FIELDS, Deleter)])
    case OnTick(_, _, stale) => Calling(TickCalls(stale))
    case OnHello(_, _, reported, held) => Calling(HelloCalls(db, held, reported))
    case OnRebuild(_, id) =>
      Calling([Call(id, Some(db.rows[id].status), Queued, "rebuild requested via admin UI", RESET_FIELDS, Rebuild)])
    case OnStop(_, id) => Calling([Call(id, Some(Running), Teardown, "stopped via admin UI", NO_FIELDS, Caller.Stop)])
    case OnTeardowns(_, _, held) => Calling(TeardownCalls(db, held))
    case OnTestBuild(_, p, newest) =>
      if newest.None? then Submitting(p)
      else if db.rows[newest.value].status in {Done, Failed} then
        Calling([Call(newest.value, Some(db.rows[newest.value].status), Queued, "re-queued by test build", RESET_FIELDS, TestBuild)])
      else Calling([])
    case OnReport(_, agent, r) => Reporting(agent, r)
    case ReadAgent(t) =>
      if s.threads[t].agent in db.agents then Listing(s.threads[t].agent, db.agents[s.threads[t].agent]) else Calling([])
    case ListQueued(t, found) => Matching(s.threads[t].agent, Matches(db, found, s.threads[t].labels))
    case DoClaim(t, pick, _) =>
      if OpOf(s, a).Some? then Sending(s.threads[t].agent, pick.value, |s.ops|) else Calling([])
    case DoSupersede(t, _) =>
      if OpOf(s, a).Some? then Upserting(s.threads[t].push, Some(s.threads[t].prior)) else Calling([])
    case DoUpsert(t, existing) => AfterUpsert(db, s.threads[t].push, s.threads[t].superseded, existing, OpOf(s, a).Some?)
    case DoCall(t, _) => Calling(s.threads[t].calls[1..])
    case DoReport(t, _) =>
      if UpdateOutcome(db, s.threads[t].report.id, None, ReportFields(s.threads[t].agent, s.threads[t].report)) == ShaMismatch
      then Reporting(s.threads[t].agent, s.threads[t].report.(sha := None)) else Calling([])
    case Fail(t) => Calling(if s.threads[t].Calling? && s.threads[t].calls != [] then s.threads[t].calls[1..] else [])
    case _ => Calling([])
  }

  function AfterUpsert(db: Db, push: Push, superseded: Option<string>, existing: Option<string>, done: bool): Thread
    requires existing.Some? ==> existing.value in db.rows
  {
    if !done then Calling([])
    else if existing.Some? then
      var was := db.rows[existing.value].status;
      Calling(if was in {Done, Failed}
              then [Call(existing.value, Some(was), Queued, "reopened_by_" + push.action, NO_FIELDS, Webhook)] else [])
    else Calling(if superseded.Some?
                 then [Call(push.input.id, Some(Queued), Queued, "created_after_supersede_of=" + superseded.value, NO_FIELDS, Webhook)]
                 else [])
  }

  function Pending(s: Sys): set<nat> {
    set t | t in s.threads && s.threads[t].Sending? :: s.threads[t].k
  }

  function Next(s: Sys, a: Action): Sys
    requires Legal(s.ops) && Can(s, a)
  {
    Sys(
      if OpOf(s, a).Some? then s.ops + [OpOf(s, a).value] else s.ops,
      if a.Restart? then map[] else if a.NewAgent? || a.DeleteAgent? then s.threads else s.threads[a.tid := Then(s, a)],
      if a.Send? then s.sent + [Attempt(s.threads[a.tid].k, s.threads[a.tid].agent, s.threads[a.tid].id)] else s.sent,
      if a.Restart? then s.cut + Pending(s) else s.cut)
  }

  const START := Sys([], map[], [], {})

  ghost function After(actions: seq<Action>): (r: Option<Sys>)
    ensures r.Some? ==> Legal(r.value.ops)
  {
    if actions == [] then Some(START)
    else
      var before := After(Front(actions));
      if before.Some? && Can(before.value, Last(actions)) then
        StepIsLegal(before.value, Last(actions));
        Some(Next(before.value, Last(actions)))
      else None
  }

  lemma StepIsLegal(s: Sys, a: Action)
    requires Legal(s.ops) && Can(s, a)
    ensures Legal(Next(s, a).ops)
  {
    hide Replay;
    if OpOf(s, a).Some? { Extend(s.ops, OpOf(s, a).value); }
  }

  lemma NextDb(s: Sys, a: Action)
    requires Legal(s.ops) && Can(s, a)
    ensures Legal(Next(s, a).ops)
    ensures DbOf(Next(s, a)) == if OpOf(s, a).Some? then Apply(DbOf(s), OpOf(s, a).value) else DbOf(s)
  {
    hide Replay, Can, Then, Apply, Enabled;
    if OpOf(s, a).Some? { Extend(s.ops, OpOf(s, a).value); }
  }

  lemma NextThreads(s: Sys, a: Action)
    requires Legal(s.ops) && Can(s, a)
    ensures Next(s, a).threads ==
      if a.Restart? then map[] else if a.NewAgent? || a.DeleteAgent? then s.threads else s.threads[a.tid := Then(s, a)]
  {
    hide Can, OpOf, Then, Replay;
  }

  /** A run and one more action. */
  lemma Grow(actions: seq<Action>, a: Action) returns (longer: seq<Action>)
    requires After(actions).Some? && Can(After(actions).value, a)
    ensures longer == actions + [a] && After(longer) == Some(Next(After(actions).value, a))
    ensures DbOf(After(longer).value) == if OpOf(After(actions).value, a).Some?
      then Apply(DbOf(After(actions).value), OpOf(After(actions).value, a).value) else DbOf(After(actions).value)
  {
    longer := actions + [a];
    assert Front(longer) == actions && Last(longer) == a;
    NextDb(After(actions).value, a);
    hide Can, Next, OpOf, Replay, Apply, Enabled;
  }

  lemma LastAction(actions: seq<Action>)
    requires After(actions).Some? && actions != []
    ensures After(Front(actions)).Some? && Can(After(Front(actions)).value, Last(actions))
    ensures After(actions).value == Next(After(Front(actions)).value, Last(actions))
  {
    hide Can, Next, Replay;
  }
}
