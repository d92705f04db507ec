/** What holds in every run of the hub, whatever the interleaving and whichever store calls fail. */
module HubSafety {
  import opened Previews
  import opened History
  import opened Hub

  // ---------- discipline of the callers ----------

  /** What each caller's status change asks for. */
  predicate Asks(caller: Caller, from: Option<Status>, to: Status) {
    match caller
    case Webhook => (to == Teardown && from.None?) || (to == Queued && from in {Some(Queued), Some(Done), Some(Failed)})
    case Closer => to == Teardown
    case Deleter => to == Teardown
    case Reconciler => from == Some(Assigned) && to == Queued
    case Hello => to == Failed && from.Some? && from.value in HELLO_STATUSES
    case Rebuild => from in {Some(Done), Some(Failed)} && to == Queued
    case Stop => from == Some(Running) && to == Teardown
    case Teardowns => from.Some? && from.value in {Assigned, Building, Running} && to == Teardown
    case TestBuild => from in {Some(Done), Some(Failed)} && to == Queued
    case Agent => from.None? && to in {Building, Running, Failed, Done}
  }

  predicate Disciplined(op: Op) {
    op.Update? ==>
      && Asks(op.caller, op.from, op.to)
      && (op.to in {Building, Running} ==> NonEmpty(op.fields.agent).Some?)
  }

  ghost predicate ThreadOk(ops: seq<Op>, t: Thread) {
    match t
    case Calling(calls) => forall i | 0 <= i < |calls| :: Disciplined(CallOp(calls[i], 0))
    case Reporting(agent, r) => agent != "" && RunnerSends(r)
    case Sending(agent, id, k) => k < |ops| && ops[k].Claim? && ops[k].agent == agent && ops[k].id == id
    case _ => true
  }

  ghost predicate CallersOk(s: Sys) {
    && (forall k | 0 <= k < |s.ops| :: Disciplined(s.ops[k]))
    && (forall t | t in s.threads :: ThreadOk(s.ops, s.threads[t]))
  }

  lemma TickCallsOk(stale: seq<string>)
    ensures forall i | 0 <= i < |TickCalls(stale)| :: Disciplined(CallOp(TickCalls(stale)[i], 0))
  {
  }

  lemma {:induction false} HelloCallsOk(db: Db, held: seq<string>, reported: set<string>)
    requires forall id | id in held :: id in db.rows && db.rows[id].status in HELLO_STATUSES
    ensures forall i | 0 <= i < |HelloCalls(db, held, reported)| ::
      Disciplined(CallOp(HelloCalls(db, held, reported)[i], 0))
  {
    if held == [] {
    } else {
      HelloCallsOk(db, Front(held), reported);
      assert Disciplined(CallOp(HelloCall(db, Last(held)), 0));
    }
  }

  lemma TeardownCallsOk(db: Db, held: seq<string>)
    requires forall id | id in held :: id in db.rows && db.rows[id].status in {Assigned, Building, Running}
    ensures forall i | 0 <= i < |TeardownCalls(db, held)| :: Disciplined(CallOp(TeardownCalls(db, held)[i], 0))
  {
  }

  lemma TimeIsFree(c: Call, now: int)
    requires Disciplined(CallOp(c, 0))
    ensures Disciplined(CallOp(c, now))
  {
  }

  lemma OpDisciplined(s: Sys, a: Action)
    requires Legal(s.ops) && Can(s, a) && CallersOk(s)
    ensures OpOf(s, a).Some? ==> Disciplined(OpOf(s, a).value)
  {
    if a.DoCall? {
      TimeIsFree(s.threads[a.tid].calls[0], a.now);
    }
  }

  lemma StartOk(s: Sys, a: Action)
    requires Legal(s.ops) && Can(s, a)
    requires a.OnReady? || a.OnPush? || a.OnClose? || a.OnDelete? || a.OnRebuild? || a.OnStop? || a.OnTestBuild? || a.OnReport?
    ensures ThreadOk(s.ops, Then(s, a))
  {
    hide Replay;
  }

  lemma ScanOk(s: Sys, a: Action)
    requires Legal(s.ops) && Can(s, a)
    requires a.OnTick? || a.OnHello? || a.OnTeardowns?
    ensures ThreadOk(s.ops, Then(s, a))
  {
    hide Replay, Disciplined;
    match a
    case OnTick(_, _, stale) => TickCallsOk(stale);
    case OnHello(_, _, reported, held) => HelloCallsOk(DbOf(s), held, reported);
    case OnTeardowns(_, _, held) => TeardownCallsOk(DbOf(s), held);
  }

  predicate Resumes(a: Action) {
    a.ReadAgent? || a.ListQueued? || a.Send? || a.DoSupersede? || a.DoSubmit?
  }

  lemma ResumeOk(s: Sys, a: Action)
    requires Legal(s.ops) && Can(s, a) && Resumes(a)
    ensures ThreadOk(s.ops, Then(s, a))
  {
    hide Replay, OpOf, UpdateOutcome, Disciplined, Matches, Enabled, SupersedeOp;
  }

  lemma RestOk(s: Sys, a: Action)
    requires Legal(s.ops) && Can(s, a) && (a.DoReport? || a.Fail? || a.DoCall?) && ThreadOk(s.ops, s.threads[a.tid])
    ensures ThreadOk(s.ops, Then(s, a))
  {
    hide Replay, OpOf, UpdateOutcome, Disciplined, Enabled;
  }

  lemma ClaimOk(s: Sys, a: Action)
    requires Legal(s.ops) && Can(s, a) && a.DoClaim?
    ensures ThreadOk(Next(s, a).ops, Then(s, a))
  {
    hide Replay, Enabled, Apply;
  }

  lemma UpsertOk(s: Sys, a: Action)
    requires Legal(s.ops) && Can(s, a) && a.DoUpsert?
    ensures ThreadOk(s.ops, Then(s, a))
  {
    hide Replay, OpOf;
  }

  lemma ThreadStays(ops: seq<Op>, more: seq<Op>, t: Thread)
    requires ThreadOk(ops, t)
    ensures ThreadOk(ops + more, t)
  {
  }

  lemma ThenOk(s: Sys, a: Action)
    requires Legal(s.ops) && Can(s, a) && CallersOk(s) && !a.Restart? && !a.NewAgent? && !a.DeleteAgent?
    ensures ThreadOk(Next(s, a).ops, Then(s, a))
  {
    if a.OnTick? || a.OnHello? || a.OnTeardowns? {
      ScanOk(s, a);
    } else if a.DoClaim? {
      ClaimOk(s, a);
    } else if a.DoUpsert? {
      UpsertOk(s, a);
    } else if Resumes(a) {
      ResumeOk(s, a);
    } else if a.DoReport? || a.Fail? || a.DoCall? {
      RestOk(s, a);
    } else {
      StartOk(s, a);
    }
    hide Replay, OpOf, Then, Can, ThreadOk;
    if !a.DoClaim? {
      ThreadStays(s.ops, if OpOf(s, a).Some? then [OpOf(s, a).value] else [], Then(s, a));
      assert s.ops + [] == s.ops;
    }
  }

  lemma CallersStep(s: Sys, a: Action)
    requires Legal(s.ops) && Can(s, a) && CallersOk(s)
    ensures CallersOk(Next(s, a))
  {
    OpDisciplined(s, a);
    if !a.Restart? && !a.NewAgent? && !a.DeleteAgent? { ThenOk(s, a); }
    hide Replay, OpOf, Then, Can, Disciplined, ThreadOk;
    forall t | t in s.threads ensures ThreadOk(Next(s, a).ops, s.threads[t]) {
      ThreadStays(s.ops, if OpOf(s, a).Some? then [OpOf(s, a).value] else [], s.threads[t]);
      assert s.ops + [] == s.ops;
    }
  }

  /** In every run, every committed status change obeys its caller's discipline. */
  lemma {:induction false} CallersAlways(actions: seq<Action>)
    requires After(actions).Some?
    ensures CallersOk(After(actions).value)
  {
    if actions == [] {
    } else {
      LastAction(actions);
      hide After, Replay, Can, Next, CallersOk;
      CallersAlways(Front(actions));
      CallersStep(After(Front(actions)).value, Last(actions));
    }
  }

  /** At the moment it commits, the reconciler's requeue finds the row still assigned, a HELLO failure
      finds the status that was listed, and no handler changes a row whose status it did not expect. */
  lemma ChangesSeeWhatTheyExpect(actions: seq<Action>, k: nat)
    requires After(actions).Some? && k < |After(actions).value.ops| && After(actions).value.ops[k].Update?
    ensures var ops := After(actions).value.ops;
      && Legal(ops[..k]) && ops[k].id in At(ops[..k]).rows
      && (var was := At(ops[..k]).rows[ops[k].id].status;
          && (ops[k].from.Some? ==> was == ops[k].from.value)
          && (ops[k].caller == Reconciler ==> was == Assigned && ops[k].to == Queued)
          && (ops[k].caller == Caller.Hello ==> was in HELLO_STATUSES && ops[k].to == Failed)
          && (ops[k].to == Queued ==> was in {Queued, Assigned, Done, Failed}))
  {
    CallersAlways(actions);
    LegalPrefix(After(actions).value.ops, k);
    hide Replay, After;
  }

  // ---------- event edges ----------

  predicate EdgeOk(e: Event) {
    && (e.to == Assigned ==> e.from == Some(Queued))
    && (e.to == Queued ==> e.from in {None, Some(Queued), Some(Assigned), Some(Done), Some(Failed)})
  }

  lemma EdgeStep(db: Db, op: Op)
    requires Enabled(db, op) && Disciplined(op)
    requires forall x | 0 <= x < |db.log| :: EdgeOk(db.log[x])
    ensures forall x | 0 <= x < |Apply(db, op).log| :: EdgeOk(Apply(db, op).log[x])
  {
    LogGrows(db, op);
    var log := Apply(db, op).log;
    forall x | |db.log| <= x < |log| ensures EdgeOk(log[x]) {
      AddedEdge(db, op, x);
    }
  }

  lemma LogGrows(db: Db, op: Op)
    requires Enabled(db, op)
    ensures db.log <= Apply(db, op).log
  {
  }

  lemma AddedEdge(db: Db, op: Op, x: nat)
    requires Enabled(db, op) && Disciplined(op) && |db.log| <= x < |Apply(db, op).log|
    ensures EdgeOk(Apply(db, op).log[x])
  {
  }

  lemma {:induction false} EdgesOfDisciplined(ops: seq<Op>)
    requires Legal(ops) && forall k | 0 <= k < |ops| :: Disciplined(ops[k])
    ensures forall x | 0 <= x < |At(ops).log| :: EdgeOk(At(ops).log[x])
  {
    if ops == [] {
    } else {
      LegalFront(ops);
      hide Replay, Disciplined, EdgeOk, Apply;
      assert forall k | 0 <= k < |Front(ops)| :: Front(ops)[k] == ops[k];
      EdgesOfDisciplined(Front(ops));
      assert Disciplined(ops[|ops| - 1]);
      EdgeStep(At(Front(ops)), Last(ops));
    }
  }

  /** In every run, an event into assigned comes from queued, and an event into queued from NULL,
      queued, assigned, done or failed. */
  lemma EdgesAlways(actions: seq<Action>)
    requires After(actions).Some?
    ensures var log := DbOf(After(actions).value).log;
      forall x | 0 <= x < |log| :: EdgeOk(log[x])
  {
    CallersAlways(actions);
    EdgesOfDisciplined(After(actions).value.ops);
  }

  lemma {:induction false} EventsComeFromLog(log: seq<Event>, id: string)
    ensures forall e | e in EventsOf(log, id) :: e in log
  {
    if log == [] {
    } else {
      EventsComeFromLog(Front(log), id);
      assert forall e | e in Front(log) :: e in log;
    }
  }

  /** Between two assignments of one preview there is always an event that put it back in the queue. */
  lemma RequeuedBetweenAssignments(actions: seq<Action>, id: string, i: nat, j: nat)
    requires After(actions).Some?
    requires i < j < |EventsOf(DbOf(After(actions).value).log, id)|
    requires EventsOf(DbOf(After(actions).value).log, id)[i].to == Assigned
    requires EventsOf(DbOf(After(actions).value).log, id)[j].to == Assigned
    ensures exists m :: i < m < j && EventsOf(DbOf(After(actions).value).log, id)[m].to == Queued
  {
    var ops := After(actions).value.ops;
    var es := EventsOf(At(ops).log, id);
    EdgesAlways(actions);
    EventsComeFromLog(At(ops).log, id);
    LogIsChain(ops, id);
    hide Replay, After, EventsOf;
    assert es[j] in es;
    assert EdgeOk(es[j]);
    assert es[j - 1].to == Queued;
  }

  // ---------- who holds a row ----------

  predicate Named(db: Db) {
    forall id | id in db.rows && db.rows[id].status in {Assigned, Building, Running} :: db.rows[id].agent.Some?
  }

  lemma NamedStep(db: Db, op: Op)
    requires Enabled(db, op) && Disciplined(op) && !op.DropAgent? && Named(db)
    ensures Named(Apply(db, op))
  {
    forall id | id in Apply(db, op).rows && Apply(db, op).rows[id].status in {Assigned, Building, Running}
      ensures Apply(db, op).rows[id].agent.Some?
    {
      RowsMove(db, op, id);
      hide Apply, Enabled;
    }
  }

  lemma {:induction false} NamedWhenDisciplined(ops: seq<Op>)
    requires Legal(ops) && forall k | 0 <= k < |ops| :: Disciplined(ops[k]) && !ops[k].DropAgent?
    ensures Named(At(ops))
  {
    if ops != [] {
      LegalFront(ops);
      hide Replay, Disciplined, Named, Apply;
      assert forall k | 0 <= k < |Front(ops)| :: Front(ops)[k] == ops[k];
      NamedWhenDisciplined(Front(ops));
      assert Disciplined(ops[|ops| - 1]) && !ops[|ops| - 1].DropAgent?;
      NamedStep(At(Front(ops)), Last(ops));
    } else {
      assert Named(At(ops));
    }
  }

  /** While no agent is deleted, every assigned, building or running row names an agent. */
  lemma HeldRowsNameAnAgent(actions: seq<Action>)
    requires After(actions).Some?
    requires forall i | 0 <= i < |actions| :: !actions[i].DeleteAgent?
    ensures Named(DbOf(After(actions).value))
  {
    CallersAlways(actions);
    NoDrops(actions);
    NamedWhenDisciplined(After(actions).value.ops);
  }

  lemma {:induction false} NoDrops(actions: seq<Action>)
    requires After(actions).Some?
    requires forall i | 0 <= i < |actions| :: !actions[i].DeleteAgent?
    ensures var ops := After(actions).value.ops; forall k | 0 <= k < |ops| :: !ops[k].DropAgent?
  {
    if actions == [] {
    } else {
      LastAction(actions);
      hide After, Replay, Can, OpOf, Then;
      assert forall i | 0 <= i < |Front(actions)| :: Front(actions)[i] == actions[i];
      NoDrops(Front(actions));
      assert !actions[|actions| - 1].DeleteAgent?;
      DropsOnlyOnDelete(After(Front(actions)).value, Last(actions));
    }
  }

  lemma DropsOnlyOnDelete(s: Sys, a: Action)
    requires Legal(s.ops) && Can(s, a) && !a.DeleteAgent?
    ensures OpOf(s, a).Some? ==> !OpOf(s, a).value.DropAgent?
  {
  }
}
