/** One active preview per pull request in the interleaved system.  Handlers are not taken as one step: `Careful`
    says for each step whether the rule is safe after it, and every run of careful steps keeps the rule. */
module OneActiveHub {
  import opened Previews
  import opened Queries
  import opened History
  import opened Hub
  import opened HubRuns
  import opened Rule = OneActive

  // ---------- what a webhook event under way is about to do ----------

  /** Where an event may still land an active row: the pull request, and the commit of that row. */
  datatype Aim = Aim(repo: string, pr: int, sha: string)

  function PushAim(push: Push): Aim { Aim(push.input.repo, push.input.pr, push.input.sha) }

  predicate WebhookCall(th: Thread) { th.Calling? && th.calls != [] && th.calls[0].caller == Webhook }

  /** A reopening; the other last call of an event notes in the log of a queued row what it superseded. */
  predicate Reopens(th: Thread) { WebhookCall(th) && th.calls[0].from != Some(Queued) }

  /** A reopening aims at the pull request its row is in by now. */
  function AimOf(db: Db, th: Thread): Option<Aim> {
    match th
    case Superseding(push, _) => Some(PushAim(push))
    case Upserting(push, _) => Some(PushAim(push))
    case Calling(calls) =>
      if Reopens(th) && calls[0].id in db.rows && db.rows[calls[0].id].pr != 0 then
        Some(Aim(db.rows[calls[0].id].repo, db.rows[calls[0].id].pr, ShaText(db.rows[calls[0].id].sha)))
      else None
    case _ => None
  }

  predicate SamePlace(a: Option<Aim>, b: Option<Aim>) {
    a.Some? && b.Some? && a.value.repo == b.value.repo && a.value.pr == b.value.pr
  }

  /** One pull request and two commits, or commits nobody knows. */
  predicate Clash(a: Option<Aim>, b: Option<Aim>) {
    SamePlace(a, b) && (a.value.sha != b.value.sha || a.value.sha == "")
  }

  /** An active row of the event's pull request that the event will supersede, refresh or reopen. */
  predicate Passes(db: Db, th: Thread, id: string)
    requires id in db.rows
  {
    match th
    case Superseding(push, prior) => id == prior || OfSha(db.rows[id], push.input.sha)
    case Upserting(push, _) => OfSha(db.rows[id], push.input.sha)
    case Calling(calls) => calls != [] && calls[0].id == id
    case _ => true
  }

  predicate HasRoom(db: Db, th: Thread) {
    AimOf(db, th).Some? ==>
      forall id | id in ActiveIds(db, AimOf(db, th).value.repo, AimOf(db, th).value.pr) :: Passes(db, th, id)
  }

  predicate ThreadsOk(db: Db, threads: map<nat, Thread>) {
    && (forall t | t in threads :: HasRoom(db, threads[t]))
    && (forall t, u | t in threads && u in threads && t != u :: !Clash(AimOf(db, threads[t]), AimOf(db, threads[u])))
  }

  predicate PrInv(s: Sys)
    requires Legal(s.ops)
  { Rule.OneActive(DbOf(s)) && ThreadsOk(DbOf(s), s.threads) }

  // ---------- what is asked of the callers ----------

  /** The handler's own writes. */
  predicate PushStep(s: Sys, a: Action) {
    a.DoSupersede? || a.DoUpsert? || (a.DoCall? && a.tid in s.threads && WebhookCall(s.threads[a.tid]))
  }

  /** An event may begin if it supersedes the active row or that row is of its commit, and if no event for another
      commit of its pull request is under way. */
  predicate MayBegin(db: Db, threads: map<nat, Thread>, push: Push, active: Option<string>) {
    && (Supersedes(db, push, active) ||
        forall id | id in ActiveIds(db, push.input.repo, push.input.pr) :: OfSha(db.rows[id], push.input.sha))
    && (forall t | t in threads :: !Clash(AimOf(db, threads[t]), Some(PushAim(push))))
  }

  /** Another caller may make a row active if its pull request has no other active one and every event under way
      there gets past it. */
  predicate MayActivate(db: Db, threads: map<nat, Thread>, op: Op)
    requires Enabled(db, op) && op.Update?
  {
    var r := db.rows[op.id];
    && !OtherActive(db, op.id, r.repo, r.pr)
    && (forall t | t in threads && SamePlace(AimOf(db, threads[t]), Some(Aim(r.repo, r.pr, ""))) ::
          Passes(Apply(db, op), threads[t], op.id))
  }

  ghost predicate Careful(s: Sys, a: Action) {
    && Legal(s.ops) && Can(s, a)
    && (a.OnPush? ==> MayBegin(DbOf(s), s.threads, a.push, a.active))
    && (!PushStep(s, a) && OpOf(s, a).Some? ==>
          Tame(DbOf(s), OpOf(s, a).value) || (OpOf(s, a).value.Update? && MayActivate(DbOf(s), s.threads, OpOf(s, a).value)))
  }

  // ---------- what holds whatever the callers do ----------

  predicate CallShaped(db: Db, c: Call) {
    && c.id in db.rows && c.to == Queued && c.fields == NO_FIELDS && c.from in {Some(Queued), Some(Done), Some(Failed)}
    && (c.from != Some(Queued) ==> db.rows[c.id].sha.Some?)
  }

  ghost predicate Shaped(db: Db, th: Thread) {
    match th
    case Superseding(push, prior) => push.input.pr != 0 && prior in db.rows
    case Upserting(push, _) => push.input.pr != 0
    case Submitting(p) => p.pr == 0 && p.adhoc
    case Calling(calls) =>
      if WebhookCall(th) then |calls| == 1 && CallShaped(db, calls[0]) else forall c | c in calls :: c.caller != Webhook
    case _ => true
  }

  ghost predicate WellFormed(s: Sys)
    requires Legal(s.ops)
  {
    ShasUnique(DbOf(s)) && ShasNonEmpty(DbOf(s)) && forall t | t in s.threads :: Shaped(DbOf(s), s.threads[t])
  }

  lemma ShapedStays(db: Db, after: Db, th: Thread)
    requires Shaped(db, th) && RowsKept(db, after)
    ensures Shaped(after, th)
  {
  }

  // ---------- threads that are no webhook event ----------

  ghost predicate Idle(th: Thread) {
    match th
    case Superseding(_, _) => false
    case Upserting(_, _) => false
    case Submitting(p) => p.pr == 0 && p.adhoc
    case Calling(calls) => forall c | c in calls :: c.caller != Webhook
    case _ => true
  }

  lemma IdleIsOk(db: Db, th: Thread)
    requires Idle(th)
    ensures Shaped(db, th) && AimOf(db, th).None?
  {
    if th.Calling? && th.calls != [] { assert th.calls[0] in th.calls; }
  }

  lemma {:induction false} HelloIsIdle(db: Db, held: seq<string>, reported: set<string>)
    requires forall id | id in held :: id in db.rows
    ensures forall c | c in HelloCalls(db, held, reported) :: c.caller != Webhook
  {
    if held == [] {
    } else {
      HelloIsIdle(db, Front(held), reported);
    }
  }

  lemma StartsIdle(s: Sys, a: Action)
    requires Legal(s.ops) && Can(s, a)
    requires a.OnReady? || a.OnClose? || a.OnDelete? || a.OnRebuild? || a.OnStop? || a.OnTestBuild? || a.OnReport?
    ensures Idle(Then(s, a))
  {
    hide Replay;
  }

  lemma ScansIdle(s: Sys, a: Action)
    requires Legal(s.ops) && Can(s, a) && (a.OnTick? || a.OnHello? || a.OnTeardowns?)
    ensures Idle(Then(s, a))
  {
    hide Replay;
    if a.OnHello? { HelloIsIdle(DbOf(s), a.held, a.reported); }
  }

  lemma GoesOnIdle(s: Sys, a: Action)
    requires Legal(s.ops) && Can(s, a)
    requires a.ReadAgent? || a.ListQueued? || a.DoClaim? || a.Send? || a.DoSubmit? || a.DoReport?
    ensures Idle(Then(s, a))
  {
    hide Replay, OpOf, UpdateOutcome, Matches, Enabled;
  }

  lemma EndsIdle(s: Sys, a: Action)
    requires Legal(s.ops) && Can(s, a) && (a.Fail? || a.DoCall?) && Shaped(DbOf(s), s.threads[a.tid])
    ensures Idle(Then(s, a))
  {
    hide Replay, OpOf, Enabled, CallShaped;
    var th := s.threads[a.tid];
    if th.Calling? && th.calls != [] { assert forall c | c in th.calls[1..] :: c in th.calls; }
  }

  lemma ActsOnThread(s: Sys, a: Action)
    requires Legal(s.ops) && Can(s, a) && (a.Fail? || a.DoCall?)
    ensures a.tid in s.threads
  {
    hide Replay;
  }

  lemma ThenIdle(s: Sys, a: Action)
    requires Legal(s.ops) && Can(s, a) && WellFormed(s)
    requires !a.OnPush? && !a.DoSupersede? && !a.DoUpsert? && !a.Restart? && !a.NewAgent? && !a.DeleteAgent?
    ensures Idle(Then(s, a))
  {
    hide Can, Then, Replay;
    if a.OnTick? || a.OnHello? || a.OnTeardowns? {
      ScansIdle(s, a);
    } else if a.Fail? || a.DoCall? {
      ActsOnThread(s, a);
      EndsIdle(s, a);
    } else if a.ReadAgent? || a.ListQueued? || a.DoClaim? || a.Send? || a.DoSubmit? || a.DoReport? {
      GoesOnIdle(s, a);
    } else {
      StartsIdle(s, a);
    }
  }

  // ---------- the steps of a webhook event ----------

  lemma PushThen(s: Sys, a: Action)
    requires Legal(s.ops) && Can(s, a) && a.OnPush?
    ensures var db := DbOf(s);
      && a.tid !in s.threads && a.push.input.pr != 0 && OpOf(s, a).None?
      && (a.active.Some? ==> IsNewest(db, ActiveIds(db, a.push.input.repo, a.push.input.pr), a.active) && a.active.value in db.rows)
      && Then(s, a) == (if Supersedes(db, a.push, a.active) then Superseding(a.push, a.active.value) else Upserting(a.push, None))
  {
    hide Replay;
  }

  lemma SupersedeThen(s: Sys, a: Action)
    requires Legal(s.ops) && Can(s, a) && a.DoSupersede?
    ensures a.tid in s.threads && s.threads[a.tid].Superseding?
    ensures var th := s.threads[a.tid];
      && OpOf(s, a) == IfEnabled(DbOf(s), SupersedeOp(th.push, th.prior, a.now))
      && Then(s, a) == if OpOf(s, a).Some? then Upserting(th.push, Some(th.prior)) else Calling([])
  {
    hide Replay, Enabled;
  }

  lemma UpsertThen(s: Sys, a: Action)
    requires Legal(s.ops) && Can(s, a) && a.DoUpsert?
    ensures a.tid in s.threads && s.threads[a.tid].Upserting?
    ensures var th := s.threads[a.tid];
      && IsUpsertLookup(DbOf(s), th.push.input, a.existing)
      && (a.existing.Some? ==> a.existing.value in DbOf(s).rows)
      && OpOf(s, a) == UpsertOp(DbOf(s), th.push.input, a.existing)
      && Then(s, a) == AfterUpsert(DbOf(s), th.push, th.superseded, a.existing, OpOf(s, a).Some?)
  {
    hide Replay, UpsertOp, AfterUpsert;
  }

  lemma ReopenThen(s: Sys, a: Action)
    requires Legal(s.ops) && Can(s, a) && a.DoCall? && a.tid in s.threads && WebhookCall(s.threads[a.tid])
    requires |s.threads[a.tid].calls| == 1
    ensures s.threads[a.tid] == Calling([s.threads[a.tid].calls[0]])
    ensures OpOf(s, a) == IfEnabled(DbOf(s), CallOp(s.threads[a.tid].calls[0], a.now)) && Then(s, a) == Calling([])
  {
    hide Replay, Enabled;
  }

  /** What the upsert leaves: one row changed, which is now in the pull request. */
  lemma UpsertShape(db: Db, push: Push, superseded: Option<string>, existing: Option<string>)
    requires IsUpsertLookup(db, push.input, existing) && UpsertOp(db, push.input, existing).Some?
    ensures var after, th := Apply(db, UpsertOp(db, push.input, existing).value), AfterUpsert(db, push, superseded, existing, true);
      var target := if existing.Some? then existing.value else push.input.id;
      && target in after.rows && after.rows == db.rows[target := after.rows[target]]
      && SamePr(after.rows[target], push.input.repo, push.input.pr) && after.rows[target].sha == NullIfEmpty(push.input.sha)
      && (existing.Some? <==> target in db.rows) && (existing.Some? ==> push.input.sha != "")
      && (Active(after.rows[target].status) ==> existing.None? || Active(db.rows[target].status))
      && Shaped(after, th) && AimOf(after, th) in {None, Some(PushAim(push))}
      && (AimOf(after, th).Some? ==> push.input.sha != "" && Reopens(th) && th.calls[0].id == target)
  {
  }

  lemma PushShaped(s: Sys, a: Action)
    requires Legal(s.ops) && Can(s, a) && WellFormed(s) && (a.OnPush? || a.DoSupersede?)
    ensures forall db :: RowsKept(DbOf(s), db) ==> Shaped(db, Then(s, a))
  {
    if a.OnPush? { PushThen(s, a); } else { SupersedeThen(s, a); }
    hide Can, OpOf, Then, Replay;
  }

  lemma UpsertShaped(s: Sys, a: Action)
    requires Legal(s.ops) && Can(s, a) && a.DoUpsert?
    ensures Legal(Next(s, a).ops) && Shaped(DbOf(Next(s, a)), Then(s, a))
  {
    UpsertThen(s, a);
    NextDb(s, a);
    if OpOf(s, a).Some? { UpsertShape(DbOf(s), s.threads[a.tid].push, s.threads[a.tid].superseded, a.existing); }
    hide Can, Next, OpOf, Then, Replay, Apply, UpsertOp, CallShaped;
  }

  lemma WellFormedThen(s: Sys, a: Action)
    requires Legal(s.ops) && Can(s, a) && WellFormed(s) && !a.Restart? && !a.NewAgent? && !a.DeleteAgent?
    ensures Legal(Next(s, a).ops) && Shaped(DbOf(Next(s, a)), Then(s, a))
  {
    hide Can, Next, OpOf, Then, Replay, RowsKept, Shaped, Idle, WellFormed;
    StepKeepsRows(s, a);
    if a.OnPush? || a.DoSupersede? {
      PushShaped(s, a);
    } else if a.DoUpsert? {
      UpsertShaped(s, a);
    } else {
      ThenIdle(s, a);
      IdleIsOk(DbOf(Next(s, a)), Then(s, a));
    }
  }

  lemma WellFormedStep(s: Sys, a: Action)
    requires Legal(s.ops) && Can(s, a) && WellFormed(s)
    ensures Legal(Next(s, a).ops) && WellFormed(Next(s, a))
  {
    StepKeepsRows(s, a);
    NextDb(s, a);
    NextThreads(s, a);
    var db, after := DbOf(s), DbOf(Next(s, a));
    if OpOf(s, a).Some? { ShaUniqueStep(db, OpOf(s, a).value); }
    if !a.Restart? && !a.NewAgent? && !a.DeleteAgent? { WellFormedThen(s, a); }
    hide Can, Next, OpOf, Then, Replay, Apply, Enabled, ShasUnique, ShasNonEmpty, Shaped, RowsKept;
    forall t | t in s.threads ensures Shaped(after, s.threads[t]) { ShapedStays(db, after, s.threads[t]); }
  }

  lemma {:induction false} WellFormedAlways(actions: seq<Action>)
    requires After(actions).Some?
    ensures WellFormed(After(actions).value)
  {
    hide Can, Next, Replay, WellFormed;
    if actions == [] {
      StartHolds();
    } else {
      LastAction(actions);
      WellFormedAlways(Front(actions));
      WellFormedStep(After(Front(actions)).value, Last(actions));
    }
  }

  lemma StartHolds()
    ensures Legal(START.ops) && PrInv(START) && WellFormed(START)
  {
  }

  // ---------- what the other events see of a step ----------

  /** Rows become active or change their pull request only at `target`, and there only by landing as said. */
  ghost predicate Lands(db: Db, after: Db, target: string, landing: Option<Aim>) {
    && RowsKept(db, after)
    && (forall id | id in after.rows && !(id == target && landing.Some?) && after.rows[id].pr != 0 ::
          id in db.rows && after.rows[id].pr == db.rows[id].pr && (Active(after.rows[id].status) ==> Active(db.rows[id].status)))
    && (landing.Some? ==>
          && target in after.rows && SamePr(after.rows[target], landing.value.repo, landing.value.pr)
          && ShaText(after.rows[target].sha) == landing.value.sha
          && !OtherActive(after, target, landing.value.repo, landing.value.pr))
  }

  /** The event goes on as before, unless its reopening is of the row that landed: then it aims there now. */
  ghost predicate AimsOn(db: Db, after: Db, th: Thread, target: string, landing: Option<Aim>) {
    || AimOf(after, th) in {None, AimOf(db, th)}
    || (target in db.rows && landing.Some? && db.rows[target].pr != landing.value.pr &&
        AimOf(after, th) == landing && landing.value.sha != "")
  }

  lemma PushStays(db: Db, after: Db, th: Thread, target: string, landing: Option<Aim>)
    requires th.Superseding? || th.Upserting?
    requires Shaped(db, th) && HasRoom(db, th) && Lands(db, after, target, landing)
    requires SamePlace(AimOf(db, th), landing) && target in after.rows ==> Passes(after, th, target)
    ensures HasRoom(after, th) && AimOf(after, th) == AimOf(db, th)
  {
    var aim := AimOf(db, th).value;
    forall id | id in ActiveIds(after, aim.repo, aim.pr) ensures Passes(after, th, id) {
      if !(id == target && landing.Some?) {
        assert id in ActiveIds(db, aim.repo, aim.pr);
      }
    }
  }

  lemma ReopeningStays(db: Db, after: Db, th: Thread, target: string, landing: Option<Aim>)
    requires Reopens(th) && Shaped(db, th) && HasRoom(db, th) && Lands(db, after, target, landing) && ShasNonEmpty(after)
    requires SamePlace(AimOf(db, th), landing) && target in after.rows ==> Passes(after, th, target)
    ensures HasRoom(after, th) && AimsOn(db, after, th, target, landing)
  {
    var id := th.calls[0].id;
    if after.rows[id].pr != 0 {
      if id == target && landing.Some? {
        assert AimOf(after, th) == landing;
        assert forall j | j in ActiveIds(after, landing.value.repo, landing.value.pr) :: j == id;
      } else {
        var aim := AimOf(db, th).value;
        assert AimOf(after, th) == Some(aim);
        forall j | j in ActiveIds(after, aim.repo, aim.pr) ensures Passes(after, th, j) {
          if !(j == target && landing.Some?) {
            assert j in ActiveIds(db, aim.repo, aim.pr);
          }
        }
      }
    }
  }

  lemma ThreadStays(db: Db, after: Db, th: Thread, target: string, landing: Option<Aim>)
    requires Shaped(db, th) && HasRoom(db, th) && Lands(db, after, target, landing) && ShasNonEmpty(after)
    requires SamePlace(AimOf(db, th), landing) && target in after.rows ==> Passes(after, th, target)
    ensures HasRoom(after, th) && AimsOn(db, after, th, target, landing)
  {
    if th.Superseding? || th.Upserting? {
      PushStays(db, after, th, target, landing);
    } else if Reopens(th) {
      ReopeningStays(db, after, th, target, landing);
    }
  }

  /** The landing is no obstacle to the event. */
  predicate Undisturbed(db: Db, after: Db, th: Thread, target: string, landing: Option<Aim>) {
    && (SamePlace(AimOf(db, th), landing) && target in after.rows ==> Passes(after, th, target))
    && (target in db.rows && landing.Some? && db.rows[target].pr != landing.value.pr ==> !Clash(AimOf(db, th), landing))
  }

  /** The other threads after a step in which a row landed, or none. */
  lemma OthersStay(db: Db, after: Db, threads: map<nat, Thread>, target: string, landing: Option<Aim>)
    requires ThreadsOk(db, threads) && Lands(db, after, target, landing) && ShasNonEmpty(after)
    requires forall u | u in threads :: Shaped(db, threads[u]) && Undisturbed(db, after, threads[u], target, landing)
    ensures ThreadsOk(after, threads)
    ensures forall u | u in threads :: AimsOn(db, after, threads[u], target, landing)
  {
    forall u | u in threads ensures HasRoom(after, threads[u]) && AimsOn(db, after, threads[u], target, landing) {
      ThreadStays(db, after, threads[u], target, landing);
    }
    hide HasRoom, Lands, Shaped, AimOf, Passes, RowsKept, ShasNonEmpty;
  }

  lemma Joins(db: Db, threads: map<nat, Thread>, t: nat, th: Thread)
    requires ThreadsOk(db, threads) && HasRoom(db, th)
    requires forall u | u in threads && u != t :: !Clash(AimOf(db, threads[u]), AimOf(db, th))
    ensures ThreadsOk(db, threads[t := th])
  {
    hide HasRoom, AimOf;
  }

  lemma TameLands(db: Db, op: Op)
    requires Enabled(db, op) && Tame(db, op)
    ensures Lands(db, Apply(db, op), "", None)
  {
    OpKeepsRows(db, op);
    forall i | i in Apply(db, op).rows && Apply(db, op).rows[i].pr != 0
      ensures i in db.rows && Apply(db, op).rows[i].pr == db.rows[i].pr
      ensures Active(Apply(db, op).rows[i].status) ==> Active(db.rows[i].status)
    {
      RowsMove(db, op, i);
    }
    hide Apply, Enabled, Tame, RowsKept;
  }

  lemma NothingLands(db: Db)
    ensures Lands(db, db, "", None)
  {
  }

  // ---------- one step ----------

  lemma Fewer(db: Db, threads: map<nat, Thread>, t: nat)
    requires ThreadsOk(db, threads)
    ensures ThreadsOk(db, threads - {t})
  {
    hide HasRoom, AimOf;
  }

  /** Thread t goes on as `th` in a step that the others get past. */
  lemma Installed(db: Db, after: Db, threads: map<nat, Thread>, t: nat, th: Thread, target: string, landing: Option<Aim>)
    requires ThreadsOk(db, threads) && Lands(db, after, target, landing) && ShasNonEmpty(after) && HasRoom(after, th)
    requires forall u | u in threads && u != t :: Shaped(db, threads[u]) && Undisturbed(db, after, threads[u], target, landing)
    requires forall u | u in threads && u != t :: !Clash(AimOf(db, threads[u]), AimOf(after, th))
    requires AimOf(after, th).Some? && landing.Some? ==> AimOf(after, th) == landing && landing.value.sha != ""
    ensures ThreadsOk(after, threads[t := th])
  {
    Fewer(db, threads, t);
    var others := threads - {t};
    OthersStay(db, after, others, target, landing);
    hide HasRoom, Lands, Shaped, AimOf, Undisturbed, ThreadsOk, ShasNonEmpty;
    Joins(after, others, t, th);
    assert others[t := th] == threads[t := th];
  }

  lemma ShasStay(s: Sys, a: Action)
    requires Legal(s.ops) && Can(s, a) && WellFormed(s)
    ensures Legal(Next(s, a).ops) && ShasUnique(DbOf(Next(s, a))) && ShasNonEmpty(DbOf(Next(s, a)))
  {
    WellFormedStep(s, a);
    hide Can, Next, Replay, ShasUnique, ShasNonEmpty, Shaped;
  }

  /** A step in which no row lands. */
  lemma QuietStep(s: Sys, a: Action)
    requires Legal(s.ops) && Can(s, a) && PrInv(s) && WellFormed(s)
    requires OpOf(s, a).Some? ==> Tame(DbOf(s), OpOf(s, a).value)
    ensures Legal(Next(s, a).ops) && Rule.OneActive(DbOf(Next(s, a))) && Lands(DbOf(s), DbOf(Next(s, a)), "", None)
  {
    NextDb(s, a);
    if OpOf(s, a).Some? {
      TameStep(DbOf(s), OpOf(s, a).value);
      TameLands(DbOf(s), OpOf(s, a).value);
    } else {
      NothingLands(DbOf(s));
    }
    hide Can, Next, OpOf, Replay, Apply, Enabled, Tame, Lands, ThreadsOk;
  }

  /** A step of a caller that is not a webhook event, and makes no row active. */
  lemma TameSysStep(s: Sys, a: Action)
    requires Legal(s.ops) && Can(s, a) && PrInv(s) && WellFormed(s)
    requires !a.OnPush? && !a.DoSupersede? && !a.DoUpsert?
    requires OpOf(s, a).Some? ==> Tame(DbOf(s), OpOf(s, a).value)
    ensures Legal(Next(s, a).ops) && PrInv(Next(s, a))
  {
    QuietStep(s, a);
    ShasStay(s, a);
    NextThreads(s, a);
    var db, after := DbOf(s), DbOf(Next(s, a));
    if !a.Restart? && !a.NewAgent? && !a.DeleteAgent? {
      ThenIdle(s, a);
      IdleIsOk(after, Then(s, a));
    }
    hide Can, Next, OpOf, Then, Replay, Tame, Idle, Lands, Shaped, HasRoom, AimOf, ThreadsOk, ShasUnique, ShasNonEmpty;
    assert forall u | u in s.threads :: Undisturbed(db, after, s.threads[u], "", None);
    if a.Restart? {
      NoThreads(after);
    } else if a.NewAgent? || a.DeleteAgent? {
      OthersStay(db, after, s.threads, "", None);
    } else {
      NoAimHasRoom(after, Then(s, a));
      Installed(db, after, s.threads, a.tid, Then(s, a), "", None);
    }
  }

  lemma NoThreads(db: Db)
    ensures ThreadsOk(db, map[])
  {
  }

  lemma NoAimHasRoom(db: Db, th: Thread)
    requires AimOf(db, th).None?
    ensures HasRoom(db, th)
  {
  }

  lemma PushFindsRoom(db: Db, push: Push, active: Option<string>)
    requires Rule.OneActive(db) && push.input.pr != 0 && MayBegin(db, map[], push, active)
    requires active.Some? ==> IsNewest(db, ActiveIds(db, push.input.repo, push.input.pr), active)
    ensures HasRoom(db, if Supersedes(db, push, active) then Superseding(push, active.value) else Upserting(push, None))
  {
    if active.Some? { SoleActive(db, push.input.repo, push.input.pr, active); }
    hide Rule.OneActive, IsNewest;
  }

  lemma OnPushStep(s: Sys, a: Action)
    requires Legal(s.ops) && Can(s, a) && PrInv(s) && WellFormed(s) && a.OnPush? && MayBegin(DbOf(s), s.threads, a.push, a.active)
    ensures Legal(Next(s, a).ops) && PrInv(Next(s, a))
  {
    PushThen(s, a);
    NextDb(s, a);
    NextThreads(s, a);
    var db := DbOf(s);
    PushFindsRoom(db, a.push, a.active);
    assert AimOf(db, Then(s, a)) == Some(PushAim(a.push));
    hide Can, Next, OpOf, Then, Replay, HasRoom, AimOf, Supersedes, IsNewest;
    Joins(db, s.threads, a.tid, Then(s, a));
  }

  lemma SupersedeMakesRoom(db: Db, push: Push, prior: string, now: int)
    requires Enabled(db, SupersedeOp(push, prior, now)) && HasRoom(db, Superseding(push, prior))
    ensures Tame(db, SupersedeOp(push, prior, now))
    ensures HasRoom(Apply(db, SupersedeOp(push, prior, now)), Upserting(push, Some(prior)))
  {
    var after := Apply(db, SupersedeOp(push, prior, now));
    assert after.rows == db.rows[prior := after.rows[prior]] && after.rows[prior].status == Teardown;
    hide Apply, Enabled;
    forall id | id in ActiveIds(after, push.input.repo, push.input.pr) ensures OfSha(after.rows[id], push.input.sha) {
      assert id in ActiveIds(db, push.input.repo, push.input.pr);
    }
  }

  lemma SupersedeGoesOn(s: Sys, a: Action)
    requires Legal(s.ops) && Can(s, a) && PrInv(s) && a.DoSupersede?
    ensures Legal(Next(s, a).ops) && a.tid in s.threads && (OpOf(s, a).Some? ==> Tame(DbOf(s), OpOf(s, a).value))
    ensures HasRoom(DbOf(Next(s, a)), Then(s, a))
    ensures AimOf(DbOf(Next(s, a)), Then(s, a)) in {None, AimOf(DbOf(s), s.threads[a.tid])}
  {
    SupersedeThen(s, a);
    NextDb(s, a);
    var was := s.threads[a.tid];
    assert HasRoom(DbOf(s), was) && was == Superseding(was.push, was.prior);
    if OpOf(s, a).Some? { SupersedeMakesRoom(DbOf(s), was.push, was.prior, a.now); }
    hide Can, Next, OpOf, Then, Replay, Apply, Enabled, Tame, PrInv;
  }

  lemma SupersedeStep(s: Sys, a: Action)
    requires Legal(s.ops) && Can(s, a) && PrInv(s) && WellFormed(s) && a.DoSupersede?
    ensures Legal(Next(s, a).ops) && PrInv(Next(s, a))
  {
    SupersedeGoesOn(s, a);
    NextThreads(s, a);
    ShasStay(s, a);
    QuietStep(s, a);
    var db, after := DbOf(s), DbOf(Next(s, a));
    hide Can, Next, OpOf, Then, Replay, Tame, Lands, Shaped, HasRoom, AimOf, ShasUnique, ShasNonEmpty;
    assert forall u | u in s.threads :: Undisturbed(db, after, s.threads[u], "", None);
    Installed(db, after, s.threads, a.tid, Then(s, a), "", None);
  }

  /** An event for the same commit gets past the row that landed. */
  lemma SameCommitPasses(db: Db, after: Db, th: Thread, target: string, landing: Option<Aim>)
    requires Shaped(db, th) && ShasUnique(after) && ShasNonEmpty(db) && ShasNonEmpty(after) && Lands(db, after, target, landing)
    requires !Clash(AimOf(db, th), landing)
    ensures Undisturbed(db, after, th, target, landing)
  {
  }

  /** The upserted row has no active companion: the others have another sha or are gone. */
  lemma UpsertFindsRoom(db: Db, push: Push, superseded: Option<string>, existing: Option<string>, j: string)
    requires ShasUnique(db) && HasRoom(db, Upserting(push, superseded)) && IsUpsertLookup(db, push.input, existing)
    requires j in db.rows && Active(db.rows[j].status) && SamePr(db.rows[j], push.input.repo, push.input.pr)
    ensures existing == Some(j)
  {
    assert j in ActiveIds(db, push.input.repo, push.input.pr);
    assert Passes(db, Upserting(push, superseded), j);
    assert j in ShaIds(db, push.input.repo, push.input.sha);
  }

  /** A row lands where no other is active. */
  lemma LandsAlone(db: Db, after: Db, target: string, aim: Aim)
    requires RowsKept(db, after) && target in after.rows && after.rows == db.rows[target := after.rows[target]]
    requires SamePr(after.rows[target], aim.repo, aim.pr) && ShaText(after.rows[target].sha) == aim.sha
    requires Rule.OneActive(db) && !OtherActive(db, target, aim.repo, aim.pr)
    ensures Rule.OneActive(after) && Lands(db, after, target, Some(aim))
  {
    hide RowsKept;
  }

  lemma UpsertLands(db: Db, push: Push, superseded: Option<string>, existing: Option<string>)
    requires Rule.OneActive(db) && ShasUnique(db) && HasRoom(db, Upserting(push, superseded))
    requires IsUpsertLookup(db, push.input, existing) && UpsertOp(db, push.input, existing).Some?
    ensures var after, target := Apply(db, UpsertOp(db, push.input, existing).value), if existing.Some? then existing.value else push.input.id;
      Rule.OneActive(after) && Lands(db, after, target, Some(PushAim(push)))
  {
    var target := if existing.Some? then existing.value else push.input.id;
    var after := Apply(db, UpsertOp(db, push.input, existing).value);
    OpKeepsRows(db, UpsertOp(db, push.input, existing).value);
    UpsertShape(db, push, superseded, existing);
    hide Apply, UpsertOp, IsUpsertLookup, HasRoom, ShasUnique, RowsKept, Shaped, AimOf, AfterUpsert, Rule.OneActive,
      Lands;
    forall j | j in db.rows && Active(db.rows[j].status) && SamePr(db.rows[j], push.input.repo, push.input.pr)
      ensures j == target
    {
      UpsertFindsRoom(db, push, superseded, existing, j);
    }
    LandsAlone(db, after, target, PushAim(push));
  }

  lemma LandedHasRoom(db: Db, after: Db, th: Thread, target: string, landing: Option<Aim>)
    requires Lands(db, after, target, landing) && landing.Some?
    requires AimOf(after, th).None? || (AimOf(after, th) == landing && Reopens(th) && th.calls[0].id == target)
    ensures HasRoom(after, th)
  {
  }

  lemma NoClashWithNone(aim: Option<Aim>)
    ensures !Clash(aim, None)
  {
  }

  lemma UpsertStep(s: Sys, a: Action)
    requires Legal(s.ops) && Can(s, a) && PrInv(s) && WellFormed(s) && a.DoUpsert? && OpOf(s, a).Some?
    ensures Legal(Next(s, a).ops) && PrInv(Next(s, a))
  {
    UpsertThen(s, a);
    NextDb(s, a);
    NextThreads(s, a);
    ShasStay(s, a);
    var db, after, was, th := DbOf(s), DbOf(Next(s, a)), s.threads[a.tid], Then(s, a);
    var target := if a.existing.Some? then a.existing.value else was.push.input.id;
    var landing := Some(PushAim(was.push));
    UpsertLands(db, was.push, was.superseded, a.existing);
    UpsertShape(db, was.push, was.superseded, a.existing);
    LandedHasRoom(db, after, th, target, landing);
    assert AimOf(db, was) == landing;
    hide Can, Next, OpOf, Then, Replay, Lands, Shaped, HasRoom, AimOf, ShasUnique, ShasNonEmpty, Apply, Enabled,
      UpsertOp, AfterUpsert, Rule.OneActive, Clash;
    forall u | u in s.threads && u != a.tid ensures Undisturbed(db, after, s.threads[u], target, landing) {
      SameCommitPasses(db, after, s.threads[u], target, landing);
    }
    forall u | u in s.threads && u != a.tid ensures !Clash(AimOf(db, s.threads[u]), AimOf(after, th)) {
      NoClashWithNone(AimOf(db, s.threads[u]));
    }
    Installed(db, after, s.threads, a.tid, th, target, landing);
  }

  /** A status change that makes no second active row. */
  lemma UpdateLands(db: Db, op: Op)
    requires op.Update? && Enabled(db, op) && Rule.OneActive(db) && ShasNonEmpty(db)
    requires !OtherActive(db, op.id, db.rows[op.id].repo, db.rows[op.id].pr)
    ensures var r, after := db.rows[op.id], Apply(db, op);
      && Rule.OneActive(after) && op.id in after.rows && after.rows[op.id].pr == r.pr
      && Lands(db, after, op.id, Some(Aim(r.repo, r.pr, ShaText(after.rows[op.id].sha))))
  {
    OpKeepsRows(db, op);
    var after := Apply(db, op);
    assert after.rows == db.rows[op.id := after.rows[op.id]];
    assert SamePr(after.rows[op.id], db.rows[op.id].repo, db.rows[op.id].pr);
    hide Apply, Enabled, RowsKept, Rule.OneActive, ShasNonEmpty, OtherActive, Lands;
    LandsAlone(db, after, op.id, Aim(db.rows[op.id].repo, db.rows[op.id].pr, ShaText(after.rows[op.id].sha)));
  }

  lemma ReopenGoesOn(s: Sys, a: Action) returns (id: string)
    requires Legal(s.ops) && Can(s, a) && PrInv(s) && WellFormed(s) && a.DoCall? && PushStep(s, a)
    requires OpOf(s, a).Some? && !Tame(DbOf(s), OpOf(s, a).value)
    ensures Legal(Next(s, a).ops) && a.tid in s.threads && Then(s, a) == Calling([])
    ensures Rule.OneActive(DbOf(Next(s, a))) && Lands(DbOf(s), DbOf(Next(s, a)), id, AimOf(DbOf(s), s.threads[a.tid]))
  {
    var was := s.threads[a.tid];
    assert Shaped(DbOf(s), was) && HasRoom(DbOf(s), was);
    ReopenThen(s, a);
    NextDb(s, a);
    id := was.calls[0].id;
    hide Can, Next, Replay, Lands, HasRoom, AimOf, ShasUnique, ShasNonEmpty, Apply, Rule.OneActive, Tame, PrInv;
    ReopenLands(DbOf(s), was.calls[0], a.now);
  }

  lemma ReopenStep(s: Sys, a: Action)
    requires Legal(s.ops) && Can(s, a) && PrInv(s) && WellFormed(s) && a.DoCall? && PushStep(s, a)
    requires OpOf(s, a).Some? && !Tame(DbOf(s), OpOf(s, a).value)
    ensures Legal(Next(s, a).ops) && PrInv(Next(s, a))
  {
    var id := ReopenGoesOn(s, a);
    NextThreads(s, a);
    ShasStay(s, a);
    var db, after, landing := DbOf(s), DbOf(Next(s, a)), AimOf(DbOf(s), s.threads[a.tid]);
    hide Can, Next, OpOf, Then, Replay, Lands, Shaped, HasRoom, ShasUnique, ShasNonEmpty, Rule.OneActive, Clash, Tame,
      PushStep;
    NoAimHasRoom(after, Calling([]));
    forall u | u in s.threads && u != a.tid
      ensures Undisturbed(db, after, s.threads[u], id, landing) && !Clash(AimOf(db, s.threads[u]), AimOf(after, Calling([])))
    {
      SameCommitPasses(db, after, s.threads[u], id, landing);
      NoClashWithNone(AimOf(db, s.threads[u]));
    }
    hide AimOf, Undisturbed;
    Installed(db, after, s.threads, a.tid, Calling([]), id, landing);
  }

  lemma ReopenLands(db: Db, c: Call, now: int)
    requires Rule.OneActive(db) && ShasNonEmpty(db) && CallShaped(db, c) && c.caller == Webhook && Enabled(db, CallOp(c, now))
    requires HasRoom(db, Calling([c])) && !Tame(db, CallOp(c, now))
    ensures AimOf(db, Calling([c])).Some?
    ensures Rule.OneActive(Apply(db, CallOp(c, now))) && Lands(db, Apply(db, CallOp(c, now)), c.id, AimOf(db, Calling([c])))
  {
    var r := db.rows[c.id];
    assert Reopens(Calling([c])) && r.pr != 0;
    forall j | j in db.rows && Active(db.rows[j].status) && SamePr(db.rows[j], r.repo, r.pr) ensures j == c.id {
      assert j in ActiveIds(db, r.repo, r.pr);
    }
    UpdateLands(db, CallOp(c, now));
    assert Apply(db, CallOp(c, now)).rows[c.id].sha == r.sha;
    hide Apply, Enabled, Lands, HasRoom, Rule.OneActive, ShasNonEmpty;
  }

  /** Another caller makes a row active. */
  lemma ActivateStep(s: Sys, a: Action)
    requires Legal(s.ops) && Can(s, a) && PrInv(s) && WellFormed(s) && !PushStep(s, a) && !a.OnPush?
    requires OpOf(s, a).Some? && OpOf(s, a).value.Update? && MayActivate(DbOf(s), s.threads, OpOf(s, a).value)
    ensures Legal(Next(s, a).ops) && PrInv(Next(s, a))
  {
    var db, after, th, op := DbOf(s), DbOf(Next(s, a)), Then(s, a), OpOf(s, a).value;
    UpdatesByThreads(s, a);
    NextDb(s, a);
    NextThreads(s, a);
    ShasStay(s, a);
    ThenIdle(s, a);
    IdleIsOk(after, th);
    UpdateLands(db, op);
    var landing := Some(Aim(db.rows[op.id].repo, db.rows[op.id].pr, ShaText(after.rows[op.id].sha)));
    hide Can, Next, OpOf, Then, Replay, Lands, Shaped, HasRoom, ShasUnique, ShasNonEmpty, Apply, Enabled,
      Rule.OneActive, Tame, Idle, AimOf, ThreadsOk, Passes;
    NoAimHasRoom(after, th);
    Installed(db, after, s.threads, a.tid, th, op.id, landing);
  }

  lemma UpdatesByThreads(s: Sys, a: Action)
    requires Legal(s.ops) && Can(s, a) && OpOf(s, a).Some? && OpOf(s, a).value.Update?
    ensures !a.OnPush? && !a.DoUpsert? && !a.Restart? && !a.NewAgent? && !a.DeleteAgent?
  {
    hide Replay, Enabled;
  }

  // ---------- every run ----------

  lemma PushStepKeeps(s: Sys, a: Action)
    requires Legal(s.ops) && Can(s, a) && PrInv(s) && WellFormed(s) && PushStep(s, a)
    ensures Legal(Next(s, a).ops) && PrInv(Next(s, a))
  {
    hide Can, Next, PrInv, WellFormed, Replay, OpOf, Tame;
    if a.DoSupersede? {
      SupersedeStep(s, a);
    } else if a.DoUpsert? {
      if OpOf(s, a).Some? { UpsertStep(s, a); } else { LostUpsert(s, a); }
    } else if OpOf(s, a).Some? && !Tame(DbOf(s), OpOf(s, a).value) {
      ReopenStep(s, a);
    } else {
      TameSysStep(s, a);
    }
  }

  /** An upsert the store refuses ends its event. */
  lemma LostUpsert(s: Sys, a: Action)
    requires Legal(s.ops) && Can(s, a) && PrInv(s) && WellFormed(s) && a.DoUpsert? && OpOf(s, a).None?
    ensures Legal(Next(s, a).ops) && PrInv(Next(s, a))
  {
    UpsertThen(s, a);
    NextDb(s, a);
    NextThreads(s, a);
    hide Can, Next, OpOf, Then, Replay, UpsertOp, HasRoom, Shaped, Rule.OneActive, ShasUnique, ShasNonEmpty;
    NoAimHasRoom(DbOf(s), Calling([]));
    hide AimOf;
    forall u | u in s.threads ensures !Clash(AimOf(DbOf(s), s.threads[u]), AimOf(DbOf(s), Calling([]))) {
      NothingToCall(DbOf(s));
      NoClashWithNone(AimOf(DbOf(s), s.threads[u]));
    }
    Joins(DbOf(s), s.threads, a.tid, Calling([]));
  }

  lemma NothingToCall(db: Db)
    ensures AimOf(db, Calling([])).None?
  {
  }

  lemma CarefulStep(s: Sys, a: Action)
    requires Careful(s, a) && PrInv(s) && WellFormed(s)
    ensures Legal(Next(s, a).ops) && PrInv(Next(s, a))
  {
    hide Can, Next, PrInv, WellFormed, Replay, OpOf, MayBegin, MayActivate, Tame, Enabled;
    if a.OnPush? {
      OnPushStep(s, a);
    } else if PushStep(s, a) {
      PushStepKeeps(s, a);
    } else if OpOf(s, a).Some? && !Tame(DbOf(s), OpOf(s, a).value) {
      ActivateStep(s, a);
    } else {
      TameSysStep(s, a);
    }
  }

  lemma {:induction false} PrInvAlways(actions: seq<Action>)
    requires After(actions).Some? && Obeys(Careful, actions)
    ensures PrInv(After(actions).value)
    decreases |actions|
  {
    hide PrInv, Can, Next, Careful, Replay, WellFormed;
    if actions == [] {
      StartHolds();
    } else {
      LastAction(actions);
      PrInvAlways(Front(actions));
      WellFormedAlways(Front(actions));
      CarefulStep(After(Front(actions)).value, Last(actions));
    }
  }

  /** In every interleaving, with failing store calls, restarts and agents coming and going, events with or without a
      sha, no pull request has two active rows, if no event begins beside an active row it would overlook, or while
      one for another commit of its pull request is under way, and no other caller makes a row active in their way. */
  lemma OneActiveInEveryRun(actions: seq<Action>)
    requires After(actions).Some? && Obeys(Careful, actions)
    ensures Rule.OneActive(DbOf(After(actions).value))
    ensures var rows := DbOf(After(actions).value).rows;
      forall i, j | i in rows && j in rows && i != j && rows[i].pr != 0 && rows[i].status in {Queued, Assigned, Building, Running}
                    && rows[j].status in {Queued, Assigned, Building, Running} ::
        rows[i].repo != rows[j].repo || rows[i].pr != rows[j].pr
  {
    PrInvAlways(actions);
    hide Replay, After;
  }
}
