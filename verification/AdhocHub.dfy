/** One ad hoc preview per branch in the interleaved system.  Submissions are not taken as one step: `Careful` says
    for each step whether the rule is safe after it, and asks no more than it must. */
module AdhocHub {
  import opened Previews
  import opened Queries
  import opened History
  import opened Hub
  import opened HubRuns
  import opened AdhocRows

  // ---------- what a submission under way is about to do ----------

  /** Its upsert leaves an ad hoc row: it does not find its commit in a row of a pull request. */
  predicate WillLand(db: Db, p: Input) {
    p.sha == "" || forall id | id in ShaIds(db, p.repo, p.sha) :: db.rows[id].adhoc
  }

  predicate HasRoom(db: Db, p: Input) {
    WillLand(db, p) ==> forall id | id in AdhocIds(db, p.repo, p.branch) :: OfSha(db.rows[id], p.sha)
  }

  /** Two submissions of one branch that will land rows of two commits, or of commits nobody knows. */
  predicate Clash(db: Db, p: Input, q: Input) {
    p.repo == q.repo && p.branch == q.branch && (p.sha != q.sha || p.sha == "") && WillLand(db, p) && WillLand(db, q)
  }

  predicate ThreadsOk(db: Db, threads: map<nat, Thread>) {
    && (forall t | t in threads && threads[t].Submitting? :: HasRoom(db, threads[t].input))
    && (forall t, u | t in threads && u in threads && t != u && threads[t].Submitting? && threads[u].Submitting? ::
          !Clash(db, threads[t].input, threads[u].input))
  }

  predicate AdhocInv(s: Sys)
    requires Legal(s.ops)
  { OneAdhoc(DbOf(s)) && ThreadsOk(DbOf(s), s.threads) }

  // ---------- what is asked of the callers ----------

  /** A submission that found no row may go on beside those it does not clash with. */
  predicate MayBegin(db: Db, threads: map<nat, Thread>, p: Input) {
    forall t | t in threads && threads[t].Submitting? :: !Clash(db, threads[t].input, p)
  }

  /** A webhook may move an ad hoc row to a branch without another one, if the submissions under way there are of
      its commit or will not land a row. */
  predicate MayLand(db: Db, threads: map<nat, Thread>, p: Input, existing: Option<string>)
    requires IsUpsertLookup(db, p, existing) && UpsertOp(db, p, existing).Some?
  {
    LandsAdhoc(db, p, existing) ==>
      var target, after := if existing.Some? then existing.value else p.id, Apply(db, UpsertOp(db, p, existing).value);
      && !OtherAdhoc(db, target, p.repo, p.branch)
      && (forall t | t in threads && threads[t].Submitting? :: Undisturbed(after, threads[t].input, Some(target)))
  }

  /** The submission gets past the row. */
  predicate Undisturbed(after: Db, p: Input, target: Option<string>) {
    target.Some? && target.value in AdhocIds(after, p.repo, p.branch) && WillLand(after, p) ==>
      OfSha(after.rows[target.value], p.sha)
  }

  ghost predicate Careful(s: Sys, a: Action) {
    && Legal(s.ops) && Can(s, a)
    && (a.OnTestBuild? && a.newest.None? ==> MayBegin(DbOf(s), s.threads, a.input))
    && (a.DoUpsert? && a.tid in s.threads && s.threads[a.tid].Upserting? && OpOf(s, a).Some? ==>
          var p := s.threads[a.tid].push.input;
          IsUpsertLookup(DbOf(s), p, a.existing) && UpsertOp(DbOf(s), p, a.existing).Some? && MayLand(DbOf(s), s.threads, p, a.existing))
  }

  // ---------- what holds whatever the callers do ----------

  predicate AllAdhoc(s: Sys) { forall t | t in s.threads && s.threads[t].Submitting? :: s.threads[t].input.adhoc }

  lemma OnlyTestBuildsSubmit(s: Sys, a: Action)
    requires Legal(s.ops) && Can(s, a) && !a.Restart? && !a.NewAgent? && !a.DeleteAgent?
    ensures Then(s, a).Submitting? ==>
      && a.OnTestBuild? && a.newest.None? && Then(s, a).input == a.input && a.input.adhoc
      && AdhocIds(DbOf(s), a.input.repo, a.input.branch) == {}
  {
    hide Replay, Matches, OpOf, UpdateOutcome;
  }

  lemma AllAdhocStep(s: Sys, a: Action)
    requires Legal(s.ops) && Can(s, a) && AllAdhoc(s)
    ensures AllAdhoc(Next(s, a))
  {
    NextThreads(s, a);
    if !a.Restart? && !a.NewAgent? && !a.DeleteAgent? { OnlyTestBuildsSubmit(s, a); }
    hide Can, Next, Then, Replay;
  }

  lemma {:induction false} AllAdhocAlways(actions: seq<Action>)
    requires After(actions).Some?
    ensures AllAdhoc(After(actions).value)
  {
    hide Can, Next, Replay, AllAdhoc;
    if actions == [] {
      StartHolds();
    } else {
      LastAction(actions);
      AllAdhocAlways(Front(actions));
      AllAdhocStep(After(Front(actions)).value, Last(actions));
    }
  }

  lemma StartHolds()
    ensures Legal(START.ops) && AdhocInv(START) && AllAdhoc(START)
  {
  }

  // ---------- what the submissions see of a step ----------

  /** No ad hoc row comes to a branch but `target`. */
  ghost predicate Comes(db: Db, after: Db, target: Option<string>) {
    && RowsKept(db, after)
    && (forall id | id in db.rows :: after.rows[id].adhoc == db.rows[id].adhoc)
    && (forall id | id in after.rows && after.rows[id].adhoc && target != Some(id) ::
          id in db.rows && after.rows[id].branch == db.rows[id].branch)
  }

  lemma WillLandGoesBack(db: Db, after: Db, p: Input, target: Option<string>)
    requires Comes(db, after, target) && WillLand(after, p)
    ensures WillLand(db, p)
  {
    if p.sha != "" {
      forall id | id in ShaIds(db, p.repo, p.sha) ensures db.rows[id].adhoc { assert id in ShaIds(after, p.repo, p.sha); }
    }
  }

  lemma RoomStays(db: Db, after: Db, p: Input, target: Option<string>)
    requires HasRoom(db, p) && Comes(db, after, target) && Undisturbed(after, p, target)
    ensures HasRoom(after, p)
  {
    if WillLand(after, p) {
      WillLandGoesBack(db, after, p, target);
      hide WillLand;
      forall id | id in AdhocIds(after, p.repo, p.branch) ensures OfSha(after.rows[id], p.sha) {
        if target != Some(id) { assert id in AdhocIds(db, p.repo, p.branch); }
      }
    }
  }

  lemma ClashGoesBack(db: Db, after: Db, p: Input, q: Input, target: Option<string>)
    requires Comes(db, after, target) && Clash(after, p, q)
    ensures Clash(db, p, q)
  {
    WillLandGoesBack(db, after, p, target);
    WillLandGoesBack(db, after, q, target);
    hide WillLand, Comes;
  }

  lemma OthersStay(db: Db, after: Db, threads: map<nat, Thread>, target: Option<string>)
    requires ThreadsOk(db, threads) && Comes(db, after, target)
    requires forall u | u in threads && threads[u].Submitting? :: Undisturbed(after, threads[u].input, target)
    ensures ThreadsOk(after, threads)
  {
    hide Comes, HasRoom, Clash, Undisturbed;
    forall u | u in threads && threads[u].Submitting? ensures HasRoom(after, threads[u].input) {
      RoomStays(db, after, threads[u].input, target);
    }
    forall t, u | t in threads && u in threads && t != u && threads[t].Submitting? && threads[u].Submitting?
      ensures !Clash(after, threads[t].input, threads[u].input)
    {
      if Clash(after, threads[t].input, threads[u].input) { ClashGoesBack(db, after, threads[t].input, threads[u].input, target); }
    }
  }

  lemma Fewer(db: Db, threads: map<nat, Thread>, t: nat)
    requires ThreadsOk(db, threads)
    ensures ThreadsOk(db, threads - {t})
  {
    hide HasRoom, Clash;
  }

  lemma Symmetric(db: Db, p: Input, q: Input)
    ensures Clash(db, p, q) <==> Clash(db, q, p)
  {
  }

  lemma Joins(db: Db, threads: map<nat, Thread>, t: nat, th: Thread)
    requires ThreadsOk(db, threads - {t})
    requires th.Submitting? ==> HasRoom(db, th.input) && MayBegin(db, threads - {t}, th.input)
    ensures ThreadsOk(db, threads[t := th])
  {
    hide HasRoom, Clash;
    var others := threads - {t};
    assert threads[t := th] == others[t := th];
    forall u | u in others && others[u].Submitting? && th.Submitting? ensures !Clash(db, th.input, others[u].input) {
      Symmetric(db, th.input, others[u].input);
    }
  }

  lemma QuietComes(db: Db, op: Op)
    requires Enabled(db, op) && !op.Insert? && !op.Refresh?
    ensures Comes(db, Apply(db, op), None)
  {
    OpKeepsRows(db, op);
    forall i | i in Apply(db, op).rows
      ensures i in db.rows && Apply(db, op).rows[i].adhoc == db.rows[i].adhoc && Apply(db, op).rows[i].branch == db.rows[i].branch
    {
      RowsMove(db, op, i);
    }
    hide Apply, Enabled;
  }

  /** The upserted row. */
  ghost predicate Upserted(db: Db, after: Db, p: Input, existing: Option<string>) {
    var target := if existing.Some? then existing.value else p.id;
    && OnlyRow(db, after, target) && SameBranch(after.rows[target], p.repo, p.branch)
    && after.rows[target].sha == NullIfEmpty(p.sha) && (after.rows[target].adhoc <==> LandsAdhoc(db, p, existing))
    && (existing.Some? <==> target in db.rows)
  }

  lemma UpsertIsUpserted(db: Db, p: Input, existing: Option<string>)
    requires IsUpsertLookup(db, p, existing) && UpsertOp(db, p, existing).Some?
    ensures Upserted(db, Apply(db, UpsertOp(db, p, existing).value), p, existing)
    ensures Comes(db, Apply(db, UpsertOp(db, p, existing).value),
              if LandsAdhoc(db, p, existing) then Some(if existing.Some? then existing.value else p.id) else None)
  {
    OpKeepsRows(db, UpsertOp(db, p, existing).value);
    assert Upserted(db, Apply(db, UpsertOp(db, p, existing).value), p, existing);
    hide Apply, UpsertOp, IsUpsertLookup;
  }

  /** A submission with room finds no other ad hoc row of its branch. */
  lemma RoomIsEnough(db: Db, p: Input, existing: Option<string>)
    requires ShasUnique(db) && HasRoom(db, p) && p.adhoc && IsUpsertLookup(db, p, existing) && LandsAdhoc(db, p, existing)
    ensures WillLand(db, p) && !OtherAdhoc(db, if existing.Some? then existing.value else p.id, p.repo, p.branch)
  {
    forall id | id in ShaIds(db, p.repo, p.sha) && p.sha != "" ensures existing == Some(id) {
    }
    assert WillLand(db, p);
    forall j | j in db.rows && db.rows[j].adhoc && SameBranch(db.rows[j], p.repo, p.branch) ensures existing == Some(j) {
      assert j in AdhocIds(db, p.repo, p.branch);
      assert j in ShaIds(db, p.repo, p.sha);
    }
  }

  lemma SameCommitPasses(db: Db, after: Db, p: Input, existing: Option<string>, q: Input, target: Option<string>)
    requires Upserted(db, after, p, existing) && Comes(db, after, target) && WillLand(db, p) && !Clash(db, q, p)
    requires target in {None, Some(if existing.Some? then existing.value else p.id)}
    ensures Undisturbed(after, q, target)
  {
    if target.Some? && target.value in AdhocIds(after, q.repo, q.branch) && WillLand(after, q) {
      WillLandGoesBack(db, after, q, target);
    }
  }

  // ---------- one step ----------

  lemma OnlyUpsertsArrive(s: Sys, a: Action)
    requires Legal(s.ops) && Can(s, a) && !a.DoUpsert? && !a.DoSubmit?
    ensures OpOf(s, a).Some? ==> !OpOf(s, a).value.Insert? && !OpOf(s, a).value.Refresh?
  {
    hide Replay, Enabled;
  }

  lemma UpsertStepOf(s: Sys, a: Action)
    requires Legal(s.ops) && Can(s, a) && (a.DoUpsert? || a.DoSubmit?)
    ensures a.tid in s.threads && (if a.DoUpsert? then s.threads[a.tid].Upserting? else s.threads[a.tid].Submitting?)
    ensures var p := if a.DoUpsert? then s.threads[a.tid].push.input else s.threads[a.tid].input;
      IsUpsertLookup(DbOf(s), p, a.existing) && OpOf(s, a) == UpsertOp(DbOf(s), p, a.existing)
  {
    hide Replay, UpsertOp;
  }

  lemma TestBuildReads(s: Sys, a: Action)
    requires Legal(s.ops) && Can(s, a) && a.OnTestBuild?
    ensures OpOf(s, a).None?
  {
    hide Replay, Enabled;
  }

  /** What a step does to the tables and to the submissions other than its own. */
  ghost predicate Passed(s: Sys, a: Action, after: Db)
    requires Legal(s.ops)
  {
    OneAdhoc(after) && ThreadsOk(after, if a.DoSubmit? then s.threads - {a.tid} else s.threads)
  }

  lemma QuietStep(s: Sys, a: Action)
    requires Legal(s.ops) && Can(s, a) && AdhocInv(s)
    requires OpOf(s, a).Some? ==> !OpOf(s, a).value.Insert? && !OpOf(s, a).value.Refresh?
    ensures Legal(Next(s, a).ops) && Passed(s, a, DbOf(Next(s, a)))
  {
    NextDb(s, a);
    var db, after := DbOf(s), DbOf(Next(s, a));
    hide Can, Next, OpOf, Replay, Apply, Enabled, Comes, ThreadsOk, OneAdhoc;
    if OpOf(s, a).Some? {
      QuietKeepsOneAdhoc(db, OpOf(s, a).value);
      QuietComes(db, OpOf(s, a).value);
      OthersStay(db, after, s.threads, None);
    }
    if a.DoSubmit? { Fewer(after, s.threads, a.tid); }
  }

  lemma MovingStep(s: Sys, a: Action)
    requires Careful(s, a) && AdhocInv(s) && a.DoUpsert? && OpOf(s, a).Some?
    ensures Legal(Next(s, a).ops) && Passed(s, a, DbOf(Next(s, a)))
  {
    UpsertStepOf(s, a);
    NextDb(s, a);
    var db, after, p := DbOf(s), DbOf(Next(s, a)), s.threads[a.tid].push.input;
    assert MayLand(db, s.threads, p, a.existing);
    UpsertIsUpserted(db, p, a.existing);
    UpsertKeepsOneAdhocIff(db, p, a.existing);
    hide Can, Next, OpOf, Replay, Apply, Enabled, Comes, ThreadsOk, OneAdhoc, UpsertOp, IsUpsertLookup, Upserted,
      LandsAdhoc, OtherAdhoc;
    OthersStay(db, after, s.threads, if LandsAdhoc(db, p, a.existing) then Some(if a.existing.Some? then a.existing.value else p.id) else None);
  }

  lemma SubmittingStep(s: Sys, a: Action)
    requires Legal(s.ops) && Can(s, a) && AdhocInv(s) && AllAdhoc(s) && a.DoSubmit? && OpOf(s, a).Some?
    ensures Legal(Next(s, a).ops) && Passed(s, a, DbOf(Next(s, a)))
  {
    UpsertStepOf(s, a);
    NextDb(s, a);
    ShaUniqueAlways(s.ops);
    var db, after, p := DbOf(s), DbOf(Next(s, a)), s.threads[a.tid].input;
    var target := if LandsAdhoc(db, p, a.existing) then Some(if a.existing.Some? then a.existing.value else p.id) else None;
    UpsertIsUpserted(db, p, a.existing);
    UpsertKeepsOneAdhocIff(db, p, a.existing);
    if LandsAdhoc(db, p, a.existing) { RoomIsEnough(db, p, a.existing); }
    Fewer(db, s.threads, a.tid);
    var others := s.threads - {a.tid};
    assert HasRoom(db, p);
    hide Can, Next, OpOf, Replay, Apply, Enabled, Comes, OneAdhoc, UpsertOp, IsUpsertLookup, Upserted, LandsAdhoc,
      OtherAdhoc, ShasUnique, WillLand, HasRoom, Clash;
    forall u | u in others && others[u].Submitting? ensures Undisturbed(after, others[u].input, target) {
      if target.Some? { SameCommitPasses(db, after, p, a.existing, others[u].input, target); }
    }
    OthersStay(db, after, others, target);
  }

  lemma CarefulStep(s: Sys, a: Action)
    requires Careful(s, a) && AdhocInv(s) && AllAdhoc(s)
    ensures Legal(Next(s, a).ops) && AdhocInv(Next(s, a))
  {
    hide Next, Can, OpOf, Then, Replay, OneAdhoc, ThreadsOk, MayLand, MayBegin, Enabled, UpsertOp;
    NextThreads(s, a);
    if OpOf(s, a).Some? && a.DoUpsert? {
      MovingStep(s, a);
    } else if OpOf(s, a).Some? && a.DoSubmit? {
      SubmittingStep(s, a);
    } else {
      if !a.DoUpsert? && !a.DoSubmit? { OnlyUpsertsArrive(s, a); }
      QuietStep(s, a);
    }
    var after := DbOf(Next(s, a));
    if a.Restart? {
      NoThreads(after);
    } else if !a.NewAgent? && !a.DeleteAgent? {
      GoesOn(s, a);
      if !a.DoSubmit? { Fewer(after, s.threads, a.tid); }
      Joins(after, s.threads, a.tid, Then(s, a));
    }
  }

  lemma NoThreads(db: Db)
    ensures ThreadsOk(db, map[])
  {
  }

  lemma GoesOn(s: Sys, a: Action)
    requires Careful(s, a) && !a.Restart? && !a.NewAgent? && !a.DeleteAgent?
    ensures Legal(Next(s, a).ops)
    ensures Then(s, a).Submitting? ==>
      HasRoom(DbOf(Next(s, a)), Then(s, a).input) && MayBegin(DbOf(Next(s, a)), s.threads - {a.tid}, Then(s, a).input)
  {
    OnlyTestBuildsSubmit(s, a);
    NextDb(s, a);
    if a.OnTestBuild? { TestBuildReads(s, a); }
    hide Can, OpOf, Then, Next, Replay, Apply, Enabled, Clash;
  }

  // ---------- every run ----------

  lemma {:induction false} AdhocInvAlways(actions: seq<Action>)
    requires After(actions).Some? && Obeys(Careful, actions)
    ensures AdhocInv(After(actions).value)
    decreases |actions|
  {
    hide AdhocInv, Can, Next, Careful, Replay, AllAdhoc;
    if actions == [] {
      StartHolds();
    } else {
      LastAction(actions);
      AdhocInvAlways(Front(actions));
      AllAdhocAlways(Front(actions));
      CarefulStep(After(Front(actions)).value, Last(actions));
    }
  }

  /** In every interleaving, with failing store calls, restarts and agents coming and going, at most one ad hoc row
      exists for each repository and branch, if no submission goes on beside one of another commit of its branch and
      no webhook moves an ad hoc row to a branch that has another one or is being submitted. */
  lemma OneAdhocInEveryRun(actions: seq<Action>)
    requires After(actions).Some? && Obeys(Careful, actions)
    ensures OneAdhoc(DbOf(After(actions).value))
    ensures var rows := DbOf(After(actions).value).rows;
      forall i, j | i in rows && j in rows && i != j && rows[i].adhoc && rows[j].adhoc ::
        rows[i].repo != rows[j].repo || rows[i].branch != rows[j].branch
  {
    AdhocInvAlways(actions);
    hide Replay, After;
  }
}
