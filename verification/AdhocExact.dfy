/** The ad hoc guard asks no more than it must: after a step that does not meet it, the submissions under way can go
    on to give a branch two ad hoc rows; and a run in which they do. */
module AdhocExact {
  import opened Previews
  import opened Queries
  import opened History
  import opened Hub
  import opened HubRuns
  import opened AdhocRows
  import opened AdhocHub

  // ---------- going on without a new submission ----------

  /** A step of a submission under way. */
  predicate Submits(s: Sys, a: Action) { a.DoSubmit? }

  ghost predicate Breakable(s: Sys) { CanBreak(Submits, OneAdhoc, s) }

  lemma Broken(s: Sys)
    requires Legal(s.ops) && !OneAdhoc(DbOf(s))
    ensures Breakable(s)
  {
    BrokenNow(Submits, OneAdhoc, s);
  }

  lemma SubmitsIsCareful(s: Sys, a: Action)
    requires Legal(s.ops) && Can(s, a) && a.DoSubmit?
    ensures Careful(s, a)
  {
  }

  lemma {:induction false} RoomStaysAlong(s: Sys, steps: seq<Action>, t: Sys)
    requires Legal(s.ops) && Leads(Submits, s, steps, t) && AdhocInv(s) && AllAdhoc(s)
    ensures Legal(t.ops) && AdhocInv(t)
    decreases |steps|
  {
    hide Can, Next, Replay, AdhocInv, AllAdhoc, Careful;
    if steps == [] {
    } else {
      SubmitsIsCareful(s, steps[0]);
      CarefulStep(s, steps[0]);
      AllAdhocStep(s, steps[0]);
      RoomStaysAlong(Next(s, steps[0]), steps[1..], t);
    }
  }

  lemma RoomIsSafe(s: Sys)
    requires Legal(s.ops) && AdhocInv(s) && AllAdhoc(s)
    ensures !Breakable(s)
  {
    hide Can, Next, Replay, Leads, ThreadsOk, AllAdhoc, OneAdhoc;
    forall steps, t | Leads(Submits, s, steps, t) && Legal(t.ops) ensures OneAdhoc(DbOf(t)) { RoomStaysAlong(s, steps, t); }
  }

  // ---------- a submission goes on ----------

  lemma CanSubmit(s: Sys, tid: nat, existing: Option<string>)
    requires Legal(s.ops) && tid in s.threads && s.threads[tid].Submitting?
    requires IsUpsertLookup(DbOf(s), s.threads[tid].input, existing)
    ensures Can(s, DoSubmit(tid, existing))
  {
    hide Replay;
  }

  /** It lands a row, and the other threads stay. */
  lemma Goes(s: Sys, tid: nat, existing: Option<string>) returns (t: Sys)
    requires Legal(s.ops) && tid in s.threads && s.threads[tid].Submitting? && s.threads[tid].input.id !in DbOf(s).rows
    requires IsUpsertLookup(DbOf(s), s.threads[tid].input, existing)
    ensures Legal(t.ops) && (Breakable(t) ==> Breakable(s)) && Upserted(DbOf(s), DbOf(t), s.threads[tid].input, existing)
    ensures forall u | u in s.threads && u != tid :: u in t.threads && t.threads[u] == s.threads[u]
  {
    var a, p := DoSubmit(tid, existing), s.threads[tid].input;
    CanSubmit(s, tid, existing);
    UpsertStepOf(s, a);
    UpsertWorks(DbOf(s), p, existing);
    hide Can, OpOf, Then, Replay, UpsertOp, IsUpsertLookup, Upserted, Apply, OneAdhoc;
    NextDb(s, a);
    NextThreads(s, a);
    BrokenLater(Submits, OneAdhoc, s, a);
    UpsertIsUpserted(DbOf(s), p, existing);
    t := Next(s, a);
  }

  /** What is found is ad hoc, so the row it lands is. */
  lemma LandsIfWilling(db: Db, p: Input, existing: Option<string>)
    requires p.adhoc && WillLand(db, p) && IsUpsertLookup(db, p, existing)
    ensures LandsAdhoc(db, p, existing)
  {
  }

  lemma NoRoomBreaks(s: Sys, tid: nat)
    requires Legal(s.ops) && tid in s.threads && s.threads[tid].Submitting?
    requires s.threads[tid].input.adhoc && s.threads[tid].input.id !in DbOf(s).rows && !HasRoom(DbOf(s), s.threads[tid].input)
    ensures Breakable(s)
  {
    hide Breakable, Replay, WillLand;
    var db, p := DbOf(s), s.threads[tid].input;
    var y :| y in AdhocIds(db, p.repo, p.branch) && !OfSha(db.rows[y], p.sha);
    var existing := AnExisting(db, p);
    LandsIfWilling(db, p, existing);
    var t := Goes(s, tid, existing);
    var target := if existing.Some? then existing.value else p.id;
    assert y != target && DbOf(t).rows[y] == db.rows[y] && DbOf(t).rows[target].adhoc;
    Broken(t);
  }

  /** The row the one lands is in the other's way. */
  lemma InTheWay(db: Db, after: Db, p: Input, existing: Option<string>, q: Input)
    requires Upserted(db, after, p, existing) && IsUpsertLookup(db, p, existing) && LandsAdhoc(db, p, existing)
    requires Clash(db, p, q) && q.id !in db.rows && q.id != p.id
    ensures !HasRoom(after, q) && q.id !in after.rows
  {
    var target := if existing.Some? then existing.value else p.id;
    assert target in AdhocIds(after, q.repo, q.branch) && !OfSha(after.rows[target], q.sha);
    if q.sha != "" {
      forall id | id in ShaIds(after, q.repo, q.sha) ensures after.rows[id].adhoc { assert id in ShaIds(db, q.repo, q.sha) || id == target; }
    }
  }

  lemma ClashBreaks(s: Sys, tid: nat, u: nat)
    requires Legal(s.ops) && AllAdhoc(s) && FreshIds(s) && tid in s.threads && u in s.threads && tid != u
    requires s.threads[tid].Submitting? && s.threads[u].Submitting? && Clash(DbOf(s), s.threads[tid].input, s.threads[u].input)
    ensures Breakable(s)
  {
    hide Breakable, Replay, Upserted, LandsAdhoc, IsUpsertLookup;
    var db, p, q := DbOf(s), s.threads[tid].input, s.threads[u].input;
    var existing := AnExisting(db, p);
    LandsIfWilling(db, p, existing);
    var t := Goes(s, tid, existing);
    InTheWay(db, DbOf(t), p, existing, q);
    hide WillLand, HasRoom;
    NoRoomBreaks(t, u);
  }

  // ---------- exactly the states with room ----------

  /** The ids of the submissions are new, and no two are the same: they are random. */
  predicate FreshIds(s: Sys)
    requires Legal(s.ops)
  {
    && (forall t | t in s.threads && s.threads[t].Submitting? :: s.threads[t].input.id !in DbOf(s).rows)
    && (forall t, u | t in s.threads && u in s.threads && t != u && s.threads[t].Submitting? && s.threads[u].Submitting? ::
          s.threads[t].input.id != s.threads[u].input.id)
  }

  /** The invariant is the weakest one: without it the rule can be broken by what is already under way. */
  lemma UnbreakableIff(s: Sys)
    requires Legal(s.ops) && AllAdhoc(s) && FreshIds(s)
    ensures AdhocInv(s) <==> !Breakable(s)
  {
    hide Breakable, Replay, HasRoom, Clash;
    if AdhocInv(s) {
      RoomIsSafe(s);
    } else if !OneAdhoc(DbOf(s)) {
      Broken(s);
    } else if t :| t in s.threads && s.threads[t].Submitting? && !HasRoom(DbOf(s), s.threads[t].input) {
      NoRoomBreaks(s, t);
    } else {
      var t, u :| t in s.threads && u in s.threads && t != u && s.threads[t].Submitting? && s.threads[u].Submitting? &&
        Clash(DbOf(s), s.threads[t].input, s.threads[u].input);
      ClashBreaks(s, t, u);
    }
  }

  // ---------- exactly the careful steps ----------

  lemma SubmissionBegins(s: Sys, a: Action)
    requires Legal(s.ops) && Can(s, a) && a.OnTestBuild? && a.newest.None?
    ensures a.tid !in s.threads && Then(s, a) == Submitting(a.input) && OpOf(s, a).None?
  {
    hide Replay;
  }

  lemma CarelessBegin(s: Sys, a: Action)
    requires Legal(s.ops) && Can(s, a) && a.OnTestBuild? && a.newest.None? && !MayBegin(DbOf(s), s.threads, a.input)
    ensures Legal(Next(s, a).ops) && !AdhocInv(Next(s, a))
  {
    SubmissionBegins(s, a);
    NextDb(s, a);
    NextThreads(s, a);
    hide Can, Next, OpOf, Then, Replay, Clash, HasRoom;
    var t :| t in s.threads && s.threads[t].Submitting? && Clash(DbOf(s), s.threads[t].input, a.input);
    var threads := Next(s, a).threads;
    assert t in threads && a.tid in threads && t != a.tid && threads[t] == s.threads[t] && threads[a.tid] == Submitting(a.input);
  }

  lemma CarelessMove(s: Sys, a: Action)
    requires Legal(s.ops) && Can(s, a) && OneAdhoc(DbOf(s)) && a.DoUpsert? && OpOf(s, a).Some? && !Careful(s, a)
    ensures Legal(Next(s, a).ops) && !AdhocInv(Next(s, a))
  {
    UpsertStepOf(s, a);
    NextDb(s, a);
    NextThreads(s, a);
    var db, after, p := DbOf(s), DbOf(Next(s, a)), s.threads[a.tid].push.input;
    assert !MayLand(db, s.threads, p, a.existing);
    UpsertKeepsOneAdhocIff(db, p, a.existing);
    hide Can, Next, OpOf, Then, Replay, Apply, Enabled, UpsertOp, IsUpsertLookup, LandsAdhoc, OneAdhoc, OtherAdhoc,
      WillLand;
    if OneAdhoc(after) {
      var target := Some(if a.existing.Some? then a.existing.value else p.id);
      var t :| t in s.threads && s.threads[t].Submitting? && !Undisturbed(after, s.threads[t].input, target);
      assert !HasRoom(after, s.threads[t].input);
      assert t != a.tid && t in Next(s, a).threads && Next(s, a).threads[t] == s.threads[t];
    }
  }

  /** After any careful run, a step is careful exactly when what is then under way cannot break the rule: a submission
      that goes on beside one of another commit of its branch, or a webhook that moves an ad hoc row beside another
      one or in a submission's way, can be completed to two ad hoc rows of one branch, and no other step can. */
  lemma CarefulIff(actions: seq<Action>, a: Action)
    requires After(actions).Some? && Obeys(Careful, actions) && Can(After(actions).value, a)
    ensures var s := After(actions).value;
      && Legal(Next(s, a).ops)
      && (Careful(s, a) ==> !Breakable(Next(s, a)))
      && (!Careful(s, a) && FreshIds(Next(s, a)) ==> Breakable(Next(s, a)))
  {
    var s := After(actions).value;
    AdhocInvAlways(actions);
    AllAdhocAlways(actions);
    AllAdhocStep(s, a);
    StepIsLegal(s, a);
    if Careful(s, a) {
      CarefulStep(s, a);
      RoomIsSafe(Next(s, a));
    } else {
      CarelessStep(s, a);
      if FreshIds(Next(s, a)) { UnbreakableIff(Next(s, a)); }
    }
    hide Can, Next, Replay, AdhocInv, AllAdhoc, Careful, Breakable, FreshIds, Obeys, After;
  }

  lemma CarelessStep(s: Sys, a: Action)
    requires Legal(s.ops) && Can(s, a) && AdhocInv(s) && !Careful(s, a)
    ensures Legal(Next(s, a).ops) && !AdhocInv(Next(s, a))
  {
    StepIsLegal(s, a);
    if a.DoUpsert? { CarelessMove(s, a); } else { CarelessBegin(s, a); }
    hide Can, Next, OpOf, Replay, AdhocInv, MayBegin, MayLand;
  }

  // ---------- a run that breaks it ----------

  /** A submission that finds no ad hoc row of its branch. */
  lemma Arrives(actions: seq<Action>, threads: map<nat, Thread>, t: nat, p: Input) returns (longer: seq<Action>)
    requires Shows(actions, map[], threads) && t !in threads && p.adhoc && p.pr == 0 && p.labels == []
    ensures Shows(longer, map[], threads[t := Submitting(p)])
  {
    hide Replay;
    assert AdhocIds(DbOf(After(actions).value), p.repo, p.branch) == {};
    longer := Grow(actions, OnTestBuild(t, p, None));
  }

  lemma Inserts(actions: seq<Action>, rows: map<string, Row>, threads: map<nat, Thread>, t: nat, p: Input) returns (longer: seq<Action>)
    requires Shows(actions, rows, threads) && t in threads && threads[t] == Submitting(p) && p.sha == "" && p.id !in rows
    ensures Shows(longer, rows[p.id := NewRow(p)], threads[t := Calling([])])
  {
    hide Replay;
    assert Enabled(DbOf(After(actions).value), Insert(p));
    longer := Grow(actions, DoSubmit(t, None));
  }

  /** Two overlapping submissions of one branch: each finds no row, and both insert one. */
  lemma OverlapBreaksIt() returns (run: seq<Action>)
    ensures After(run).Some? && !OneAdhoc(DbOf(After(run).value))
  {
    var one, two := TestInput("1", "", "b"), TestInput("2", "", "b");
    assert Shows([], map[], map[]);
    hide After;
    run := Arrives([], map[], 0, one);
    run := Arrives(run, map[0 := Submitting(one)], 1, two);
    var threads := map[0 := Submitting(one), 1 := Submitting(two)];
    run := Inserts(run, map[], threads, 0, one);
    run := Inserts(run, map["1" := NewRow(one)], threads[0 := Calling([])], 1, two);
    var rows := DbOf(After(run).value).rows;
    assert "1" in rows && "2" in rows && "1" != "2" && SameBranch(rows["2"], rows["1"].repo, rows["1"].branch);
  }
}
