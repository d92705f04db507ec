/** Two runs that end with two active rows of one pull request, although every lookup found what was there. */
module OneActiveRuns {
  import opened Previews
  import opened Queries
  import opened Hub
  import opened HubRuns
  import opened Rule = OneActive

  /** Every lookup of the active row found what was there. */
  ghost predicate HonestRun(actions: seq<Action>)
    requires After(actions).Some?
  {
    actions == [] ||
    (After(Front(actions)).Some? && HonestRun(Front(actions)) &&
     (Last(actions).OnPush? ==>
        var db, p := DbOf(After(Front(actions)).value), Last(actions).push.input;
        IsNewest(db, ActiveIds(db, p.repo, p.pr), Last(actions).active)))
  }

  ghost predicate Reaches(actions: seq<Action>, rows: map<string, Row>, threads: map<nat, Thread>) {
    Shows(actions, rows, threads) && HonestRun(actions)
  }

  lemma GrowHonestly(actions: seq<Action>, a: Action) returns (longer: seq<Action>)
    requires After(actions).Some? && HonestRun(actions) && Can(After(actions).value, a)
    requires a.OnPush? ==>
      var db, p := DbOf(After(actions).value), a.push.input; IsNewest(db, ActiveIds(db, p.repo, p.pr), a.active)
    ensures longer == actions + [a] && After(longer) == Some(Next(After(actions).value, a)) && HonestRun(longer)
    ensures DbOf(After(longer).value) == if OpOf(After(actions).value, a).Some?
      then Apply(DbOf(After(actions).value), OpOf(After(actions).value, a).value) else DbOf(After(actions).value)
  {
    longer := Grow(actions, a);
    assert Front(longer) == actions && Last(longer) == a;
    hide Can, Next, OpOf, Replay, Apply, Enabled, After;
  }

  /** An event arrives and finds no active row. */
  lemma Arrives(actions: seq<Action>, rows: map<string, Row>, threads: map<nat, Thread>, t: nat, push: Push) returns (longer: seq<Action>)
    requires Reaches(actions, rows, threads) && t !in threads
    requires !push.input.adhoc && push.input.pr != 0
    requires forall id | id in rows && SamePr(rows[id], push.input.repo, push.input.pr) :: !Active(rows[id].status)
    ensures Reaches(longer, rows, threads[t := Upserting(push, None)])
  {
    hide Replay, HonestRun;
    var s := After(actions).value;
    assert ActiveIds(DbOf(s), push.input.repo, push.input.pr) == {};
    longer := GrowHonestly(actions, OnPush(t, push, None));
  }

  /** It inserts a row. */
  lemma Inserts(actions: seq<Action>, rows: map<string, Row>, threads: map<nat, Thread>, t: nat, push: Push) returns (longer: seq<Action>)
    requires Reaches(actions, rows, threads) && t in threads && threads[t] == Upserting(push, None)
    requires push.input.sha != "" && push.input.id !in rows
    requires forall id | id in rows :: rows[id].repo != push.input.repo || rows[id].sha != Some(push.input.sha)
    ensures Reaches(longer, rows[push.input.id := NewRow(push.input)], threads[t := Calling([])])
  {
    hide Replay, HonestRun;
    var s := After(actions).value;
    assert ShaIds(DbOf(s), push.input.repo, push.input.sha) == {};
    assert Enabled(DbOf(s), Insert(push.input));
    longer := GrowHonestly(actions, DoUpsert(t, None));
  }

  const REPO := "o/r"

  function Pr(id: string, pr: int, sha: string): Push {
    Push("synchronize", Input(id, REPO, pr, sha, "b", [], "", false, 0, 0))
  }

  lemma NothingYet()
    ensures Reaches([], map[], map[])
  {
  }

  /** Two overlapping events of one pull request: each finds no active row, and both insert one. */
  lemma OverlapBreaksIt() returns (run: seq<Action>)
    ensures After(run).Some? && HonestRun(run) && !Rule.OneActive(DbOf(After(run).value))
  {
    hide After, HonestRun;
    NothingYet();
    run := Arrives([], map[], map[], 0, Pr("1", 7, "s"));
    run := Arrives(run, map[], map[0 := Upserting(Pr("1", 7, "s"), None)], 1, Pr("2", 7, "t"));
    var threads := map[0 := Upserting(Pr("1", 7, "s"), None), 1 := Upserting(Pr("2", 7, "t"), None)];
    run := Inserts(run, map[], threads, 0, Pr("1", 7, "s"));
    threads := threads[0 := Calling([])];
    run := Inserts(run, map["1" := NewRow(Pr("1", 7, "s").input)], threads, 1, Pr("2", 7, "t"));
    var rows := DbOf(After(run).value).rows;
    assert "1" in rows && "2" in rows && "1" != "2" && SamePr(rows["2"], REPO, 7);
  }

  function DoneReport(id: string): Report { Report(id, Done, "", None, None, None, None, None, None) }

  /** The agent reports the preview done. */
  lemma Finishes(actions: seq<Action>, rows: map<string, Row>, threads: map<nat, Thread>, t: nat, id: string) returns (longer: seq<Action>)
    requires Reaches(actions, rows, threads) && t !in threads && id in rows
    ensures Reaches(longer, rows[id := Updated(rows[id], Done, "", ReportFields("g", DoneReport(id)), 0)], threads[t := Calling([])])
  {
    hide Replay, HonestRun;
    var first := GrowHonestly(actions, OnReport(t, "g", DoneReport(id)));
    assert Reaches(first, rows, threads[t := Reporting("g", DoneReport(id))]);
    longer := Reported(first, rows, threads[t := Reporting("g", DoneReport(id))], t, id);
    assert threads[t := Reporting("g", DoneReport(id))][t := Calling([])] == threads[t := Calling([])];
  }

  lemma Reported(actions: seq<Action>, rows: map<string, Row>, threads: map<nat, Thread>, t: nat, id: string) returns (longer: seq<Action>)
    requires Reaches(actions, rows, threads) && t in threads && threads[t] == Reporting("g", DoneReport(id)) && id in rows
    ensures Reaches(longer, rows[id := Updated(rows[id], Done, "", ReportFields("g", DoneReport(id)), 0)], threads[t := Calling([])])
  {
    hide Replay, HonestRun, Updated;
    var s := After(actions).value;
    assert UpdateOutcome(DbOf(s), id, None, ReportFields("g", DoneReport(id))) == Committed;
    longer := GrowHonestly(actions, DoReport(t, 0));
  }

  function Reopen(push: Push, id: string): Call {
    Call(id, Some(Done), Queued, "reopened_by_" + push.action, NO_FIELDS, Webhook)
  }

  /** An event moves the finished preview of its commit to its pull request; the reopening is still to come. */
  lemma Moves(actions: seq<Action>, rows: map<string, Row>, threads: map<nat, Thread>, t: nat, push: Push, id: string) returns (longer: seq<Action>)
    requires Reaches(actions, rows, threads) && t in threads && threads[t] == Upserting(push, None)
    requires id in rows && rows[id].repo == push.input.repo && rows[id].sha == Some(push.input.sha) && rows[id].status == Done
    requires push.input.sha != "" && push.input.id !in rows
    ensures Reaches(longer, rows[id := Refreshed(rows[id], push.input)], threads[t := Calling([Reopen(push, id)])])
  {
    hide Replay, HonestRun, Refreshed;
    var s := After(actions).value;
    assert id in ShaIds(DbOf(s), push.input.repo, push.input.sha);
    assert Enabled(DbOf(s), Refresh(id, push.input));
    longer := GrowHonestly(actions, DoUpsert(t, Some(id)));
  }

  /** A reopening whose store call fails. */
  lemma Loses(actions: seq<Action>, rows: map<string, Row>, threads: map<nat, Thread>, t: nat, c: Call) returns (longer: seq<Action>)
    requires Reaches(actions, rows, threads) && t in threads && threads[t] == Calling([c])
    ensures Reaches(longer, rows, threads[t := Calling([])])
  {
    hide Replay, HonestRun;
    longer := GrowHonestly(actions, Action.Fail(t));
  }

  lemma Reopens(actions: seq<Action>, rows: map<string, Row>, threads: map<nat, Thread>, t: nat, push: Push, id: string) returns (longer: seq<Action>)
    requires Reaches(actions, rows, threads) && t in threads && threads[t] == Calling([Reopen(push, id)])
    requires id in rows && rows[id].status == Done
    ensures Reaches(longer, rows[id := Updated(rows[id], Queued, Reopen(push, id).message, NO_FIELDS, 0)], threads[t := Calling([])])
  {
    hide Replay, HonestRun, Updated;
    var s := After(actions).value;
    var c := Reopen(push, id);
    assert UpdateOutcome(DbOf(s), id, Some(Done), NO_FIELDS) == Committed;
    assert Enabled(DbOf(s), CallOp(c, 0)) && [c][0] == c && [c][1..] == [];
    longer := GrowHonestly(actions, DoCall(t, 0));
  }

  /** Why a reopening counts where its row is by now.  Events of two pull requests at one commit: the first has moved
      the finished preview and is about to reopen it; the second takes it to its own pull request, where its own
      reopening fails; an event of that pull request then inserts a new preview, after which the first event
      reopens the old one beside it. */
  lemma SharedShaBreaksIt() returns (run: seq<Action>)
    ensures After(run).Some? && HonestRun(run) && !Rule.OneActive(DbOf(After(run).value))
  {
    hide After, HonestRun, Reaches;
    var first, second, third := Pr("1", 7, "t"), Pr("x", 8, "t"), Pr("2", 8, "u");
    NothingYet();
    run := Arrives([], map[], map[], 0, first);
    run := Inserts(run, map[], map[0 := Upserting(first, None)], 0, first);
    var row := NewRow(first.input);
    var threads := map[0 := Calling([])];
    assert map[0 := Upserting(first, None)][0 := Calling([])] == threads;
    run := Finishes(run, map["1" := row], threads, 1, "1");
    row := Updated(row, Done, "", ReportFields("g", DoneReport("1")), 0);
    threads := threads[1 := Calling([])];
    assert map["1" := NewRow(first.input)]["1" := row] == map["1" := row];
    run := SharedMoves(run, row, threads, first, second);
    threads := threads[2 := Calling([Reopen(Pr("y", 7, "t"), "1")])][3 := Calling([])];
    row := Refreshed(Refreshed(row, Pr("y", 7, "t").input), second.input);
    run := Arrives(run, map["1" := row], threads, 4, third);
    run := Inserts(run, map["1" := row], threads[4 := Upserting(third, None)], 4, third);
    threads := threads[4 := Upserting(third, None)][4 := Calling([])];
    run := Reopens(run, map["1" := row]["2" := NewRow(third.input)], threads, 2, Pr("y", 7, "t"), "1");
    SharedEnds(run, row, threads[2 := Calling([])], Reopen(Pr("y", 7, "t"), "1"), third);
  }

  lemma SharedMoves(actions: seq<Action>, row: Row, threads: map<nat, Thread>, first: Push, second: Push) returns (run: seq<Action>)
    requires Reaches(actions, map["1" := row], threads) && 2 !in threads && 3 !in threads
    requires first == Pr("1", 7, "t") && second == Pr("x", 8, "t")
    requires row.repo == REPO && row.sha == Some("t") && row.status == Done && row.pr == 7
    ensures Reaches(run, map["1" := Refreshed(Refreshed(row, Pr("y", 7, "t").input), second.input)],
                    threads[2 := Calling([Reopen(Pr("y", 7, "t"), "1")])][3 := Calling([])])
  {
    hide After, HonestRun, Reaches;
    var again := Pr("y", 7, "t");
    run := Arrives(actions, map["1" := row], threads, 2, again);
    run := Moves(run, map["1" := row], threads[2 := Upserting(again, None)], 2, again, "1");
    var moved := Refreshed(row, again.input);
    var t2 := threads[2 := Calling([Reopen(again, "1")])];
    assert threads[2 := Upserting(again, None)][2 := Calling([Reopen(again, "1")])] == t2;
    assert map["1" := row]["1" := moved] == map["1" := moved];
    run := Arrives(run, map["1" := moved], t2, 3, second);
    run := Moves(run, map["1" := moved], t2[3 := Upserting(second, None)], 3, second, "1");
    assert map["1" := moved]["1" := Refreshed(moved, second.input)] == map["1" := Refreshed(moved, second.input)];
    var t3 := t2[3 := Upserting(second, None)][3 := Calling([Reopen(second, "1")])];
    run := Loses(run, map["1" := Refreshed(moved, second.input)], t3, 3, Reopen(second, "1"));
    assert t3[3 := Calling([])] == t2[3 := Calling([])];
  }

  lemma SharedEnds(run: seq<Action>, row: Row, threads: map<nat, Thread>, c: Call, third: Push)
    requires row.repo == REPO && row.pr == 8 && third == Pr("2", 8, "u")
    requires Reaches(run, map["1" := row]["2" := NewRow(third.input)]["1" := Updated(row, Queued, c.message, NO_FIELDS, 0)], threads)
    ensures After(run).Some? && HonestRun(run) && !Rule.OneActive(DbOf(After(run).value))
  {
    hide HonestRun, Replay, After;
    var rows := DbOf(After(run).value).rows;
    assert "1" in rows && "2" in rows && "1" != "2" && SamePr(rows["2"], REPO, 8) && Active(rows["1"].status);
  }
}
