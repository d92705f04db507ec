/** Runs of the hub in which every step meets a guard, and what a state can still come to by steps of one kind. */
module HubRuns {
  import opened Previews
  import opened History
  import opened Hub

  ghost predicate Obeys(guard: (Sys, Action) -> bool, actions: seq<Action>) {
    actions == [] ||
    (Obeys(guard, Front(actions)) && After(Front(actions)).Some? && guard(After(Front(actions)).value, Last(actions)))
  }

  /** A run in progress: the rows and the threads. */
  ghost predicate Shows(actions: seq<Action>, rows: map<string, Row>, threads: map<nat, Thread>) {
    After(actions).Some? && DbOf(After(actions).value).rows == rows && After(actions).value.threads == threads
  }

  /** The steps, all of that kind, take the system from s to t. */
  ghost predicate Leads(kind: (Sys, Action) -> bool, s: Sys, steps: seq<Action>, t: Sys)
    decreases |steps|
  {
    if steps == [] then s == t
    else Legal(s.ops) && Can(s, steps[0]) && kind(s, steps[0]) && Leads(kind, Next(s, steps[0]), steps[1..], t)
  }

  /** Such steps can take it to tables that break the rule. */
  ghost predicate CanBreak(kind: (Sys, Action) -> bool, rule: Db -> bool, s: Sys) {
    exists steps, t :: Leads(kind, s, steps, t) && Legal(t.ops) && !rule(DbOf(t))
  }

  lemma {:induction false} LeadsOn(kind: (Sys, Action) -> bool, s: Sys, steps: seq<Action>, t: Sys, a: Action)
    requires Leads(kind, s, steps, t) && Legal(t.ops) && Can(t, a) && kind(t, a)
    ensures Leads(kind, s, steps + [a], Next(t, a))
    decreases |steps|
  {
    hide Can, Next, Replay;
    var longer := steps + [a];
    if steps == [] {
      assert longer[0] == a && longer[1..] == [] && Leads(kind, Next(t, a), [], Next(t, a));
    } else {
      LeadsOn(kind, Next(s, steps[0]), steps[1..], t, a);
      assert longer[0] == steps[0] && longer[1..] == steps[1..] + [a];
    }
  }

  lemma BrokenNow(kind: (Sys, Action) -> bool, rule: Db -> bool, s: Sys)
    requires Legal(s.ops) && !rule(DbOf(s))
    ensures CanBreak(kind, rule, s)
  {
    assert Leads(kind, s, [], s);
  }

  lemma BrokenLater(kind: (Sys, Action) -> bool, rule: Db -> bool, s: Sys, a: Action)
    requires Legal(s.ops) && Can(s, a) && kind(s, a)
    ensures Legal(Next(s, a).ops) && (CanBreak(kind, rule, Next(s, a)) ==> CanBreak(kind, rule, s))
  {
    StepIsLegal(s, a);
    hide Can, Next, Replay;
    if CanBreak(kind, rule, Next(s, a)) {
      var steps, t :| Leads(kind, Next(s, a), steps, t) && Legal(t.ops) && !rule(DbOf(t));
      assert ([a] + steps)[0] == a && ([a] + steps)[1..] == steps;
      assert Leads(kind, s, [a] + steps, t);
    }
  }

  lemma StepKeepsRows(s: Sys, a: Action)
    requires Legal(s.ops) && Can(s, a)
    ensures Legal(Next(s, a).ops) && RowsKept(DbOf(s), DbOf(Next(s, a)))
  {
    NextDb(s, a);
    if OpOf(s, a).Some? { OpKeepsRows(DbOf(s), OpOf(s, a).value); }
    hide Can, Next, OpOf, Replay, Apply, Enabled;
  }
}
