/** Every claim is backed by its own event and answered by exactly one JOB_ASSIGN attempt. */
module DispatchSafety {
  import opened Previews
  import opened Hub
  import opened HubSafety

  function Claims(ops: seq<Op>): set<nat> { set k: nat | k < |ops| && ops[k].Claim? }

  function SentClaims(s: Sys): set<nat> { set i | 0 <= i < |s.sent| :: s.sent[i].k }

  predicate Backs(ops: seq<Op>, k: nat, agent: string, id: string) {
    k < |ops| && ops[k].Claim? && ops[k].agent == agent && ops[k].id == id
  }

  /** No two attempts, and no two waiting handlers, answer the same claim. */
  predicate OneEach(s: Sys) {
    && (forall i, j | 0 <= i < j < |s.sent| :: s.sent[i].k != s.sent[j].k)
    && (forall t, u | t in s.threads && u in s.threads && t != u && s.threads[t].Sending? && s.threads[u].Sending? ::
          s.threads[t].k != s.threads[u].k)
  }

  predicate AllBacked(s: Sys) {
    && (forall i | 0 <= i < |s.sent| :: Backs(s.ops, s.sent[i].k, s.sent[i].agent, s.sent[i].id))
    && (forall t | t in s.threads && s.threads[t].Sending? ::
          Backs(s.ops, s.threads[t].k, s.threads[t].agent, s.threads[t].id))
  }

  /** The claims are, without overlap, those sent, those about to be sent, and those a restart cut off. */
  predicate Partitioned(s: Sys) {
    && Claims(s.ops) == SentClaims(s) + Pending(s) + s.cut
    && SentClaims(s) !! Pending(s) !! s.cut
  }

  predicate Accounted(s: Sys) { OneEach(s) && AllBacked(s) && Partitioned(s) }

  lemma ClaimsOnlyByDispatch(s: Sys, a: Action)
    requires Legal(s.ops) && Can(s, a) && !a.DoClaim?
    ensures OpOf(s, a).Some? ==> !OpOf(s, a).value.Claim?
  {
  }

  lemma SendingOnlyByClaim(s: Sys, a: Action)
    requires Legal(s.ops) && Can(s, a) && !a.DoClaim? && !a.Restart? && !a.NewAgent? && !a.DeleteAgent?
    ensures !Then(s, a).Sending?
    ensures a.tid in s.threads && s.threads[a.tid].Sending? ==> a.Send?
  {
  }

  lemma ClaimsAppend(ops: seq<Op>, op: Op)
    ensures Claims(ops + [op]) == Claims(ops) + if op.Claim? then {|ops|} else {}
  {
    forall k: nat ensures k in Claims(ops + [op]) <==> k in Claims(ops) + if op.Claim? then {|ops|} else {} {
    }
  }

  /** A step that neither claims, sends nor restarts leaves the account as it was. */
  lemma QuietStep(s: Sys, a: Action)
    requires Legal(s.ops) && Can(s, a) && Accounted(s) && !a.DoClaim? && !a.Send? && !a.Restart?
    ensures Accounted(Next(s, a))
  {
    var s' := Next(s, a);
    ClaimsOnlyByDispatch(s, a);
    if OpOf(s, a).Some? { ClaimsAppend(s.ops, OpOf(s, a).value); }
    assert Claims(s'.ops) == Claims(s.ops);
    assert s.ops <= s'.ops && s'.sent == s.sent && s'.cut == s.cut;
    if a.NewAgent? || a.DeleteAgent? {
      assert s'.threads == s.threads;
      hide Replay, OpOf, Can, Then, Next, Claims;
      assert Pending(s') == Pending(s) && SentClaims(s') == SentClaims(s);
    } else {
      SendingOnlyByClaim(s, a);
      assert s'.threads == s.threads[a.tid := Then(s, a)];
      var next := Then(s, a);
      hide Replay, OpOf, Can, Then, Next;
      QuietAccount(s, s', a.tid, next);
    }
  }

  lemma QuietAccount(s: Sys, s': Sys, t: nat, next: Thread)
    requires Accounted(s) && Claims(s'.ops) == Claims(s.ops) && s.ops <= s'.ops && s'.sent == s.sent && s'.cut == s.cut
    requires s'.threads == s.threads[t := next] && !next.Sending? && (t in s.threads ==> !s.threads[t].Sending?)
    ensures Accounted(s')
  {
    hide Claims;
    assert forall u | u in s.threads && s.threads[u].Sending? :: u in s'.threads && s'.threads[u] == s.threads[u];
    assert forall u | u in s'.threads && s'.threads[u].Sending? :: u in s.threads && s'.threads[u] == s.threads[u];
    assert Pending(s') == Pending(s);
    assert SentClaims(s') == SentClaims(s);
  }

  lemma ClaimStep(s: Sys, a: Action)
    requires Legal(s.ops) && Can(s, a) && Accounted(s) && a.DoClaim?
    ensures Accounted(Next(s, a))
  {
    var s' := Next(s, a);
    var t := a.tid;
    if OpOf(s, a).Some? {
      var op := Claim(a.pick.value, s.threads[t].agent, a.now);
      assert s' == Sys(s.ops + [op], s.threads[t := Sending(op.agent, op.id, |s.ops|)], s.sent, s.cut);
      hide Replay, OpOf, Can, Then, Next;
      ClaimAccount(s, t, op);
    } else {
      assert s' == Sys(s.ops, s.threads[t := Calling([])], s.sent, s.cut);
      hide Replay, OpOf, Can, Then, Next, Claims;
      assert Pending(s') == Pending(s) by {
        assert forall u | u in s.threads && s.threads[u].Sending? :: u in s'.threads && s'.threads[u] == s.threads[u];
      }
      assert SentClaims(s') == SentClaims(s);
    }
  }

  lemma ClaimAccount(s: Sys, t: nat, op: Op)
    requires Accounted(s) && op.Claim? && t in s.threads && s.threads[t].Matching?
    ensures Accounted(Sys(s.ops + [op], s.threads[t := Sending(op.agent, op.id, |s.ops|)], s.sent, s.cut))
  {
    var s' := Sys(s.ops + [op], s.threads[t := Sending(op.agent, op.id, |s.ops|)], s.sent, s.cut);
    ClaimsAppend(s.ops, op);
    assert forall k | k in Claims(s.ops) :: k < |s.ops|;
    hide Claims;
    assert s'.threads[t].k == |s.ops|;
    assert Pending(s') == Pending(s) + {|s.ops|} by {
      assert forall u | u in s.threads && s.threads[u].Sending? :: u in s'.threads && s'.threads[u] == s.threads[u];
    }
    assert SentClaims(s') == SentClaims(s);
    assert AllBacked(s');
    hide SentClaims, AllBacked;
    forall u | u in s.threads && u != t && s.threads[u].Sending? ensures s.threads[u].k != |s.ops| {
      assert s.threads[u].k in Pending(s);
    }
  }

  lemma SendStep(s: Sys, a: Action)
    requires Legal(s.ops) && Can(s, a) && Accounted(s) && a.Send?
    ensures Accounted(Next(s, a))
  {
    var t := a.tid;
    assert Next(s, a) == Sys(s.ops, s.threads[t := Calling([])],
                             s.sent + [Attempt(s.threads[t].k, s.threads[t].agent, s.threads[t].id)], s.cut);
    hide Replay, OpOf, Can, Then, Next;
    SendAccount(s, t);
  }

  lemma SendAccount(s: Sys, t: nat)
    requires Accounted(s) && t in s.threads && s.threads[t].Sending?
    ensures Accounted(Sys(s.ops, s.threads[t := Calling([])],
                          s.sent + [Attempt(s.threads[t].k, s.threads[t].agent, s.threads[t].id)], s.cut))
  {
    var k := s.threads[t].k;
    var s' := Sys(s.ops, s.threads[t := Calling([])], s.sent + [Attempt(k, s.threads[t].agent, s.threads[t].id)], s.cut);
    assert k in Pending(s);
    assert Pending(s') == Pending(s) - {k} by {
      assert forall u | u in s.threads && u != t && s.threads[u].Sending? :: u in s'.threads && s'.threads[u] == s.threads[u];
    }
    assert SentClaims(s') == SentClaims(s) + {k} by {
      assert s'.sent[|s.sent|].k == k;
      assert forall i | 0 <= i < |s.sent| :: s'.sent[i] == s.sent[i];
    }
    assert AllBacked(s');
    hide Claims, AllBacked;
    forall i | 0 <= i < |s.sent| ensures s.sent[i].k != k {
      assert s.sent[i].k in SentClaims(s);
    }
  }

  lemma RestartStep(s: Sys, a: Action)
    requires Legal(s.ops) && Can(s, a) && Accounted(s) && a.Restart?
    ensures Accounted(Next(s, a))
  {
    ClaimsAppend(s.ops, Reset(a.ids, a.now));
    assert Pending(Next(s, a)) == {};
    assert SentClaims(Next(s, a)) == SentClaims(s);
    hide Replay, Claims;
  }

  lemma {:induction false} AccountedAlways(actions: seq<Action>)
    requires After(actions).Some?
    ensures Accounted(After(actions).value)
  {
    if actions == [] {
      assert Claims([]) == {} && SentClaims(START) == {} && Pending(START) == {};
    } else {
      LastAction(actions);
      hide After, Replay, Can, Next, Accounted;
      AccountedAlways(Front(actions));
      var s, a := After(Front(actions)).value, Last(actions);
      if a.DoClaim? {
        ClaimStep(s, a);
      } else if a.Send? {
        SendStep(s, a);
      } else if a.Restart? {
        RestartStep(s, a);
      } else {
        QuietStep(s, a);
      }
    }
  }

  /** A claim has exactly one JOB_ASSIGN attempt, to the claiming agent, unless its handler has not
      reached it yet or a restart killed the handler first; and no attempt exists without a claim. */
  lemma OneAttemptPerClaim(actions: seq<Action>, k: nat)
    requires After(actions).Some?
    requires k in Claims(After(actions).value.ops)
    requires k !in Pending(After(actions).value) && k !in After(actions).value.cut
    ensures var s := After(actions).value;
      exists i :: 0 <= i < |s.sent|
        && s.sent[i] == Attempt(k, s.ops[k].agent, s.ops[k].id)
        && forall j | 0 <= j < |s.sent| && j != i :: s.sent[j].k != k
  {
    AccountedAlways(actions);
    var s := After(actions).value;
    hide Replay, After;
    assert k in SentClaims(s);
    var i :| 0 <= i < |s.sent| && s.sent[i].k == k;
    assert Backs(s.ops, k, s.sent[i].agent, s.sent[i].id);
    assert s.sent[i] == Attempt(k, s.ops[k].agent, s.ops[k].id);
  }

  lemma NoAttemptWithoutClaim(actions: seq<Action>, i: nat)
    requires After(actions).Some? && i < |After(actions).value.sent|
    ensures var s := After(actions).value;
      Backs(s.ops, s.sent[i].k, s.sent[i].agent, s.sent[i].id)
  {
    AccountedAlways(actions);
  }

  // ---------- claims and their events ----------

  /** Where the event of operation k begins in the log. */
  function LogStart(ops: seq<Op>, k: nat): nat
    requires Legal(ops) && k <= |ops| && Legal(ops[..k])
  { |At(ops[..k]).log| }

  lemma {:induction false} LogIsPrefix(ops: seq<Op>, m: nat, n: nat)
    requires Legal(ops) && m <= n <= |ops| && Legal(ops[..m]) && Legal(ops[..n])
    ensures At(ops[..m]).log <= At(ops[..n]).log
    decreases n
  {
    hide Replay;
    if m == n {
    } else {
      LegalPrefix(ops, n - 1);
      LogIsPrefix(ops, m, n - 1);
      LogGrows(At(ops[..n - 1]), ops[n - 1]);
      hide Apply, Enabled;
    }
  }

  /** Each claim has its own queued-to-assigned event: later claims begin later in the log. */
  lemma ClaimHasItsEvent(ops: seq<Op>, k: nat, later: nat)
    requires Legal(ops) && k < later <= |ops| && ops[k].Claim?
    requires Legal(ops[..k]) && Legal(ops[..later])
    ensures LogStart(ops, k) < LogStart(ops, later) <= |At(ops).log|
    ensures At(ops).log[LogStart(ops, k)] == Event(ops[k].id, Some(Queued), Assigned, "", ops[k].now)
  {
    LegalPrefix(ops, k);
    LogIsPrefix(ops, k + 1, later);
    assert ops[..|ops|] == ops;
    LogIsPrefix(ops, later, |ops|);
    var before, after := At(ops[..k]), At(ops[..k + 1]);
    assert after.log == before.log + [Event(ops[k].id, Some(Queued), Assigned, "", ops[k].now)];
    hide Replay, Apply, Enabled;
    assert after.log[|before.log|] == Event(ops[k].id, Some(Queued), Assigned, "", ops[k].now);
  }

  lemma OnlyClaimsAssign(db: Db, op: Op, x: nat)
    requires Enabled(db, op) && Disciplined(op) && |db.log| <= x < |Apply(db, op).log|
    requires Apply(db, op).log[x].to == Assigned
    ensures op.Claim? && x == |db.log|
  {
  }

  /** Conversely every event into assigned is the event of some claim. */
  lemma {:induction false} AssignmentsAreClaims(ops: seq<Op>, x: nat)
    requires Legal(ops) && (forall k | 0 <= k < |ops| :: Disciplined(ops[k]))
    requires x < |At(ops).log| && At(ops).log[x].to == Assigned
    ensures exists k: nat :: k in Claims(ops) && Legal(ops[..k]) && LogStart(ops, k) == x
  {
    if ops == [] {
    } else {
      LegalFront(ops);
      var before, n := Front(ops), |ops| - 1;
      LogGrows(At(before), Last(ops));
      if x < |At(before).log| {
        hide Replay, Apply, Enabled, Disciplined;
        assert forall k | 0 <= k < n :: before[k] == ops[k];
        AssignmentsAreClaims(before, x);
        var k: nat :| k in Claims(before) && Legal(before[..k]) && LogStart(before, k) == x;
        assert before[..k] == ops[..k];
        assert k in Claims(ops) && LogStart(ops, k) == x;
      } else {
        assert Disciplined(ops[n]);
        OnlyClaimsAssign(At(before), Last(ops), x);
        hide Replay, Apply, Enabled, Disciplined;
        assert ops[..n] == before;
        assert n in Claims(ops) && LogStart(ops, n) == x;
      }
    }
  }
}
