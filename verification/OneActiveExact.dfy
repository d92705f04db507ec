/** `Careful` asks no more than it must: after a step that is not careful, the events under way can go on to make
    two rows of one pull request active, with no help but that of agents reporting previews done or failed. */
module OneActiveExact {
  import opened Previews
  import opened Queries
  import opened History
  import opened Hub
  import opened HubRuns
  import opened Rule = OneActive
  import opened OneActiveHub

  // ---------- going on without a new event ----------

  predicate Ends(r: Report) { r.status in {Done, Failed} }

  /** A step of an event under way, or of an agent reporting that a preview is done or failed. */
  predicate Quiet(s: Sys, a: Action) {
    || PushStep(s, a)
    || (a.OnReport? && Ends(a.report))
    || (a.DoReport? && a.tid in s.threads && s.threads[a.tid].Reporting? && Ends(s.threads[a.tid].report))
  }

  /** Such steps can give a pull request two active rows. */
  ghost predicate Breakable(s: Sys) { CanBreak(Quiet, Rule.OneActive, s) }

  lemma Broken(s: Sys)
    requires Legal(s.ops) && !Rule.OneActive(DbOf(s))
    ensures Breakable(s)
  {
    BrokenNow(Quiet, Rule.OneActive, s);
  }

  lemma Prepend(s: Sys, a: Action)
    requires Legal(s.ops) && Can(s, a) && Quiet(s, a)
    ensures Legal(Next(s, a).ops) && (Breakable(Next(s, a)) ==> Breakable(s))
  {
    hide Can, Next, Replay, Rule.OneActive, Quiet;
    BrokenLater(Quiet, Rule.OneActive, s, a);
  }

  // ---------- a state with room cannot be broken ----------

  lemma QuietIsCareful(s: Sys, a: Action)
    requires Legal(s.ops) && Can(s, a) && Quiet(s, a)
    ensures Careful(s, a)
  {
    hide Replay, MayActivate, MayBegin, Enabled, Tame;
    if a.DoReport? && OpOf(s, a).Some? { EndIsTame(DbOf(s), OpOf(s, a).value); }
  }

  lemma EndIsTame(db: Db, op: Op)
    requires Enabled(db, op) && op.Update? && op.to in {Done, Failed}
    ensures Tame(db, op)
  {
  }

  lemma {:induction false} RoomStays(s: Sys, steps: seq<Action>, t: Sys)
    requires Legal(s.ops) && Leads(Quiet, s, steps, t) && PrInv(s) && WellFormed(s)
    ensures Legal(t.ops) && PrInv(t)
    decreases |steps|
  {
    hide Can, Next, Quiet, Replay, PrInv, WellFormed, Careful;
    if steps == [] {
    } else {
      QuietIsCareful(s, steps[0]);
      CarefulStep(s, steps[0]);
      WellFormedStep(s, steps[0]);
      RoomStays(Next(s, steps[0]), steps[1..], t);
    }
  }

  lemma RoomIsSafe(s: Sys)
    requires Legal(s.ops) && PrInv(s) && WellFormed(s)
    ensures !Breakable(s)
  {
    hide Can, Next, Replay, WellFormed, Leads, ThreadsOk;
    forall steps, t | Leads(Quiet, s, steps, t) && Legal(t.ops) ensures Rule.OneActive(DbOf(t)) { RoomStays(s, steps, t); }
  }

  // ---------- single moves ----------

  /** The system can go on from s to t, leaving the threads but one as they are. */
  ghost predicate Onward(s: Sys, t: Sys, tid: nat)
  {
    && Legal(s.ops) && Legal(t.ops) && (Breakable(t) ==> Breakable(s))
    && (forall u | u in s.threads && u != tid :: u in t.threads && t.threads[u] == s.threads[u])
  }

  predicate SameKey(r: Row, r': Row) { r.repo == r'.repo && r.pr == r'.pr && r.sha == r'.sha }

  lemma FreshTid(threads: map<nat, Thread>) returns (t: nat)
    ensures t !in threads
  {
    t := Bound(threads.Keys);
  }

  lemma {:induction false} Bound(ids: set<nat>) returns (n: nat)
    ensures forall i | i in ids :: i < n
  {
    if ids == {} {
      n := 0;
    } else {
      var i :| i in ids;
      var m := Bound(ids - {i});
      n := if m <= i then i + 1 else m;
      assert forall j | j in ids :: j == i || j in ids - {i};
    }
  }

  function Ending(id: string, status: Status): Report { Report(id, status, "", None, None, None, None, None, None) }

  lemma ReportArrives(s: Sys, f: nat, id: string, status: Status)
    requires Legal(s.ops) && f !in s.threads && status in {Done, Failed}
    ensures var a := OnReport(f, "g", Ending(id, status));
      Can(s, a) && Quiet(s, a) && OpOf(s, a).None? && Then(s, a) == Reporting("g", Ending(id, status))
  {
    hide Replay;
  }

  lemma ReportCommits(s: Sys, f: nat, id: string, status: Status)
    requires Legal(s.ops) && status in {Done, Failed} && id in DbOf(s).rows
    requires f in s.threads && s.threads[f] == Reporting("g", Ending(id, status))
    ensures var a := DoReport(f, 0);
      Can(s, a) && Quiet(s, a) && OpOf(s, a) == Some(ReportOp("g", Ending(id, status), 0))
  {
    hide Replay;
  }

  lemma ReportedRow(db: Db, id: string, status: Status)
    requires status in {Done, Failed} && Enabled(db, ReportOp("g", Ending(id, status), 0))
    ensures var after := Apply(db, ReportOp("g", Ending(id, status), 0));
      OnlyRow(db, after, id) && after.rows[id].status == status && SameKey(after.rows[id], db.rows[id])
  {
  }

  /** An agent reports a row done or failed. */
  lemma Reported(s: Sys, id: string, status: Status, tid: nat) returns (t: Sys)
    requires Legal(s.ops) && id in DbOf(s).rows && status in {Done, Failed} && tid in s.threads
    ensures Legal(t.ops) && Onward(s, t, tid) && OnlyRow(DbOf(s), DbOf(t), id) && tid in t.threads && t.threads[tid] == s.threads[tid]
    ensures DbOf(t).rows[id].status == status && SameKey(DbOf(t).rows[id], DbOf(s).rows[id])
  {
    var f := FreshTid(s.threads);
    var a, b := OnReport(f, "g", Ending(id, status)), DoReport(f, 0);
    ReportArrives(s, f, id, status);
    Prepend(s, a);
    NextDb(s, a);
    NextThreads(s, a);
    var mid := Next(s, a);
    hide Can, Next, OpOf, Then, Quiet, Breakable, Replay, OnlyRow, SameKey;
    ReportCommits(mid, f, id, status);
    Prepend(mid, b);
    NextDb(mid, b);
    NextThreads(mid, b);
    t := Next(mid, b);
    ReportedRow(DbOf(mid), id, status);
  }

  lemma CanSupersede(s: Sys, tid: nat)
    requires Legal(s.ops) && tid in s.threads && s.threads[tid].Superseding? && Shaped(DbOf(s), s.threads[tid])
    ensures Can(s, DoSupersede(tid, 0)) && Enabled(DbOf(s), SupersedeOp(s.threads[tid].push, s.threads[tid].prior, 0))
  {
    hide Replay;
  }

  lemma SupersededRow(db: Db, push: Push, prior: string)
    requires Enabled(db, SupersedeOp(push, prior, 0))
    ensures var after := Apply(db, SupersedeOp(push, prior, 0));
      OnlyRow(db, after, prior) && after.rows[prior].status == Teardown && SameKey(after.rows[prior], db.rows[prior])
  {
  }

  /** The event supersedes. */
  lemma SupersedeFirst(s: Sys, tid: nat) returns (t: Sys)
    requires Legal(s.ops) && tid in s.threads && s.threads[tid].Superseding? && Shaped(DbOf(s), s.threads[tid])
    ensures var th := s.threads[tid];
      && Legal(t.ops) && Onward(s, t, tid) && OnlyRow(DbOf(s), DbOf(t), th.prior)
      && tid in t.threads && t.threads[tid] == Upserting(th.push, Some(th.prior))
      && th.prior in DbOf(s).rows && SameKey(DbOf(t).rows[th.prior], DbOf(s).rows[th.prior])
  {
    var a, th := DoSupersede(tid, 0), s.threads[tid];
    CanSupersede(s, tid);
    assert Quiet(s, a);
    SupersedeThen(s, a);
    Prepend(s, a);
    NextDb(s, a);
    NextThreads(s, a);
    SupersededRow(DbOf(s), th.push, th.prior);
    t := Next(s, a);
    hide Can, Next, OpOf, Then, Quiet, Breakable, Replay, OnlyRow, SameKey, Apply, Enabled;
  }

  lemma CanReopen(s: Sys, tid: nat, c: Call)
    requires Legal(s.ops) && tid in s.threads && s.threads[tid] == Calling([c]) && c.caller == Webhook
    requires CallShaped(DbOf(s), c) && c.from == Some(DbOf(s).rows[c.id].status)
    ensures Can(s, DoCall(tid, 0)) && Quiet(s, DoCall(tid, 0)) && Enabled(DbOf(s), CallOp(c, 0))
  {
    hide Replay;
  }

  lemma ReopenedRow(db: Db, c: Call)
    requires CallShaped(db, c) && Enabled(db, CallOp(c, 0))
    ensures var after := Apply(db, CallOp(c, 0));
      OnlyRow(db, after, c.id) && after.rows[c.id].status == Queued && SameKey(after.rows[c.id], db.rows[c.id])
  {
  }

  /** The event reopens a row that is as it found it. */
  lemma ReopensNow(s: Sys, tid: nat, c: Call) returns (t: Sys)
    requires Legal(s.ops) && tid in s.threads && s.threads[tid] == Calling([c]) && c.caller == Webhook
    requires CallShaped(DbOf(s), c) && c.from == Some(DbOf(s).rows[c.id].status)
    ensures Legal(t.ops) && Onward(s, t, tid) && OnlyRow(DbOf(s), DbOf(t), c.id)
    ensures DbOf(t).rows[c.id].status == Queued && SameKey(DbOf(t).rows[c.id], DbOf(s).rows[c.id])
  {
    var a := DoCall(tid, 0);
    CanReopen(s, tid, c);
    ReopenThen(s, a);
    Prepend(s, a);
    NextDb(s, a);
    NextThreads(s, a);
    ReopenedRow(DbOf(s), c);
    t := Next(s, a);
    hide Can, Next, OpOf, Then, Quiet, Breakable, Replay, OnlyRow, SameKey, Apply, Enabled, CallShaped;
  }

  lemma OnwardTwice(s: Sys, mid: Sys, t: Sys, tid: nat)
    requires Onward(s, mid, tid) && Onward(mid, t, tid)
    ensures Onward(s, t, tid)
  {
    hide Breakable, Replay;
  }

  lemma RowTwice(db: Db, mid: Db, after: Db, id: string)
    requires OnlyRow(db, mid, id) && OnlyRow(mid, after, id)
    ensures OnlyRow(db, after, id)
  {
  }

  /** The event reopens its row, once an agent has reported it as the event found it. */
  lemma Reopen(s: Sys, tid: nat, c: Call) returns (t: Sys)
    requires Legal(s.ops) && tid in s.threads && s.threads[tid] == Calling([c]) && c.caller == Webhook
    requires CallShaped(DbOf(s), c) && c.from != Some(Queued)
    ensures Legal(t.ops) && Onward(s, t, tid) && OnlyRow(DbOf(s), DbOf(t), c.id)
    ensures DbOf(t).rows[c.id].status == Queued && SameKey(DbOf(t).rows[c.id], DbOf(s).rows[c.id])
  {
    hide Onward, OnlyRow, Replay;
    var mid := Reported(s, c.id, c.from.value, tid);
    assert c.id in DbOf(mid).rows by { OnlyRowHas(DbOf(s), DbOf(mid), c.id); }
    t := ReopensNow(mid, tid, c);
    OnwardTwice(s, mid, t, tid);
    RowTwice(DbOf(s), DbOf(mid), DbOf(t), c.id);
  }

  lemma OnlyRowHas(db: Db, after: Db, id: string)
    requires OnlyRow(db, after, id)
    ensures id in after.rows
  {
  }

  lemma CanUpsert(s: Sys, tid: nat, existing: Option<string>)
    requires Legal(s.ops) && tid in s.threads && s.threads[tid].Upserting? && IsUpsertLookup(DbOf(s), s.threads[tid].push.input, existing)
    ensures Can(s, DoUpsert(tid, existing)) && Quiet(s, DoUpsert(tid, existing))
  {
    hide Replay;
  }

  predicate IsReopening(db: Db, th: Thread, id: string) {
    && th.Calling? && |th.calls| == 1 && th == Calling([th.calls[0]]) && th.calls[0].caller == Webhook && th.calls[0].id == id
    && CallShaped(db, th.calls[0]) && th.calls[0].from != Some(Queued)
  }

  /** The row of an event's upsert: a new queued one, or the old one in the event's pull request. */
  lemma UpsertedRow(db: Db, push: Push, superseded: Option<string>, existing: Option<string>)
    requires IsUpsertLookup(db, push.input, existing) && UpsertOp(db, push.input, existing).Some?
    ensures var after, th := Apply(db, UpsertOp(db, push.input, existing).value), AfterUpsert(db, push, superseded, existing, true);
      var target := if existing.Some? then existing.value else push.input.id;
      && OnlyRow(db, after, target) && SamePr(after.rows[target], push.input.repo, push.input.pr)
      && after.rows[target].sha == NullIfEmpty(push.input.sha)
      && (existing.None? ==> after.rows[target].status == Queued)
      && (existing.Some? ==> target in db.rows && after.rows[target].status == db.rows[target].status)
      && (existing.Some? && db.rows[target].status in {Done, Failed} ==> IsReopening(after, th, target))
  {
  }

  lemma ReopeningCall(db: Db, th: Thread, id: string) returns (c: Call)
    requires IsReopening(db, th, id)
    ensures th == Calling([c]) && c.caller == Webhook && c.id == id && CallShaped(db, c) && c.from != Some(Queued)
  {
    c := th.calls[0];
  }

  /** The event upserts, finding `existing`. */
  lemma Upserts(s: Sys, tid: nat, existing: Option<string>) returns (t: Sys)
    requires Legal(s.ops) && tid in s.threads && s.threads[tid].Upserting?
    requires IsUpsertLookup(DbOf(s), s.threads[tid].push.input, existing) && s.threads[tid].push.input.id !in DbOf(s).rows
    ensures var p, db := s.threads[tid].push.input, DbOf(s);
      var target := if existing.Some? then existing.value else p.id;
      && Legal(t.ops) && Onward(s, t, tid) && OnlyRow(db, DbOf(t), target)
      && SamePr(DbOf(t).rows[target], p.repo, p.pr) && DbOf(t).rows[target].sha == NullIfEmpty(p.sha)
      && (existing.None? ==> DbOf(t).rows[target].status == Queued)
      && (existing.Some? ==> target in db.rows && DbOf(t).rows[target].status == db.rows[target].status)
      && (existing.Some? && db.rows[target].status in {Done, Failed} ==>
            tid in t.threads && IsReopening(DbOf(t), t.threads[tid], target))
  {
    var a, push := DoUpsert(tid, existing), s.threads[tid].push;
    CanUpsert(s, tid, existing);
    UpsertThen(s, a);
    Prepend(s, a);
    NextDb(s, a);
    NextThreads(s, a);
    UpsertWorks(DbOf(s), push.input, existing);
    UpsertedRow(DbOf(s), push, s.threads[tid].superseded, existing);
    t := Next(s, a);
    hide Can, Next, OpOf, Then, Quiet, Breakable, Replay, OnlyRow, Apply, Enabled, UpsertOp, AfterUpsert, IsReopening,
      IsUpsertLookup, CallShaped;
  }

  // ---------- an event lands its row ----------

  /** The event's row is active in its pull request; no other changed. */
  ghost predicate Landed(db: Db, after: Db, p: Input, target: string) {
    && OnlyRow(db, after, target) && Active(after.rows[target].status) && SamePr(after.rows[target], p.repo, p.pr)
    && after.rows[target].sha == NullIfEmpty(p.sha)
    && (if target in db.rows then p.sha != "" && db.rows[target].sha == Some(p.sha) else target == p.id)
  }

  lemma LandsOld(s: Sys, tid: nat, target: string) returns (t: Sys)
    requires Legal(s.ops) && tid in s.threads && s.threads[tid].Upserting? && s.threads[tid].push.input.id !in DbOf(s).rows
    requires IsUpsertLookup(DbOf(s), s.threads[tid].push.input, Some(target)) && target in DbOf(s).rows
    requires Active(DbOf(s).rows[target].status) || DbOf(s).rows[target].status in {Done, Failed}
    ensures Legal(t.ops) && Onward(s, t, tid) && Landed(DbOf(s), DbOf(t), s.threads[tid].push.input, target)
  {
    hide Onward, Replay, IsReopening;
    var p := s.threads[tid].push.input;
    assert p.sha != "" && DbOf(s).rows[target].sha == Some(p.sha);
    t := Upserts(s, tid, Some(target));
    if !Active(DbOf(s).rows[target].status) {
      var mid := t;
      var c := ReopeningCall(DbOf(mid), mid.threads[tid], target);
      t := Reopen(mid, tid, c);
      OnwardTwice(s, mid, t, tid);
    }
  }

  lemma LandsRefused(s: Sys, tid: nat, target: string) returns (t: Sys)
    requires Legal(s.ops) && tid in s.threads && s.threads[tid].Upserting? && s.threads[tid].push.input.id !in DbOf(s).rows
    requires IsUpsertLookup(DbOf(s), s.threads[tid].push.input, Some(target)) && target in DbOf(s).rows
    ensures Legal(t.ops) && Onward(s, t, tid) && Landed(DbOf(s), DbOf(t), s.threads[tid].push.input, target)
  {
    hide Onward, Replay;
    var p := s.threads[tid].push.input;
    var mid := Reported(s, target, Done, tid);
    assert target in ShaIds(DbOf(mid), p.repo, p.sha);
    t := LandsOld(mid, tid, target);
    OnwardTwice(s, mid, t, tid);
  }

  /** From its upsert on, an event can land its row; a row in teardown has to be reported done first. */
  lemma LandsRow(s: Sys, tid: nat) returns (t: Sys, target: string)
    requires Legal(s.ops) && tid in s.threads && s.threads[tid].Upserting? && s.threads[tid].push.input.id !in DbOf(s).rows
    ensures Legal(t.ops) && Onward(s, t, tid) && Landed(DbOf(s), DbOf(t), s.threads[tid].push.input, target)
  {
    hide Onward, Replay, Landed;
    var p := s.threads[tid].push.input;
    var existing := AnExisting(DbOf(s), p);
    if existing.None? {
      target := p.id;
      t := Upserts(s, tid, None);
      assert Landed(DbOf(s), DbOf(t), p, target) by { LandedNew(DbOf(s), DbOf(t), p); }
    } else {
      target := existing.value;
      assert target in DbOf(s).rows;
      var status := DbOf(s).rows[target].status;
      if Active(status) || status in {Done, Failed} {
        t := LandsOld(s, tid, target);
      } else {
        t := LandsRefused(s, tid, target);
      }
    }
  }

  lemma LandedNew(db: Db, after: Db, p: Input)
    requires p.id !in db.rows && OnlyRow(db, after, p.id) && after.rows[p.id].status == Queued
    requires SamePr(after.rows[p.id], p.repo, p.pr) && after.rows[p.id].sha == NullIfEmpty(p.sha)
    ensures Landed(db, after, p, p.id)
  {
  }

  // ---------- an event without room ----------

  lemma UpsertBreaks(s: Sys, tid: nat, y: string)
    requires Legal(s.ops) && tid in s.threads && s.threads[tid].Upserting? && s.threads[tid].push.input.id !in DbOf(s).rows
    requires var p := s.threads[tid].push.input; p.pr != 0 && y in ActiveIds(DbOf(s), p.repo, p.pr) && !OfSha(DbOf(s).rows[y], p.sha)
    ensures Breakable(s)
  {
    hide Breakable, Replay;
    var t, target := LandsRow(s, tid);
    assert y != target && DbOf(t).rows[y] == DbOf(s).rows[y];
    Broken(t);
  }

  lemma SupersedeBreaks(s: Sys, tid: nat, y: string)
    requires Legal(s.ops) && tid in s.threads && s.threads[tid].Superseding? && s.threads[tid].push.input.id !in DbOf(s).rows
    requires Shaped(DbOf(s), s.threads[tid])
    requires var p := s.threads[tid].push.input; y in ActiveIds(DbOf(s), p.repo, p.pr) && !Passes(DbOf(s), s.threads[tid], y)
    ensures Breakable(s)
  {
    hide Breakable, Replay;
    var t := SupersedeFirst(s, tid);
    assert DbOf(t).rows[y] == DbOf(s).rows[y];
    UpsertBreaks(t, tid, y);
  }

  lemma ReopenBreaks(s: Sys, tid: nat, c: Call, y: string)
    requires Legal(s.ops) && tid in s.threads && s.threads[tid] == Calling([c]) && c.caller == Webhook
    requires CallShaped(DbOf(s), c) && c.from != Some(Queued) && DbOf(s).rows[c.id].pr != 0
    requires y != c.id && y in ActiveIds(DbOf(s), DbOf(s).rows[c.id].repo, DbOf(s).rows[c.id].pr)
    ensures Breakable(s)
  {
    hide Breakable, Replay;
    var t := Reopen(s, tid, c);
    assert DbOf(t).rows[y] == DbOf(s).rows[y];
    Broken(t);
  }

  function NewId(th: Thread): Option<string> {
    if th.Superseding? || th.Upserting? then Some(th.push.input.id) else None
  }

  lemma NoRoomBreaks(s: Sys, tid: nat)
    requires Legal(s.ops) && tid in s.threads && Shaped(DbOf(s), s.threads[tid]) && !HasRoom(DbOf(s), s.threads[tid])
    requires NewId(s.threads[tid]).Some? ==> NewId(s.threads[tid]).value !in DbOf(s).rows
    ensures Breakable(s)
  {
    hide Breakable, Replay;
    var db, th := DbOf(s), s.threads[tid];
    var aim := AimOf(db, th).value;
    var y :| y in ActiveIds(db, aim.repo, aim.pr) && !Passes(db, th, y);
    match th
    case Superseding(_, _) => SupersedeBreaks(s, tid, y);
    case Upserting(_, _) => UpsertBreaks(s, tid, y);
    case Calling(calls) =>
      assert calls == [calls[0]];
      ReopenBreaks(s, tid, calls[0], y);
    case _ =>
  }

  // ---------- two events that clash ----------

  /** The event can land a row of its commit at its aim; the others keep pull request and sha. */
  ghost predicate LandsAt(db: Db, after: Db, th: Thread, aim: Aim, target: string) {
    && target in ActiveIds(after, aim.repo, aim.pr) && ShaText(after.rows[target].sha) == aim.sha
    && (forall id | id in db.rows && id != target :: id in after.rows && SameKey(after.rows[id], db.rows[id]))
    && (forall id | id in after.rows :: id in db.rows || id == target)
    && (if target in db.rows then aim.sha != "" && ShaText(db.rows[target].sha) == aim.sha else NewId(th) == Some(target))
  }

  lemma PushLands(s: Sys, tid: nat) returns (t: Sys, target: string)
    requires Legal(s.ops) && tid in s.threads && s.threads[tid].Upserting? && s.threads[tid].push.input.id !in DbOf(s).rows
    ensures Legal(t.ops) && Onward(s, t, tid) && LandsAt(DbOf(s), DbOf(t), s.threads[tid], PushAim(s.threads[tid].push), target)
  {
    hide Onward, Replay;
    t, target := LandsRow(s, tid);
  }

  lemma SupersedingLands(s: Sys, tid: nat) returns (t: Sys, target: string)
    requires Legal(s.ops) && tid in s.threads && s.threads[tid].Superseding? && s.threads[tid].push.input.id !in DbOf(s).rows
    requires Shaped(DbOf(s), s.threads[tid])
    ensures Legal(t.ops) && Onward(s, t, tid) && LandsAt(DbOf(s), DbOf(t), s.threads[tid], PushAim(s.threads[tid].push), target)
  {
    hide Onward, Replay;
    var mid := SupersedeFirst(s, tid);
    t, target := PushLands(mid, tid);
    OnwardTwice(s, mid, t, tid);
  }

  lemma AimLands(s: Sys, tid: nat) returns (t: Sys, target: string)
    requires Legal(s.ops) && tid in s.threads && Shaped(DbOf(s), s.threads[tid]) && AimOf(DbOf(s), s.threads[tid]).Some?
    requires ShasNonEmpty(DbOf(s))
    requires NewId(s.threads[tid]).Some? ==> NewId(s.threads[tid]).value !in DbOf(s).rows
    ensures Legal(t.ops) && Onward(s, t, tid) && LandsAt(DbOf(s), DbOf(t), s.threads[tid], AimOf(DbOf(s), s.threads[tid]).value, target)
  {
    hide Onward, Replay;
    var th := s.threads[tid];
    if th.Superseding? {
      t, target := SupersedingLands(s, tid);
    } else if th.Upserting? {
      t, target := PushLands(s, tid);
    } else {
      var c := th.calls[0];
      assert th == Calling([c]);
      target := c.id;
      t := Reopen(s, tid, c);
    }
  }

  /** The row one of them lands is in the other's way. */
  lemma InTheWay(db: Db, after: Db, th: Thread, other: Thread, target: string)
    requires AimOf(db, th).Some? && LandsAt(db, after, th, AimOf(db, th).value, target)
    requires Shaped(db, other) && !other.Superseding? && Clash(AimOf(db, th), AimOf(db, other))
    requires NewId(other).Some? ==> NewId(other) != NewId(th) && NewId(other).value !in db.rows
    ensures Shaped(after, other) && !HasRoom(after, other)
    ensures NewId(other).Some? ==> NewId(other).value !in after.rows
  {
    assert target in after.rows && !Passes(after, other, target);
    assert AimOf(after, other) == AimOf(db, other);
  }

  lemma LandedBreaks(s: Sys, tid: nat, u: nat)
    requires Legal(s.ops) && tid in s.threads && u in s.threads && tid != u && ShasNonEmpty(DbOf(s))
    requires Shaped(DbOf(s), s.threads[tid]) && Shaped(DbOf(s), s.threads[u]) && !s.threads[u].Superseding?
    requires Clash(AimOf(DbOf(s), s.threads[tid]), AimOf(DbOf(s), s.threads[u]))
    requires NewId(s.threads[tid]).Some? ==> NewId(s.threads[tid]).value !in DbOf(s).rows
    requires NewId(s.threads[u]).Some? ==> NewId(s.threads[u]).value !in DbOf(s).rows && NewId(s.threads[u]) != NewId(s.threads[tid])
    ensures Breakable(s)
  {
    hide Breakable, Replay, Shaped, LandsAt, HasRoom, AimOf;
    var t, target := AimLands(s, tid);
    InTheWay(DbOf(s), DbOf(t), s.threads[tid], s.threads[u], target);
    NoRoomBreaks(t, u);
  }

  lemma SameKeysSameAims(db: Db, after: Db, th: Thread)
    requires Shaped(db, th) && forall id | id in db.rows :: id in after.rows && SameKey(after.rows[id], db.rows[id])
    ensures Shaped(after, th) && AimOf(after, th) == AimOf(db, th)
  {
  }

  lemma ClashBreaks(s: Sys, tid: nat, u: nat)
    requires Legal(s.ops) && WellFormed(s) && FreshIds(s) && tid in s.threads && u in s.threads && tid != u
    requires Clash(AimOf(DbOf(s), s.threads[tid]), AimOf(DbOf(s), s.threads[u]))
    ensures Breakable(s)
  {
    hide Breakable, Replay, Shaped, ShasUnique, AimOf;
    var db := DbOf(s);
    if s.threads[u].Superseding? {
      var t := SupersedeFirst(s, u);
      assert forall id | id in db.rows :: id in DbOf(t).rows && SameKey(DbOf(t).rows[id], db.rows[id]);
      assert DbOf(t).rows.Keys == db.rows.Keys;
      SameKeysSameAims(db, DbOf(t), s.threads[tid]);
      SupersededIsShaped(db, DbOf(t), s.threads[u]);
      LandedBreaks(t, tid, u);
    } else {
      LandedBreaks(s, tid, u);
    }
  }

  lemma SupersededIsShaped(db: Db, after: Db, th: Thread)
    requires th.Superseding? && Shaped(db, th)
    ensures Shaped(after, Upserting(th.push, Some(th.prior)))
    ensures AimOf(after, Upserting(th.push, Some(th.prior))) == AimOf(db, th)
  {
  }

  // ---------- exactly the states with room ----------

  /** The ids of the events that have not upserted yet are new, and no two are the same: they are random. */
  predicate FreshIds(s: Sys)
    requires Legal(s.ops)
  {
    && (forall t | t in s.threads && NewId(s.threads[t]).Some? :: NewId(s.threads[t]).value !in DbOf(s).rows)
    && (forall t, u | t in s.threads && u in s.threads && t != u && NewId(s.threads[t]).Some? ::
          NewId(s.threads[t]) != NewId(s.threads[u]))
  }

  /** The invariant is the weakest one: without it the rule can be broken by what is already under way. */
  lemma UnbreakableIff(s: Sys)
    requires Legal(s.ops) && WellFormed(s) && FreshIds(s)
    ensures PrInv(s) <==> !Breakable(s)
  {
    hide Breakable, Replay, HasRoom, Clash, AimOf, Shaped, ShasUnique, ShasNonEmpty;
    if PrInv(s) {
      RoomIsSafe(s);
    } else if !Rule.OneActive(DbOf(s)) {
      Broken(s);
    } else if t :| t in s.threads && !HasRoom(DbOf(s), s.threads[t]) {
      NoRoomBreaks(s, t);
    } else {
      var t, u :| t in s.threads && u in s.threads && t != u && Clash(AimOf(DbOf(s), s.threads[t]), AimOf(DbOf(s), s.threads[u]));
      ClashBreaks(s, t, u);
    }
  }

  // ---------- exactly the careful steps ----------

  lemma CarelessPush(s: Sys, a: Action)
    requires Legal(s.ops) && Can(s, a) && a.OnPush? && !MayBegin(DbOf(s), s.threads, a.push, a.active)
    ensures Legal(Next(s, a).ops) && !PrInv(Next(s, a))
  {
    PushThen(s, a);
    NextDb(s, a);
    NextThreads(s, a);
    hide Can, Next, OpOf, Then, Replay, Rule.OneActive, Supersedes, IsNewest;
    var db, threads := DbOf(s), Next(s, a).threads;
    assert AimOf(db, threads[a.tid]) == Some(PushAim(a.push));
    if t :| t in s.threads && Clash(AimOf(db, s.threads[t]), Some(PushAim(a.push))) {
      assert t in threads && a.tid in threads && t != a.tid && Clash(AimOf(db, threads[t]), AimOf(db, threads[a.tid]));
    } else {
      var id :| id in ActiveIds(db, a.push.input.repo, a.push.input.pr) && !OfSha(db.rows[id], a.push.input.sha);
      assert !Passes(db, threads[a.tid], id) && !HasRoom(db, threads[a.tid]);
    }
  }

  /** Apart from events and their steps, only status changes can be other than tame. */
  lemma OnlyUpdatesAreWild(s: Sys, a: Action)
    requires Legal(s.ops) && Can(s, a) && WellFormed(s) && !PushStep(s, a) && OpOf(s, a).Some? && !Tame(DbOf(s), OpOf(s, a).value)
    ensures OpOf(s, a).value.Update? && a.tid in s.threads && AimOf(DbOf(s), s.threads[a.tid]).None?
  {
    hide Replay, Enabled, ShasUnique, ShasNonEmpty;
  }

  lemma WildUpdate(db: Db, threads: map<nat, Thread>, op: Op)
    requires Enabled(db, op) && op.Update? && !Tame(db, op) && !MayActivate(db, threads, op)
    ensures !Rule.OneActive(Apply(db, op)) || exists t :: t in threads && AimOf(db, threads[t]).Some? && !HasRoom(Apply(db, op), threads[t])
  {
    var r, after := db.rows[op.id], Apply(db, op);
    assert after.rows == db.rows[op.id := after.rows[op.id]];
    assert SamePr(after.rows[op.id], r.repo, r.pr) && Active(after.rows[op.id].status) && r.pr != 0;
    hide Apply, Enabled;
    if OtherActive(db, op.id, r.repo, r.pr) {
      var j :| j in db.rows && j != op.id && Active(db.rows[j].status) && SamePr(db.rows[j], r.repo, r.pr);
      assert after.rows[j] == db.rows[j];
    } else {
      var t :| t in threads && SamePlace(AimOf(db, threads[t]), Some(Aim(r.repo, r.pr, ""))) && !Passes(after, threads[t], op.id);
      assert op.id in ActiveIds(after, r.repo, r.pr);
      assert SamePlace(AimOf(after, threads[t]), Some(Aim(r.repo, r.pr, "")));
      assert !HasRoom(after, threads[t]);
    }
  }

  lemma CarelessUpdate(s: Sys, a: Action)
    requires Legal(s.ops) && Can(s, a) && WellFormed(s) && !PushStep(s, a) && !a.OnPush? && !Careful(s, a)
    ensures Legal(Next(s, a).ops) && !PrInv(Next(s, a))
  {
    OnlyUpdatesAreWild(s, a);
    UpdatesByThreads(s, a);
    NextDb(s, a);
    NextThreads(s, a);
    hide Can, Next, OpOf, Then, Replay, Apply, Enabled, Rule.OneActive, HasRoom, AimOf, Tame, MayActivate, WellFormed,
      PushStep;
    WildUpdate(DbOf(s), s.threads, OpOf(s, a).value);
    if Rule.OneActive(DbOf(Next(s, a))) {
      var t :| t in s.threads && AimOf(DbOf(s), s.threads[t]).Some? && !HasRoom(DbOf(Next(s, a)), s.threads[t]);
      assert t != a.tid && Next(s, a).threads[t] == s.threads[t];
      assert !ThreadsOk(DbOf(Next(s, a)), Next(s, a).threads);
    }
  }

  lemma CarelessStep(s: Sys, a: Action)
    requires Legal(s.ops) && Can(s, a) && WellFormed(s) && !Careful(s, a)
    ensures Legal(Next(s, a).ops) && !PrInv(Next(s, a))
  {
    hide Can, Next, Replay, PrInv, WellFormed, MayBegin, MayActivate, Tame;
    if a.OnPush? {
      PushReads(s, a);
      CarelessPush(s, a);
    } else {
      CarelessUpdate(s, a);
    }
  }

  lemma PushReads(s: Sys, a: Action)
    requires Legal(s.ops) && Can(s, a) && a.OnPush?
    ensures OpOf(s, a).None?
  {
    hide Can, Replay;
  }

  /** After any careful run, a step is careful exactly when what is then under way cannot break the rule: an event
      that begins beside a row it overlooks or beside one for another commit of its pull request, a rebuild, a late
      report, each can be completed to two active rows of one pull request, and no other step can. */
  lemma CarefulIff(actions: seq<Action>, a: Action)
    requires After(actions).Some? && Obeys(Careful, actions) && Can(After(actions).value, a)
    ensures var s := After(actions).value;
      && Legal(Next(s, a).ops)
      && (Careful(s, a) ==> !Breakable(Next(s, a)))
      && (!Careful(s, a) && FreshIds(Next(s, a)) ==> Breakable(Next(s, a)))
  {
    hide Can, Next, Replay, PrInv, WellFormed, Careful, Breakable, FreshIds, Obeys, After;
    var s := After(actions).value;
    PrInvAlways(actions);
    WellFormedAlways(actions);
    WellFormedStep(s, a);
    if Careful(s, a) {
      CarefulStep(s, a);
      RoomIsSafe(Next(s, a));
    } else {
      CarelessStep(s, a);
      if FreshIds(Next(s, a)) { UnbreakableIff(Next(s, a)); }
    }
  }
}
