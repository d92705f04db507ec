/** The GitHub webhook handler, run without interruption. */
module Webhook {
  import opened Previews
  import opened Queries
  import opened Hub
  import opened OneActive
  import opened Store

  datatype Reply = Accepted(id: string, status: Status) | Ignored | InternalError

  class WebhookHandler {
    const store: PreviewStore
    /** JOB_TEARDOWN requests handed to the sender, as (agent, preview). */
    var teardowns: seq<(string, string)>

    constructor (store: PreviewStore)
      ensures this.store == store && teardowns == []
    {
      this.store, teardowns := store, [];
    }

    /** opened, synchronize and reopened.  The lookups' answers are returned as ghosts; `PushMeans` says what the
        new tables are, column by column.  A teardown is requested for each active row that ends in teardown, of the
        agent it was with. */
    method HandleUpsert(push: Push, now: int)
      returns (reply: Reply, ghost active: Option<string>, ghost existing: Option<string>)
      requires store.Valid()
      modifies store, this`teardowns
      ensures store.Valid()
      ensures Looked(old(store.Tables()), push, active)
      ensures IsUpsertLookup(AfterSupersede(old(store.Tables()), push, active, now), push.input, existing)
      ensures store.Tables() == PushResult(old(store.Tables()), push, active, existing, now, ALL_WRITES)
      ensures ReplyIs(reply, old(store.Tables()), store.Tables(), push.input, existing)
      ensures if push.input.id in old(store.rows) then reply == InternalError
        else
          var target := if existing.Some? then existing.value else push.input.id;
          target in store.rows && reply == Accepted(target, store.rows[target].status)
      ensures old(teardowns) <= teardowns && |teardowns| <= |old(teardowns)| + 1
      ensures forall a, id :: (a, id) in teardowns[|old(teardowns)|..] <==>
        && id in old(store.rows) && old(store.rows)[id].status in {Queued, Assigned, Building, Running}
        && old(store.rows)[id].agent == Some(a) && id in store.rows && store.rows[id].status == Teardown
    {
      var superseded;
      superseded, active := SupersedeActive(push, now);
      assert store.rows.Keys == old(store.rows).Keys;
      hide Looked, TeardownFor, AfterSupersede, Tail, IsUpsertLookup, ReplyIs;
      reply, existing := UpsertAndReopen(push, superseded, now);
      AnswerMeans(reply, old(store.Tables()), store.Tables(), push.input, existing);
      hide PushResult, Supersedes;
      RequestsMean(old(store.Tables()), push, active, existing, now);
    }

    /** closed: the newest row of the pull request, whatever its status, goes to teardown. */
    method HandleClose(repo: string, pr: int, now: int) returns (reply: Reply, ghost newest: Option<string>)
      requires store.Valid()
      modifies store, this`teardowns
      ensures store.Valid() && IsNewest(old(store.Tables()), PrIds(old(store.Tables()), repo, pr), newest)
      ensures newest.None? ==> reply == Ignored && store.Tables() == old(store.Tables()) && teardowns == old(teardowns)
      ensures newest.Some? ==>
        && newest.value in old(store.rows)
        && reply == Accepted(newest.value, Teardown)
        && Stepped(old(store.Tables()), CloseOp(newest.value, now), store.Tables())
        && teardowns == old(teardowns) + TeardownOf(old(store.rows)[newest.value].agent, newest.value)
      ensures forall id | id in old(store.rows) && old(store.rows)[id].repo == repo && old(store.rows)[id].pr == pr ::
        newest.Some? && newest.value in old(store.rows) && old(store.rows)[id].createdAt <= old(store.rows)[newest.value].createdAt
      ensures newest.Some? ==>
        var id, was := newest.value, old(store.rows)[newest.value];
        && was.repo == repo && was.pr == pr
        && store.rows == old(store.rows)[id := was.(status := Teardown, updatedAt := now, urls := "", error := Some("closed_via_webhook"))]
        && store.log == old(store.log) + [Event(id, Some(was.status), Teardown, "closed_via_webhook", now)]
        && teardowns == old(teardowns) + if was.agent.Some? then [(was.agent.value, id)] else []
    {
      hide Replay, Apply;
      var found := store.Newest(PrIds(store.Tables(), repo, pr));
      newest := found;
      assert forall id | id in store.rows && store.rows[id].repo == repo && store.rows[id].pr == pr :: id in PrIds(store.Tables(), repo, pr);
      if found.None? { return Ignored, newest; }
      var was := store.rows[found.value];
      var o := store.UpdateStatus(found.value, None, Teardown, "closed_via_webhook", now,
                                  NO_FIELDS.(error := Some("closed_via_webhook")), Closer);
      if was.agent.Some? { teardowns := teardowns + [(was.agent.value, found.value)]; }
      reply := Accepted(found.value, Teardown);
    }

    /** Case B of the decision matrix: an active row with another sha is torn down first. */
    method SupersedeActive(push: Push, now: int) returns (superseded: Option<string>, ghost active: Option<string>)
      requires store.Valid()
      modifies store, this`teardowns
      ensures store.Valid() && Looked(old(store.Tables()), push, active)
      ensures store.Tables() == AfterSupersede(old(store.Tables()), push, active, now)
      ensures store.rows.Keys == old(store.rows).Keys
      ensures superseded == if Supersedes(old(store.Tables()), push, active) then active else None
      ensures teardowns == old(teardowns) + TeardownFor(old(store.Tables()), push, active)
      ensures active.Some? ==>
        && push.action == "synchronize" && active.value in old(store.rows)
        && old(store.rows)[active.value].repo == push.input.repo && old(store.rows)[active.value].pr == push.input.pr
        && old(store.rows)[active.value].status in {Queued, Assigned, Building, Running}
      ensures push.action == "synchronize" ==>
        forall id | id in old(store.rows) && old(store.rows)[id].repo == push.input.repo && old(store.rows)[id].pr == push.input.pr
                    && old(store.rows)[id].status in {Queued, Assigned, Building, Running} ::
          active.Some? && active.value in old(store.rows) && old(store.rows)[id].createdAt <= old(store.rows)[active.value].createdAt
      ensures superseded.Some? <==>
        && active.Some? && active.value in old(store.rows)
        && (if old(store.rows)[active.value].sha.Some? then old(store.rows)[active.value].sha.value else "") != push.input.sha
      ensures superseded.None? ==> store.rows == old(store.rows) && store.log == old(store.log) && teardowns == old(teardowns)
      ensures superseded.Some? ==> superseded == active && active.value in old(store.rows)
      ensures superseded.Some? ==>
        var id, was, note := superseded.value, old(store.rows)[superseded.value], "superseded_by_sha=" + push.input.sha;
        && store.rows == old(store.rows)[id := was.(status := Teardown, updatedAt := now, urls := "", error := Some(note))]
        && store.log == old(store.log) + [Event(id, Some(was.status), Teardown, note, now)]
        && teardowns == old(teardowns) + if was.agent.Some? then [(was.agent.value, id)] else []
    {
      var found: Option<string> := None;
      superseded := None;
      if push.action == "synchronize" {
        found := store.GetActiveByRepoAndPR(push.input.repo, push.input.pr);
        if found.Some? && ShaText(store.rows[found.value].sha) != push.input.sha {
          var was := store.rows[found.value];
          var o := store.UpdateStatus(found.value, None, Teardown, "superseded_by_sha=" + push.input.sha, now,
                                      NO_FIELDS, Caller.Webhook);
          if was.agent.Some? {
            teardowns := teardowns + [(was.agent.value, found.value)];
          }
          superseded := found;
        }
      }
      active := found;
    }

    /** Cases A, C and D: upsert, then reopen a finished row or note what a new row supersedes. */
    method UpsertAndReopen(push: Push, superseded: Option<string>, now: int)
      returns (reply: Reply, ghost existing: Option<string>)
      requires store.Valid()
      modifies store
      ensures store.Valid() && IsUpsertLookup(old(store.Tables()), push.input, existing)
      ensures store.Tables() == Tail(old(store.Tables()), push, superseded, existing, now, ALL_WRITES)
      ensures ReplyIs(reply, old(store.Tables()), store.Tables(), push.input, existing)
    {
      var p := push.input;
      ghost var before := store.Tables();
      TakenIffListed(before, p.repo, p.sha);
      var r := store.Upsert(p);
      if r.IdClash? {
        existing := AnExisting(before, p);
        return InternalError, existing;
      }
      existing := Found(r);
      assert UpsertOp(before, p, existing).Some? && store.Tables() == Apply(before, UpsertOp(before, p, existing).value);
      hide UpsertOp, IsUpsertLookup, Apply, Tail, ReplyIs;
      reply := Conclude(push, superseded, r, before, now);
    }

    /** What follows a successful upsert, told by its result. */
    method Conclude(push: Push, superseded: Option<string>, r: UpsertResult, ghost before: Db, now: int) returns (reply: Reply)
      requires store.Valid() && !r.IdClash? && (r.Existing? ==> r.id in before.rows && r.prev == before.rows[r.id])
      requires IsUpsertLookup(before, push.input, Found(r)) && UpsertOp(before, push.input, Found(r)).Some?
      requires store.Tables() == Apply(before, UpsertOp(before, push.input, Found(r)).value)
      modifies store
      ensures store.Valid() && store.Tables() == Tail(before, push, superseded, Found(r), now, ALL_WRITES)
      ensures ReplyIs(reply, before, store.Tables(), push.input, Found(r))
    {
      CallIsEnabled(before, push, superseded, Found(r), now);
      UpsertedRow(before, push.input, Found(r));
      hide UpsertOp, IsUpsertLookup, Apply;
      if r.Existing? {
        if r.prev.status == Done || r.prev.status == Failed {
          var o := store.UpdateStatus(r.id, Some(r.prev.status), Queued, "reopened_by_" + push.action, now, NO_FIELDS, Caller.Webhook);
          reply := Accepted(r.id, Queued);
        } else {
          reply := Accepted(r.id, r.prev.status);
        }
      } else {
        reply := Accepted(push.input.id, Queued);
        if superseded.Some? {
          var o := store.UpdateStatus(push.input.id, Some(Queued), Queued, "created_after_supersede_of=" + superseded.value,
                                      now, NO_FIELDS, Caller.Webhook);
        }
      }
    }
  }

  /** The tables an uninterrupted event leaves.  It supersedes a newest active row of the pull request that has
      another sha; then it moves the row that has the commit, reopening it if it is finished, or inserts one; nothing
      of this if the new ID is taken. */
  lemma PushMeans(db: Db, push: Push, active: Option<string>, existing: Option<string>, now: int)
    requires Looked(db, push, active) && IsUpsertLookup(AfterSupersede(db, push, active, now), push.input, existing)
    ensures var p, rows, after := push.input, db.rows, PushResult(db, push, active, existing, now, ALL_WRITES);
      var superseded := push.action == "synchronize" && active.Some? && active.value in rows &&
        (if rows[active.value].sha.Some? then rows[active.value].sha.value else "") != p.sha;
      var mid := if !superseded then rows
        else rows[active.value := rows[active.value].(status := Teardown, updatedAt := now, urls := "",
                                                      error := Some("superseded_by_sha=" + p.sha))];
      var torn := if !superseded then []
        else [Event(active.value, Some(rows[active.value].status), Teardown, "superseded_by_sha=" + p.sha, now)];
      if p.id in rows then after.rows == mid && after.log == db.log + torn
      else if existing.None? then
        var born := Row(p.repo, p.pr, if p.sha == "" then None else Some(p.sha), p.branch, Queued, None, None, None, None,
                        p.labels, None, p.createdAt, p.updatedAt, p.cloneUrl, "", p.adhoc);
        var first := Event(p.id, None, Queued, "", p.updatedAt);
        if !superseded then after.rows == mid[p.id := born] && after.log == db.log + [first]
        else
          var note := "created_after_supersede_of=" + active.value;
          && after.rows == mid[p.id := born.(updatedAt := now, error := Some(note))]
          && after.log == db.log + torn + [first] + [Event(p.id, Some(Queued), Queued, note, now)]
      else
        existing.value in rows &&
        var was := rows[existing.value];
        var moved := was.(pr := p.pr, branch := p.branch, labels := p.labels, cloneUrl := p.cloneUrl, updatedAt := p.updatedAt);
        if was.status !in {Done, Failed} then after.rows == mid[existing.value := moved] && after.log == db.log + torn
        else
          var note := "reopened_by_" + push.action;
          && after.rows == mid[existing.value := moved.(status := Queued, updatedAt := now, urls := "", error := Some(note))]
          && after.log == db.log + torn + [Event(existing.value, Some(was.status), Queued, note, now)]
  {
    LookMeans(db, push, active);
    FoundMeans(db, push, active, existing, now);
    var mid := AfterSupersede(db, push, active, now);
    var superseded := if Supersedes(db, push, active) then active else None;
    PriorMeans(db, push, active, now);
    TargetMeans(mid, push, superseded, existing, now);
    assert PushResult(db, push, active, existing, now, ALL_WRITES) == Tail(mid, push, superseded, existing, now, ALL_WRITES);
    hide AfterSupersede, Tail, PushResult, Looked, IsUpsertLookup, Supersedes;
  }

  lemma LookMeans(db: Db, push: Push, active: Option<string>)
    requires Looked(db, push, active)
    ensures active.Some? ==>
      && push.action == "synchronize" && active.value in db.rows && db.rows[active.value].repo == push.input.repo
      && db.rows[active.value].pr == push.input.pr && db.rows[active.value].status in {Queued, Assigned, Building, Running}
    ensures push.action == "synchronize" ==>
      forall id | id in db.rows && db.rows[id].repo == push.input.repo && db.rows[id].pr == push.input.pr
                  && db.rows[id].status in {Queued, Assigned, Building, Running} ::
        active.Some? && active.value in db.rows && db.rows[id].createdAt <= db.rows[active.value].createdAt
    ensures Supersedes(db, push, active) <==>
      && push.action == "synchronize" && active.Some? && active.value in db.rows
      && (if db.rows[active.value].sha.Some? then db.rows[active.value].sha.value else "") != push.input.sha
  {
    assert forall id | id in db.rows && db.rows[id].repo == push.input.repo && db.rows[id].pr == push.input.pr && Active(db.rows[id].status) ::
      id in ActiveIds(db, push.input.repo, push.input.pr);
  }

  lemma PriorMeans(db: Db, push: Push, active: Option<string>, now: int)
    ensures var after, note := AfterSupersede(db, push, active, now), "superseded_by_sha=" + push.input.sha;
      if Supersedes(db, push, active) then
        && after.rows == db.rows[active.value := db.rows[active.value].(status := Teardown, updatedAt := now, urls := "", error := Some(note))]
        && after.log == db.log + [Event(active.value, Some(db.rows[active.value].status), Teardown, note, now)]
      else after == db
  {
  }

  /** What the two lookups find: superseding leaves commits where they are, so the second could as well come first. */
  lemma FoundMeans(db: Db, push: Push, active: Option<string>, existing: Option<string>, now: int)
    requires Looked(db, push, active) && IsUpsertLookup(AfterSupersede(db, push, active, now), push.input, existing)
    ensures existing.Some? <==>
      && push.input.sha != ""
      && exists id | id in db.rows :: db.rows[id].repo == push.input.repo && db.rows[id].sha == Some(push.input.sha)
    ensures existing.Some? ==>
      && existing.value in db.rows && db.rows[existing.value].repo == push.input.repo
      && db.rows[existing.value].sha == Some(push.input.sha)
      && (Supersedes(db, push, active) ==> existing != active)
  {
    var mid := AfterSupersede(db, push, active, now);
    PriorMeans(db, push, active, now);
    LookMeans(db, push, active);
    TakenIffListed(mid, push.input.repo, push.input.sha);
    hide AfterSupersede, Looked;
    assert forall id | id in db.rows :: id in mid.rows && mid.rows[id].repo == db.rows[id].repo && mid.rows[id].sha == db.rows[id].sha;
    assert mid.rows.Keys == db.rows.Keys;
  }

  lemma TargetMeans(db: Db, push: Push, superseded: Option<string>, existing: Option<string>, now: int)
    requires IsUpsertLookup(db, push.input, existing)
    ensures var p, rows, after := push.input, db.rows, Tail(db, push, superseded, existing, now, ALL_WRITES);
      && (p.id in rows ==> after == db)
      && (p.id !in rows && existing.Some? ==>
            existing.value in rows &&
            var was := rows[existing.value];
            var moved := was.(pr := p.pr, branch := p.branch, labels := p.labels, cloneUrl := p.cloneUrl, updatedAt := p.updatedAt);
            && after.rows == rows[existing.value := if was.status !in {Done, Failed} then moved
                 else moved.(status := Queued, updatedAt := now, urls := "", error := Some("reopened_by_" + push.action))]
            && after.log == db.log + if was.status !in {Done, Failed} then []
                 else [Event(existing.value, Some(was.status), Queued, "reopened_by_" + push.action, now)])
      && (p.id !in rows && existing.None? ==>
            var born := Row(p.repo, p.pr, if p.sha == "" then None else Some(p.sha), p.branch, Queued, None, None, None, None,
                            p.labels, None, p.createdAt, p.updatedAt, p.cloneUrl, "", p.adhoc);
            && after.rows == rows[p.id := if superseded.None? then born
                 else born.(updatedAt := now, error := Some("created_after_supersede_of=" + superseded.value))]
            && after.log == db.log + [Event(p.id, None, Queued, "", p.updatedAt)] + if superseded.None? then []
                 else [Event(p.id, Some(Queued), Queued, "created_after_supersede_of=" + superseded.value, now)])
  {
    if push.input.id in db.rows {
    } else {
      UpsertWorks(db, push.input, existing);
      hide IsUpsertLookup;
      if existing.Some? { MovedMeans(db, push, superseded, existing.value, now); } else { BornMeans(db, push, superseded, now); }
      hide Tail, UpsertOp;
    }
  }

  lemma MovedMeans(db: Db, push: Push, superseded: Option<string>, id: string, now: int)
    requires IsUpsertLookup(db, push.input, Some(id)) && UpsertOp(db, push.input, Some(id)).Some?
    ensures id in db.rows
    ensures var p, was, after := push.input, db.rows[id], Tail(db, push, superseded, Some(id), now, ALL_WRITES);
      var moved := was.(pr := p.pr, branch := p.branch, labels := p.labels, cloneUrl := p.cloneUrl, updatedAt := p.updatedAt);
      && after.rows == db.rows[id := if was.status !in {Done, Failed} then moved
           else moved.(status := Queued, updatedAt := now, urls := "", error := Some("reopened_by_" + push.action))]
      && after.log == db.log + if was.status !in {Done, Failed} then []
           else [Event(id, Some(was.status), Queued, "reopened_by_" + push.action, now)]
  {
  }

  lemma BornMeans(db: Db, push: Push, superseded: Option<string>, now: int)
    requires IsUpsertLookup(db, push.input, None) && UpsertOp(db, push.input, None).Some?
    ensures var p, after := push.input, Tail(db, push, superseded, None, now, ALL_WRITES);
      var born := Row(p.repo, p.pr, if p.sha == "" then None else Some(p.sha), p.branch, Queued, None, None, None, None,
                      p.labels, None, p.createdAt, p.updatedAt, p.cloneUrl, "", p.adhoc);
      && after.rows == db.rows[p.id := if superseded.None? then born
           else born.(updatedAt := now, error := Some("created_after_supersede_of=" + superseded.value))]
      && after.log == db.log + [Event(p.id, None, Queued, "", p.updatedAt)] + if superseded.None? then []
           else [Event(p.id, Some(Queued), Queued, "created_after_supersede_of=" + superseded.value, now)]
  {
  }

  lemma AnswerMeans(reply: Reply, before: Db, after: Db, p: Input, existing: Option<string>)
    requires ReplyIs(reply, before, after, p, existing)
    ensures if p.id in before.rows then reply == InternalError
      else
        var target := if existing.Some? then existing.value else p.id;
        target in after.rows && reply == Accepted(target, after.rows[target].status)
  {
  }

  /** Of the active rows exactly the superseded one ends in teardown. */
  lemma OneIsTorn(db: Db, push: Push, active: Option<string>, existing: Option<string>, now: int, id: string)
    requires Looked(db, push, active) && IsUpsertLookup(AfterSupersede(db, push, active, now), push.input, existing)
    requires id in db.rows && db.rows[id].status in {Queued, Assigned, Building, Running}
    ensures var after := PushResult(db, push, active, existing, now, ALL_WRITES);
      id in after.rows && (after.rows[id].status == Teardown <==> Supersedes(db, push, active) && active == Some(id))
  {
    LookMeans(db, push, active);
    FoundMeans(db, push, active, existing, now);
    PushMeans(db, push, active, existing, now);
    hide AfterSupersede, PushResult, Looked, IsUpsertLookup, Supersedes;
  }

  /** The requests made: for each active row that ends in teardown, of its agent. */
  lemma RequestsMean(db: Db, push: Push, active: Option<string>, existing: Option<string>, now: int)
    requires Looked(db, push, active) && IsUpsertLookup(AfterSupersede(db, push, active, now), push.input, existing)
    ensures |TeardownFor(db, push, active)| <= 1
    ensures forall a, id :: (a, id) in TeardownFor(db, push, active) <==>
      var after := PushResult(db, push, active, existing, now, ALL_WRITES);
      && id in db.rows && db.rows[id].status in {Queued, Assigned, Building, Running} && db.rows[id].agent == Some(a)
      && id in after.rows && after.rows[id].status == Teardown
  {
    LookMeans(db, push, active);
    hide AfterSupersede, PushResult, Looked, IsUpsertLookup, Supersedes;
    forall id | id in db.rows && db.rows[id].status in {Queued, Assigned, Building, Running}
      ensures var after := PushResult(db, push, active, existing, now, ALL_WRITES);
        id in after.rows && (after.rows[id].status == Teardown <==> Supersedes(db, push, active) && active == Some(id))
    {
      OneIsTorn(db, push, active, existing, now, id);
    }
  }

  function Found(r: UpsertResult): Option<string> { if r.Existing? then Some(r.id) else None }

  lemma UpsertedRow(db: Db, p: Input, existing: Option<string>)
    requires IsUpsertLookup(db, p, existing) && UpsertOp(db, p, existing).Some?
    ensures p.id !in db.rows
    ensures var mid := Apply(db, UpsertOp(db, p, existing).value);
      var target := if existing.Some? then existing.value else p.id;
      target in mid.rows && mid.rows[target].status == if existing.Some? then db.rows[existing.value].status else Queued
  {
  }

  /** The change closed makes: whatever the row's status is. */
  function CloseOp(id: string, now: int): Op {
    Update(id, None, Teardown, "closed_via_webhook", NO_FIELDS.(error := Some("closed_via_webhook")), now, Closer)
  }

  /** Closing takes the newest row of the pull request out of the active ones, active or not: the pull
      request is left without an active row exactly when no other row was active. */
  lemma CloseLeavesNoActiveIff(db: Db, repo: string, pr: int, newest: string, now: int)
    requires IsNewest(db, PrIds(db, repo, pr), Some(newest))
    ensures Enabled(db, CloseOp(newest, now))
    ensures var after := Apply(db, CloseOp(newest, now));
      && ActiveIds(after, repo, pr) == ActiveIds(db, repo, pr) - {newest}
      && (ActiveIds(after, repo, pr) == {} <==> forall id | id in ActiveIds(db, repo, pr) :: id == newest)
      && (forall id | id in db.rows && id != newest :: after.rows[id] == db.rows[id])
  {
    assert newest in PrIds(db, repo, pr);
    var after := Apply(db, CloseOp(newest, now));
    assert after.rows == db.rows[newest := after.rows[newest]] && after.rows[newest].status == Teardown;
    hide Apply, Enabled, IsNewest;
    assert ActiveIds(after, repo, pr) == ActiveIds(db, repo, pr) - {newest};
    assert forall id | id in ActiveIds(db, repo, pr) && id != newest :: id in ActiveIds(after, repo, pr);
  }

  /** Closing a pull request that an `opened` event gave a second active row leaves the older one active. */
  lemma CloseLeavesOneActive()
    ensures Legal(OPENED_RUN) && IsNewest(At(OPENED_RUN), PrIds(At(OPENED_RUN), "o/r", 7), Some("2"))
    ensures Legal(OPENED_RUN + [CloseOp("2", 2)]) && ActiveIds(At(OPENED_RUN + [CloseOp("2", 2)]), "o/r", 7) == {"1"}
  {
    hide Replay, Apply, Enabled;
    OpenBreaksIt();
    var db := At(OPENED_RUN);
    assert "1" in db.rows && "2" in db.rows && db.rows["1"].createdAt == 0 && db.rows["2"].createdAt == 1;
    assert PrIds(db, "o/r", 7) == {"1", "2"};
    CloseLeavesNoActiveIff(At(OPENED_RUN), "o/r", 7, "2", 2);
    Extend(OPENED_RUN, CloseOp("2", 2));
  }

  predicate Looked(db: Db, push: Push, active: Option<string>) {
    if push.action == "synchronize" then IsNewest(db, ActiveIds(db, push.input.repo, push.input.pr), active) else active == None
  }

  function TeardownOf(agent: Option<string>, id: string): seq<(string, string)> {
    if agent.Some? then [(agent.value, id)] else []
  }

  /** The JOB_TEARDOWN a superseded row's agent is sent. */
  function TeardownFor(db: Db, push: Push, active: Option<string>): seq<(string, string)> {
    if Supersedes(db, push, active) then TeardownOf(db.rows[active.value].agent, active.value) else []
  }

  /** The answer names the upserted row and the status it ends up with. */
  predicate ReplyIs(reply: Reply, before: Db, after: Db, p: Input, existing: Option<string>) {
    if p.id in before.rows then reply == InternalError
    else
      var target := if existing.Some? then existing.value else p.id;
      target in after.rows && reply == Accepted(target, after.rows[target].status)
  }
}
