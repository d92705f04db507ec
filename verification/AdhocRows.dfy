/** Test builds: one ad hoc row per repository and branch. */
module AdhocRows {
  import opened Previews
  import opened Queries
  import opened History
  import opened Hub
  import opened Store

  predicate SameBranch(r: Row, repo: string, branch: string) { r.repo == repo && r.branch == branch }

  predicate OneAdhoc(db: Db) {
    forall i, j | i in db.rows && j in db.rows && i != j && db.rows[i].adhoc && db.rows[j].adhoc ::
      !SameBranch(db.rows[j], db.rows[i].repo, db.rows[i].branch)
  }

  predicate OtherAdhoc(db: Db, id: string, repo: string, branch: string) {
    exists j | j in db.rows :: j != id && db.rows[j].adhoc && SameBranch(db.rows[j], repo, branch)
  }

  predicate LandsAdhoc(db: Db, p: Input, existing: Option<string>) {
    if existing.Some? then existing.value in db.rows && db.rows[existing.value].adhoc else p.adhoc
  }

  /** An upsert, moving a row to the input's branch or not, keeps one ad hoc row per branch exactly when
      the row it leaves there is not ad hoc or finds no other one. */
  lemma UpsertKeepsOneAdhocIff(db: Db, p: Input, existing: Option<string>)
    requires OneAdhoc(db) && IsUpsertLookup(db, p, existing) && UpsertOp(db, p, existing).Some?
    ensures OneAdhoc(Apply(db, UpsertOp(db, p, existing).value))
      <==> !LandsAdhoc(db, p, existing) || !OtherAdhoc(db, if existing.Some? then existing.value else p.id, p.repo, p.branch)
  {
    var target := if existing.Some? then existing.value else p.id;
    var after := Apply(db, UpsertOp(db, p, existing).value);
    assert target in after.rows && after.rows == db.rows[target := after.rows[target]];
    assert SameBranch(after.rows[target], p.repo, p.branch) && (after.rows[target].adhoc <==> LandsAdhoc(db, p, existing));
    hide Apply, UpsertOp, IsUpsertLookup, LandsAdhoc;
    if LandsAdhoc(db, p, existing) && OtherAdhoc(db, target, p.repo, p.branch) {
      var j :| j in db.rows && j != target && db.rows[j].adhoc && SameBranch(db.rows[j], p.repo, p.branch);
      assert after.rows[j] == db.rows[j];
    }
  }

  // ---------- the form handler ----------

  /** One uninterrupted submission: re-queue a finished row, leave an unfinished one, else upsert. */
  function SubmitResult(db: Db, p: Input, newest: Option<string>, existing: Option<string>, now: int): Db
    requires IsUpsertLookup(db, p, existing)
  {
    if newest.Some? then
      if newest.value in db.rows && db.rows[newest.value].status in {Done, Failed} &&
         Enabled(db, RequeueOp(db, newest.value, now))
      then Apply(db, RequeueOp(db, newest.value, now)) else db
    else if UpsertOp(db, p, existing).Some? then Apply(db, UpsertOp(db, p, existing).value)
    else db
  }

  function RequeueOp(db: Db, id: string, now: int): Op
    requires id in db.rows
  {
    Update(id, Some(db.rows[id].status), Queued, "re-queued by test build", RESET_FIELDS, now, TestBuild)
  }

  datatype SubmitReply = Redirect(id: string, dispatch: bool) | InternalError

  /** The upserted sha already having a row is answered with an error, although that row has moved. */
  method TestBuildSubmit(store: PreviewStore, p: Input, now: int)
    returns (reply: SubmitReply, ghost newest: Option<string>, ghost existing: Option<string>)
    requires store.Valid()
    modifies store
    ensures store.Valid()
    ensures IsNewest(old(store.Tables()), AdhocIds(old(store.Tables()), p.repo, p.branch), newest)
    ensures IsUpsertLookup(old(store.Tables()), p, existing)
    ensures store.Tables() == SubmitResult(old(store.Tables()), p, newest, existing, now)
    ensures newest.Some? ==> reply == Redirect(newest.value, old(store.rows)[newest.value].status in {Done, Failed})
    ensures newest.None? ==>
      reply == if p.id in old(store.rows) || existing.Some? then InternalError else Redirect(p.id, true)
    // The lookup: a newest ad hoc row of the branch.
    ensures forall id | id in old(store.rows) && old(store.rows)[id].repo == p.repo && old(store.rows)[id].branch == p.branch
                        && old(store.rows)[id].adhoc ::
      newest.Some? && newest.value in old(store.rows) && old(store.rows)[id].createdAt <= old(store.rows)[newest.value].createdAt
    ensures newest.Some? ==>
      && newest.value in old(store.rows) && old(store.rows)[newest.value].repo == p.repo
      && old(store.rows)[newest.value].branch == p.branch && old(store.rows)[newest.value].adhoc
    // A finished row goes back to the queue with its runtime columns reset; any other is left alone.
    ensures newest.Some? && old(store.rows)[newest.value].status in {Done, Failed} ==>
      var was := old(store.rows)[newest.value];
      && reply == Redirect(newest.value, true)
      && store.rows == old(store.rows)[newest.value := was.(status := Queued, updatedAt := now, container := Some(""),
                                                           host := Some(""), port := Some(0), urls := "", error := Some(""))]
      && store.log == old(store.log) + [Event(newest.value, Some(was.status), Queued, "re-queued by test build", now)]
    ensures newest.Some? && old(store.rows)[newest.value].status !in {Done, Failed} ==>
      reply == Redirect(newest.value, false) && store.rows == old(store.rows) && store.log == old(store.log)
    // Without one, a row is inserted, or the row that has the commit is moved; nothing if the new ID is taken.
    ensures newest.None? && p.id in old(store.rows) ==>
      reply == InternalError && store.rows == old(store.rows) && store.log == old(store.log)
    ensures newest.None? && p.id !in old(store.rows) && reply == InternalError ==>
      && existing.Some? && existing.value in old(store.rows)
      && old(store.rows)[existing.value].repo == p.repo && old(store.rows)[existing.value].sha == Some(p.sha)
      && store.rows == old(store.rows)[existing.value := old(store.rows)[existing.value].(pr := p.pr, branch := p.branch,
           labels := p.labels, cloneUrl := p.cloneUrl, updatedAt := p.updatedAt)]
      && store.log == old(store.log)
    ensures newest.None? && p.id !in old(store.rows) && reply != InternalError ==>
      && reply == Redirect(p.id, true)
      && (p.sha == "" || forall id | id in old(store.rows) && old(store.rows)[id].repo == p.repo :: old(store.rows)[id].sha != Some(p.sha))
      && store.rows == old(store.rows)[p.id := Row(p.repo, p.pr, if p.sha == "" then None else Some(p.sha), p.branch, Queued, None,
           None, None, None, p.labels, None, p.createdAt, p.updatedAt, p.cloneUrl, "", p.adhoc)]
      && store.log == old(store.log) + [Event(p.id, None, Queued, "", p.updatedAt)]
  {
    ghost var db := store.Tables();
    existing := AnExisting(db, p);
    TakenIffListed(db, p.repo, p.sha);
    hide Replay;
    var found := store.FindAdhocByBranch(p.repo, p.branch);
    newest := found;
    if found.Some? {
      var was := store.rows[found.value].status;
      if was == Done || was == Failed {
        var f := Fields(Some(""), Some(""), Some(0), Some(""), Some(""), Some(""), None);
        var o := store.UpdateStatus(found.value, Some(was), Queued, "re-queued by test build", now, f, Caller.TestBuild);
        return Redirect(found.value, true), newest, existing;
      }
      return Redirect(found.value, false), newest, existing;
    }
    var r := store.Upsert(p);
    if r.Existing? { existing := Some(r.id); }
    reply := if r.Created? then Redirect(p.id, true) else InternalError;
  }

  // ---------- runs ----------

  /** A submission taken as one step, or any transaction that is not an upsert. */
  datatype AdhocStep =
    | Transaction(op: Op)
    | Submit(input: Input, newest: Option<string>, existing: Option<string>, now: int)

  ghost predicate AdhocCan(db: Db, step: AdhocStep) {
    match step
    case Transaction(op) => Enabled(db, op) && !op.Insert? && !op.Refresh?
    case Submit(p, newest, existing, _) =>
      IsNewest(db, AdhocIds(db, p.repo, p.branch), newest) && IsUpsertLookup(db, p, existing)
  }

  function AdhocNext(db: Db, step: AdhocStep): Db
    requires AdhocCan(db, step)
  {
    match step
    case Transaction(op) => Apply(db, op)
    case Submit(p, newest, existing, now) => SubmitResult(db, p, newest, existing, now)
  }

  ghost function AdhocRun(steps: seq<AdhocStep>): Option<Db> {
    if steps == [] then Some(EMPTY_DB)
    else
      var before := AdhocRun(Front(steps));
      if before.Some? && AdhocCan(before.value, Last(steps)) then Some(AdhocNext(before.value, Last(steps))) else None
  }

  lemma QuietKeepsOneAdhoc(db: Db, op: Op)
    requires Enabled(db, op) && !op.Insert? && !op.Refresh? && OneAdhoc(db)
    ensures OneAdhoc(Apply(db, op))
  {
    var after := Apply(db, op);
    forall i | i in after.rows
      ensures i in db.rows && after.rows[i].adhoc == db.rows[i].adhoc && SameBranch(db.rows[i], after.rows[i].repo, after.rows[i].branch)
    {
      RowsMove(db, op, i);
    }
    hide Apply, Enabled;
  }

  lemma SubmitKeepsOneAdhoc(db: Db, p: Input, newest: Option<string>, existing: Option<string>, now: int)
    requires OneAdhoc(db) && IsNewest(db, AdhocIds(db, p.repo, p.branch), newest) && IsUpsertLookup(db, p, existing)
    ensures OneAdhoc(SubmitResult(db, p, newest, existing, now))
  {
    if newest.Some? {
      if newest.value in db.rows && Enabled(db, RequeueOp(db, newest.value, now)) {
        QuietKeepsOneAdhoc(db, RequeueOp(db, newest.value, now));
      }
    } else if UpsertOp(db, p, existing).Some? {
      assert !OtherAdhoc(db, if existing.Some? then existing.value else p.id, p.repo, p.branch) by {
        assert forall j | j in db.rows && db.rows[j].adhoc && SameBranch(db.rows[j], p.repo, p.branch) ::
          j in AdhocIds(db, p.repo, p.branch);
      }
      UpsertKeepsOneAdhocIff(db, p, existing);
    }
  }

  /** In every run of serial submissions mixed with claims, status changes, rebuilds and restarts, at most
      one ad hoc row exists for each repository and branch. */
  lemma {:induction false} OneAdhocAlways(steps: seq<AdhocStep>)
    requires AdhocRun(steps).Some?
    ensures OneAdhoc(AdhocRun(steps).value)
  {
    if steps == [] {
    } else {
      OneAdhocAlways(Front(steps));
      var db := AdhocRun(Front(steps)).value;
      match Last(steps)
      case Transaction(op) => QuietKeepsOneAdhoc(db, op);
      case Submit(p, newest, existing, now) => SubmitKeepsOneAdhoc(db, p, newest, existing, now);
    }
  }

  // ---------- where it stops ----------

  function TestInput(id: string, sha: string, branch: string): Input {
    Input(id, "o/r", 0, sha, branch, [], "", true, 0, 0)
  }

  const TEST_BUILDS := [Insert(TestInput("1", "s", "b")), Insert(TestInput("2", "", "c"))]

  const PUSHED := Input("3", "o/r", 7, "s", "c", [], "", false, 1, 1)

  /** A webhook for the commit of one test build on the branch of another moves the first beside the second. */
  lemma WebhookMovesAdhocRow()
    ensures Legal(TEST_BUILDS) && OneAdhoc(At(TEST_BUILDS)) && IsUpsertLookup(At(TEST_BUILDS), PUSHED, Some("1"))
    ensures Legal(TEST_BUILDS + [Refresh("1", PUSHED)]) && !OneAdhoc(At(TEST_BUILDS + [Refresh("1", PUSHED)]))
  {
    assert Legal([]) && At([]) == EMPTY_DB;
    hide Replay;
    Extend([], TEST_BUILDS[0]);
    assert [] + [TEST_BUILDS[0]] == TEST_BUILDS[..1];
    assert At(TEST_BUILDS[..1]).rows == map["1" := NewRow(TestInput("1", "s", "b"))];
    Extend(TEST_BUILDS[..1], TEST_BUILDS[1]);
    assert TEST_BUILDS[..1] + [TEST_BUILDS[1]] == TEST_BUILDS;
    var db := At(TEST_BUILDS);
    assert db.rows == map["1" := NewRow(TestInput("1", "s", "b")), "2" := NewRow(TestInput("2", "", "c"))];
    assert "1" in ShaIds(db, "o/r", "s");
    Extend(TEST_BUILDS, Refresh("1", PUSHED));
    UpsertKeepsOneAdhocIff(db, PUSHED, Some("1"));
    hide Apply;
    assert OtherAdhoc(db, "1", "o/r", "c") by { assert "2" in db.rows && "2" != "1"; }
  }
}
