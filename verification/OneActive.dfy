/** At most one row per pull request is queued, assigned, building or running.

    The webhook handler is taken as one step here; everything else is one store transaction. */
module OneActive {
  import opened Previews
  import opened Queries
  import opened History
  import opened Hub

  predicate SamePr(r: Row, repo: string, pr: int) { r.repo == repo && r.pr == pr }

  predicate OneActive(db: Db) {
    forall i, j | i in db.rows && j in db.rows && i != j && Active(db.rows[i].status) && Active(db.rows[j].status) ::
      db.rows[i].pr == 0 || !SamePr(db.rows[j], db.rows[i].repo, db.rows[i].pr)
  }

  predicate OtherActive(db: Db, id: string, repo: string, pr: int) {
    exists j | j in db.rows :: j != id && Active(db.rows[j].status) && SamePr(db.rows[j], repo, pr)
  }

  // ---------- the uninterrupted handler ----------

  /** Which of the handler's three writes the store performs; the handler stops at the first that fails. */
  datatype Writes = Writes(supersede: bool, upsert: bool, last: bool)

  const ALL_WRITES := Writes(true, true, true)

  predicate Supersedes(db: Db, push: Push, active: Option<string>) {
    active.Some? && active.value in db.rows && ShaText(db.rows[active.value].sha) != push.input.sha
  }

  function AfterSupersede(db: Db, push: Push, active: Option<string>, now: int): Db {
    if Supersedes(db, push, active) then Apply(db, SupersedeOp(push, active.value, now)) else db
  }

  /** Upsert, then the reopening or the superseding note. */
  function Tail(db: Db, push: Push, superseded: Option<string>, existing: Option<string>, now: int, w: Writes): Db
    requires IsUpsertLookup(db, push.input, existing)
  {
    var op := UpsertOp(db, push.input, existing);
    if op.None? || !w.upsert then db
    else
      var mid := Apply(db, op.value);
      var next := AfterUpsert(db, push, superseded, existing, true);
      if next.Calling? && next.calls != [] && w.last && Enabled(mid, CallOp(next.calls[0], now))
      then Apply(mid, CallOp(next.calls[0], now)) else mid
  }

  /** The tables after handleUpsert, given what its two lookups found. */
  function PushResult(db: Db, push: Push, active: Option<string>, existing: Option<string>, now: int, w: Writes): Db
    requires IsUpsertLookup(AfterSupersede(db, push, active, now), push.input, existing)
  {
    if Supersedes(db, push, active) && !w.supersede then db
    else Tail(AfterSupersede(db, push, active, now), push, if Supersedes(db, push, active) then active else None, existing, now, w)
  }

  /** The upserted row is active once the handler is done. */
  predicate Lands(db: Db, existing: Option<string>, w: Writes) {
    existing.None? || (existing.value in db.rows &&
      (Active(db.rows[existing.value].status) || (w.last && db.rows[existing.value].status in {Done, Failed})))
  }

  lemma CallIsEnabled(db: Db, push: Push, superseded: Option<string>, existing: Option<string>, now: int)
    requires IsUpsertLookup(db, push.input, existing) && UpsertOp(db, push.input, existing).Some?
    ensures var mid := Apply(db, UpsertOp(db, push.input, existing).value);
      var next := AfterUpsert(db, push, superseded, existing, true);
      next.Calling? && (next.calls != [] ==> |next.calls| == 1 && Enabled(mid, CallOp(next.calls[0], now)))
  {
  }

  /** Only the upserted row changes; it is in the pull request, and active exactly if it lands. */
  lemma TailShape(db: Db, push: Push, superseded: Option<string>, existing: Option<string>, now: int, w: Writes)
    requires IsUpsertLookup(db, push.input, existing) && UpsertOp(db, push.input, existing).Some? && w.upsert
    ensures var target := if existing.Some? then existing.value else push.input.id;
      var after := Tail(db, push, superseded, existing, now, w);
      && target in after.rows
      && after.rows == db.rows[target := after.rows[target]]
      && SamePr(after.rows[target], push.input.repo, push.input.pr)
      && (Active(after.rows[target].status) <==> Lands(db, existing, w))
      && after.rows[target].sha == NullIfEmpty(push.input.sha)
  {
    CallIsEnabled(db, push, superseded, existing, now);
  }

  /** An upsert keeps the property exactly when the row it lands finds no other active row there. */
  lemma TailKeepsOneActiveIff(db: Db, push: Push, superseded: Option<string>, existing: Option<string>, now: int, w: Writes)
    requires OneActive(db) && push.input.pr != 0 && w.upsert
    requires IsUpsertLookup(db, push.input, existing) && UpsertOp(db, push.input, existing).Some?
    ensures var target := if existing.Some? then existing.value else push.input.id;
      OneActive(Tail(db, push, superseded, existing, now, w))
      <==> !Lands(db, existing, w) || !OtherActive(db, target, push.input.repo, push.input.pr)
  {
    TailShape(db, push, superseded, existing, now, w);
    var target := if existing.Some? then existing.value else push.input.id;
    var after := Tail(db, push, superseded, existing, now, w);
    hide Tail, UpsertOp, Lands, IsUpsertLookup;
    if Lands(db, existing, w) && OtherActive(db, target, push.input.repo, push.input.pr) {
      var j :| j in db.rows && j != target && Active(db.rows[j].status) && SamePr(db.rows[j], push.input.repo, push.input.pr);
      assert after.rows[j] == db.rows[j];
    }
  }

  lemma SupersedeShape(db: Db, push: Push, active: Option<string>, now: int)
    requires Supersedes(db, push, active)
    ensures var after := AfterSupersede(db, push, active, now);
      && after.rows == db.rows[active.value := after.rows[active.value]]
      && after.rows[active.value] == db.rows[active.value].(status := Teardown, updatedAt := now, urls := "",
           error := Some("superseded_by_sha=" + push.input.sha))
  {
  }

  /** The synchronize handler, sha given or not and whichever of its writes fail, keeps the property exactly when
      it does not insert beside an active row of that pull request whose sha is as unknown as the new one. */
  lemma SynchronizeKeepsOneActiveIff(db: Db, push: Push, active: Option<string>, existing: Option<string>, now: int, w: Writes)
    requires OneActive(db) && ShasUnique(db) && ShasNonEmpty(db)
    requires push.input.pr != 0 && push.input.id !in db.rows
    requires IsNewest(db, ActiveIds(db, push.input.repo, push.input.pr), active)
    requires IsUpsertLookup(AfterSupersede(db, push, active, now), push.input, existing)
    ensures OneActive(PushResult(db, push, active, existing, now, w))
      <==> push.input.sha != "" || active.None? || db.rows[active.value].sha.Some? || !w.upsert
  {
    SynchronizeFindsRoom(db, push, active, existing, now, w);
    if w.upsert && (Supersedes(db, push, active) ==> w.supersede) {
      TailKeepsOneActiveIff(AfterSupersede(db, push, active, now), push,
        if Supersedes(db, push, active) then active else None, existing, now, w);
    }
    hide OneActive, IsNewest, ShasUnique, ShasNonEmpty, OtherActive, UpsertOp;
  }

  /** After the superseding step no row but the one about to land is active in the pull request. */
  lemma SynchronizeFindsRoom(db: Db, push: Push, active: Option<string>, existing: Option<string>, now: int, w: Writes)
    requires OneActive(db) && ShasUnique(db) && ShasNonEmpty(db)
    requires push.input.pr != 0 && push.input.id !in db.rows
    requires IsNewest(db, ActiveIds(db, push.input.repo, push.input.pr), active)
    requires IsUpsertLookup(AfterSupersede(db, push, active, now), push.input, existing)
    ensures var mid := AfterSupersede(db, push, active, now);
      && OneActive(mid)
      && UpsertOp(mid, push.input, existing).Some?
      && (OtherActive(mid, if existing.Some? then existing.value else push.input.id, push.input.repo, push.input.pr)
          <==> push.input.sha == "" && active.Some? && db.rows[active.value].sha.None?)
  {
    UpsertWorks(AfterSupersede(db, push, active, now), push.input, existing);
    SoleActive(db, push.input.repo, push.input.pr, active);
    if Supersedes(db, push, active) {
      SupersedeShape(db, push, active, now);
      hide AfterSupersede, UpsertOp, IsUpsertLookup, ShasUnique, ShasNonEmpty, IsNewest;
    } else {
      NothingSuperseded(db, push, active, existing);
      assert AfterSupersede(db, push, active, now) == db;
      hide AfterSupersede, UpsertOp, IsUpsertLookup, OtherActive, OneActive;
    }
  }

  lemma SoleActive(db: Db, repo: string, pr: int, active: Option<string>)
    requires OneActive(db) && pr != 0 && IsNewest(db, ActiveIds(db, repo, pr), active)
    ensures forall j | j in db.rows && Active(db.rows[j].status) && SamePr(db.rows[j], repo, pr) :: active == Some(j)
  {
    forall j | j in db.rows && Active(db.rows[j].status) && SamePr(db.rows[j], repo, pr) ensures active == Some(j) {
      assert j in ActiveIds(db, repo, pr);
    }
  }

  lemma NothingSuperseded(db: Db, push: Push, active: Option<string>, existing: Option<string>)
    requires OneActive(db) && ShasUnique(db) && ShasNonEmpty(db)
    requires push.input.pr != 0 && push.input.id !in db.rows
    requires IsNewest(db, ActiveIds(db, push.input.repo, push.input.pr), active)
    requires IsUpsertLookup(db, push.input, existing) && !Supersedes(db, push, active)
    ensures OtherActive(db, if existing.Some? then existing.value else push.input.id, push.input.repo, push.input.pr)
      <==> push.input.sha == "" && active.Some? && db.rows[active.value].sha.None?
  {
    var p := push.input;
    SoleActive(db, p.repo, p.pr, active);
    hide OneActive, ShasNonEmpty;
    if active.Some? {
      assert active.value in ActiveIds(db, p.repo, p.pr);
      hide IsNewest;
      if p.sha != "" {
        assert active.value in ShaIds(db, p.repo, p.sha);
        assert existing == active;
      }
    }
  }

  /** With a sha, the property survives whichever of the handler's writes fails, and once the
      superseding write is through every active row of the pull request has the new sha. */
  lemma SynchronizeIsSafe(db: Db, push: Push, active: Option<string>, existing: Option<string>, now: int, w: Writes)
    requires OneActive(db) && ShasUnique(db) && ShasNonEmpty(db)
    requires push.input.pr != 0 && push.input.sha != "" && push.input.id !in db.rows
    requires IsNewest(db, ActiveIds(db, push.input.repo, push.input.pr), active)
    requires IsUpsertLookup(AfterSupersede(db, push, active, now), push.input, existing)
    ensures var after := PushResult(db, push, active, existing, now, w);
      && OneActive(after)
      && (w.supersede ==> forall j | j in ActiveIds(after, push.input.repo, push.input.pr) ::
            after.rows[j].sha == Some(push.input.sha))
  {
    SynchronizeFindsRoom(db, push, active, existing, now, w);
    var mid := AfterSupersede(db, push, active, now);
    var prior := if Supersedes(db, push, active) then active else None;
    if Supersedes(db, push, active) && !w.supersede {
    } else if !w.upsert {
      SupersededOnly(db, push, active, now);
    } else {
      TailKeepsOneActiveIff(mid, push, prior, existing, now, w);
      TailShape(mid, push, prior, existing, now, w);
      OnlyTheLanded(mid, push, prior, existing, now, w);
    }
  }

  lemma SupersededOnly(db: Db, push: Push, active: Option<string>, now: int)
    requires OneActive(db) && push.input.pr != 0 && push.input.sha != ""
    requires IsNewest(db, ActiveIds(db, push.input.repo, push.input.pr), active)
    ensures var mid := AfterSupersede(db, push, active, now);
      forall j | j in ActiveIds(mid, push.input.repo, push.input.pr) :: mid.rows[j].sha == Some(push.input.sha)
  {
    SoleActive(db, push.input.repo, push.input.pr, active);
    if Supersedes(db, push, active) {
      SupersedeShape(db, push, active, now);
      hide AfterSupersede;
    }
  }

  lemma OnlyTheLanded(mid: Db, push: Push, superseded: Option<string>, existing: Option<string>, now: int, w: Writes)
    requires push.input.sha != "" && w.upsert
    requires IsUpsertLookup(mid, push.input, existing) && UpsertOp(mid, push.input, existing).Some?
    requires !OtherActive(mid, if existing.Some? then existing.value else push.input.id, push.input.repo, push.input.pr)
    ensures var after := Tail(mid, push, superseded, existing, now, w);
      forall j | j in ActiveIds(after, push.input.repo, push.input.pr) :: after.rows[j].sha == Some(push.input.sha)
  {
    TailShape(mid, push, superseded, existing, now, w);
    var target := if existing.Some? then existing.value else push.input.id;
    var after := Tail(mid, push, superseded, existing, now, w);
    hide Tail, UpsertOp, IsUpsertLookup, Lands;
    assert forall j | j in after.rows && j != target :: j in mid.rows && after.rows[j] == mid.rows[j];
  }

  // ---------- every other transaction ----------

  /** Any status change keeps the property exactly when it does not make a second active row. */
  lemma UpdateKeepsOneActiveIff(db: Db, op: Op)
    requires op.Update? && Enabled(db, op) && OneActive(db)
    ensures var r := db.rows[op.id];
      OneActive(Apply(db, op)) <==> !Active(op.to) || r.pr == 0 || !OtherActive(db, op.id, r.repo, r.pr)
  {
    var after := Apply(db, op);
    assert after.rows == db.rows[op.id := after.rows[op.id]];
    assert SamePr(after.rows[op.id], db.rows[op.id].repo, db.rows[op.id].pr) && after.rows[op.id].status == op.to;
    hide Apply, Enabled;
    if OtherActive(db, op.id, db.rows[op.id].repo, db.rows[op.id].pr) {
      var j :| j in db.rows && j != op.id && Active(db.rows[j].status) && SamePr(db.rows[j], db.rows[op.id].repo, db.rows[op.id].pr);
      assert after.rows[j] == db.rows[j];
    }
  }

  /** Claims, requeues, restart resets, closes, HELLO failures, agents coming and going, reports about a
      row that is still active, and whatever happens to rows outside any pull request. */
  predicate Tame(db: Db, op: Op) {
    match op
    case Update(id, _, to, _, _, _, _) => id in db.rows && (!Active(to) || Active(db.rows[id].status) || db.rows[id].pr == 0)
    case Insert(p) => p.pr == 0
    case Refresh(_, p) => p.pr == 0
    case _ => true
  }

  lemma TameStep(db: Db, op: Op)
    requires Enabled(db, op) && Tame(db, op) && OneActive(db)
    ensures OneActive(Apply(db, op))
  {
    if op.Update? {
      UpdateKeepsOneActiveIff(db, op);
    } else {
      var after := Apply(db, op);
      forall i | i in after.rows
        ensures i in db.rows && Active(after.rows[i].status) && after.rows[i].pr != 0 ==>
          Active(db.rows[i].status) && SamePr(db.rows[i], after.rows[i].repo, after.rows[i].pr)
        ensures i !in db.rows ==> after.rows[i].pr == 0
      {
        RowsMove(db, op, i);
      }
      hide Apply, Enabled, Tame;
    }
  }

  /** An event that supersedes nothing finds room: the row it lands, if it lands one, is the only active one. */
  predicate FindsRoom(db: Db, p: Input, existing: Option<string>, w: Writes) {
    w.upsert && Lands(db, existing, w) ==> !OtherActive(db, if existing.Some? then existing.value else p.id, p.repo, p.pr)
  }

  /** One step of the system: a tame transaction, a synchronize event with a sha and a fresh id, or an event that
      supersedes nothing (opened, reopened, a synchronize whose lookup failed) and finds room. */
  datatype PrStep =
    | Transaction(op: Op)
    | Open(push: Push, existing: Option<string>, now: int, writes: Writes)
    | Synchronize(push: Push, active: Option<string>, existing: Option<string>, now: int, writes: Writes)

  ghost predicate PrCan(db: Db, step: PrStep) {
    match step
    case Transaction(op) => Enabled(db, op) && Tame(db, op)
    case Open(push, existing, _, w) =>
      && push.input.pr != 0 && push.input.id !in db.rows
      && IsUpsertLookup(db, push.input, existing) && FindsRoom(db, push.input, existing, w)
    case Synchronize(push, active, existing, now, _) =>
      && push.input.pr != 0 && push.input.sha != "" && push.input.id !in db.rows
      && IsNewest(db, ActiveIds(db, push.input.repo, push.input.pr), active)
      && IsUpsertLookup(AfterSupersede(db, push, active, now), push.input, existing)
  }

  function PrNext(db: Db, step: PrStep): Db
    requires PrCan(db, step)
  {
    match step
    case Transaction(op) => Apply(db, op)
    case Open(push, existing, now, w) => PushResult(db, push, None, existing, now, w)
    case Synchronize(push, active, existing, now, w) => PushResult(db, push, active, existing, now, w)
  }

  ghost function PrRun(steps: seq<PrStep>): Option<Db> {
    if steps == [] then Some(EMPTY_DB)
    else
      var before := PrRun(Front(steps));
      if before.Some? && PrCan(before.value, Last(steps)) then Some(PrNext(before.value, Last(steps))) else None
  }

  /** Exactly the events that find room keep the rule. */
  lemma OpenKeepsOneActiveIff(db: Db, push: Push, existing: Option<string>, now: int, w: Writes)
    requires OneActive(db) && push.input.pr != 0 && push.input.id !in db.rows && IsUpsertLookup(db, push.input, existing)
    ensures OneActive(PushResult(db, push, None, existing, now, w)) <==> FindsRoom(db, push.input, existing, w)
  {
    UpsertWorks(db, push.input, existing);
    if w.upsert {
      TailKeepsOneActiveIff(db, push, None, existing, now, w);
    }
    hide OneActive, UpsertOp, IsUpsertLookup;
  }

  lemma PushKeepsShas(db: Db, push: Push, active: Option<string>, existing: Option<string>, now: int, w: Writes)
    requires ShasUnique(db) && ShasNonEmpty(db)
    requires IsUpsertLookup(AfterSupersede(db, push, active, now), push.input, existing)
    ensures var after := PushResult(db, push, active, existing, now, w); ShasUnique(after) && ShasNonEmpty(after)
  {
    var mid := AfterSupersede(db, push, active, now);
    if Supersedes(db, push, active) { ShaUniqueStep(db, SupersedeOp(push, active.value, now)); }
    assert ShasUnique(mid) && ShasNonEmpty(mid);
    hide ShasUnique, ShasNonEmpty, AfterSupersede, ShaText, Apply;
    TailKeepsShas(mid, push, if Supersedes(db, push, active) then active else None, existing, now, w);
  }

  lemma TailKeepsShas(db: Db, push: Push, superseded: Option<string>, existing: Option<string>, now: int, w: Writes)
    requires ShasUnique(db) && ShasNonEmpty(db) && IsUpsertLookup(db, push.input, existing)
    ensures var after := Tail(db, push, superseded, existing, now, w); ShasUnique(after) && ShasNonEmpty(after)
  {
    hide ShasUnique, ShasNonEmpty;
    var op := UpsertOp(db, push.input, existing);
    if op.Some? {
      ShaUniqueStep(db, op.value);
      var mid := Apply(db, op.value);
      var next := AfterUpsert(db, push, superseded, existing, true);
      hide Apply, UpsertOp, AfterUpsert;
      if next.Calling? && next.calls != [] && Enabled(mid, CallOp(next.calls[0], now)) {
        ShaUniqueStep(mid, CallOp(next.calls[0], now));
      }
    }
  }

  /** In every run of these steps, no pull request ever has two active rows. */
  lemma {:induction false} OneActiveAlways(steps: seq<PrStep>)
    requires PrRun(steps).Some?
    ensures OneActive(PrRun(steps).value) && ShasUnique(PrRun(steps).value) && ShasNonEmpty(PrRun(steps).value)
  {
    if steps == [] {
    } else {
      OneActiveAlways(Front(steps));
      var db := PrRun(Front(steps)).value;
      match Last(steps)
      case Transaction(op) =>
        TameStep(db, op);
        ShaUniqueStep(db, op);
      case Open(push, existing, now, w) =>
        OpenKeepsOneActiveIff(db, push, existing, now, w);
        PushKeepsShas(db, push, None, existing, now, w);
      case Synchronize(push, active, existing, now, w) =>
        SynchronizeIsSafe(db, push, active, existing, now, w);
        PushKeepsShas(db, push, active, existing, now, w);
    }
  }

  // ---------- where it stops ----------

  function PushInput(id: string, sha: string): Input {
    Input(id, "o/r", 7, sha, "b", [], "", false, 0, 0)
  }

  /** An `opened` event while an older preview of the pull request is active makes a second active row. */
  lemma OpenBreaksIt()
    ensures Legal(OPENED_RUN[..1]) && OneActive(At(OPENED_RUN[..1])) && IsUpsertLookup(At(OPENED_RUN[..1]), OPENED.input, None)
    ensures Legal(OPENED_RUN) && PushResult(At(OPENED_RUN[..1]), OPENED, None, None, 1, ALL_WRITES) == At(OPENED_RUN)
    ensures At(OPENED_RUN).rows == map["1" := NewRow(PushInput("1", "s")), "2" := NewRow(OPENED.input)]
    ensures ActiveIds(At(OPENED_RUN), "o/r", 7) == {"1", "2"} && !OneActive(At(OPENED_RUN))
  {
    assert Legal([]) && At([]) == EMPTY_DB;
    hide Replay;
    Extend([], OPENED_RUN[0]);
    assert [] + [OPENED_RUN[0]] == OPENED_RUN[..1];
    var db := At(OPENED_RUN[..1]);
    assert db.rows == map["1" := NewRow(PushInput("1", "s"))];
    Extend(OPENED_RUN[..1], OPENED_RUN[1]);
    assert OPENED_RUN[..1] + [OPENED_RUN[1]] == OPENED_RUN;
    var after := At(OPENED_RUN);
    assert after.rows == map["1" := NewRow(PushInput("1", "s")), "2" := NewRow(OPENED.input)];
    hide Apply;
    assert "1" in after.rows && "2" in after.rows && "1" != "2" && SamePr(after.rows["2"], "o/r", 7);
  }

  const OPENED := Push("opened", PushInput("2", "t").(createdAt := 1))

  const OPENED_RUN := [Insert(PushInput("1", "s")), Insert(OPENED.input)]

  const UNKNOWN := Push("synchronize", PushInput("2", ""))

  const UNKNOWN_RUN := [Insert(PushInput("1", ""))]

  /** A `synchronize` event without a sha, beside an active preview without one, makes a second active row. */
  lemma UnknownShaBreaksIt()
    ensures Legal(UNKNOWN_RUN) && OneActive(At(UNKNOWN_RUN))
    ensures var db := At(UNKNOWN_RUN);
      && IsNewest(db, ActiveIds(db, "o/r", 7), Some("1")) && IsUpsertLookup(AfterSupersede(db, UNKNOWN, Some("1"), 1), UNKNOWN.input, None)
      && !OneActive(PushResult(db, UNKNOWN, Some("1"), None, 1, ALL_WRITES))
  {
    assert Legal([]) && At([]) == EMPTY_DB;
    hide Replay;
    Extend([], UNKNOWN_RUN[0]);
    assert [] + [UNKNOWN_RUN[0]] == UNKNOWN_RUN;
    var db := At(UNKNOWN_RUN);
    assert db.rows == map["1" := NewRow(PushInput("1", ""))];
    hide Apply;
    assert ActiveIds(db, "o/r", 7) == {"1"};
    SynchronizeKeepsOneActiveIff(db, UNKNOWN, Some("1"), None, 1, ALL_WRITES);
  }

  const SUPERSEDED_RUN := [AddAgent("g", []), Insert(PushInput("1", "s")),
                           SupersedeOp(Push("synchronize", PushInput("2", "t")), "1", 1), Insert(PushInput("2", "t"))]

  const LATE_REPORT := ReportOp("g", Report("1", Building, "checkout_started", None, None, None, None, None, None), 2)

  lemma SupersededRun()
    ensures Legal(SUPERSEDED_RUN)
    ensures var db := At(SUPERSEDED_RUN);
      && db.rows == map["1" := db.rows["1"], "2" := db.rows["2"]] && db.agents == map["g" := []]
      && db.rows["1"].status == Teardown && db.rows["2"].status == Queued
      && SamePr(db.rows["1"], "o/r", 7) && SamePr(db.rows["2"], "o/r", 7)
  {
    var ops := SUPERSEDED_RUN;
    assert Legal([]) && At([]) == EMPTY_DB;
    hide Replay;
    Extend([], ops[0]);
    assert [] + [ops[0]] == ops[..1];
    Extend(ops[..1], ops[1]);
    assert ops[..1] + [ops[1]] == ops[..2];
    var db2 := At(ops[..2]);
    assert db2.rows == map["1" := NewRow(PushInput("1", "s"))] && db2.agents == map["g" := []];
    Extend(ops[..2], ops[2]);
    assert ops[..2] + [ops[2]] == ops[..3];
    var db3 := At(ops[..3]);
    assert db3.rows == map["1" := db3.rows["1"]] && db3.agents == map["g" := []];
    assert db3.rows["1"].status == Teardown && db3.rows["1"].sha == Some("s");
    Extend(ops[..3], ops[3]);
    assert ops[..3] + [ops[3]] == ops;
  }

  /** A status report that arrives after its row was superseded makes a second active row:
      reports are not compared with the row's status. */
  lemma LateReportBreaksIt()
    ensures Legal(SUPERSEDED_RUN) && OneActive(At(SUPERSEDED_RUN))
    ensures Legal(SUPERSEDED_RUN + [LATE_REPORT]) && !OneActive(At(SUPERSEDED_RUN + [LATE_REPORT]))
  {
    hide Replay;
    SupersededRun();
    var db := At(SUPERSEDED_RUN);
    assert UpdateOutcome(db, "1", None, LATE_REPORT.fields) == Committed;
    Extend(SUPERSEDED_RUN, LATE_REPORT);
    UpdateKeepsOneActiveIff(db, LATE_REPORT);
    hide Apply;
    assert OtherActive(db, "1", "o/r", 7) by { assert "2" in db.rows && "2" != "1"; }
  }
}
