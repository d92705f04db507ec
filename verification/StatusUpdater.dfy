/** STATUS_UPDATE messages: written without comparing the row's status, retried without the sha on a
    sha conflict. */
module StatusUpdates {
  import opened Previews
  import opened Hub
  import opened Store

  /** The report as it finally reaches the row: without its sha if the row has another one. */
  function Settled(db: Db, r: Report): Report {
    if r.id in db.rows && r.sha.Some? && db.rows[r.id].sha.Some? && db.rows[r.id].sha != r.sha then r.(sha := None) else r
  }

  method OnStatusUpdate(store: PreviewStore, agent: string, r: Report, now: int, later: int) returns (o: Outcome)
    requires store.Valid()
    modifies store
    ensures store.Valid()
    ensures o == UpdateOutcome(old(store.Tables()), r.id, None, ReportFields(agent, Settled(old(store.Tables()), r)))
    ensures o == Committed ==>
      var s := Settled(old(store.Tables()), r);
      Stepped(old(store.Tables()), ReportOp(agent, s, if s == r then now else later), store.Tables())
    ensures o != Committed ==> store.Tables() == old(store.Tables())
    ensures o in {Committed, NotFound, Constraint} && store.agents == old(store.agents)
    ensures o == NotFound <==> r.id !in old(store.rows)
    ensures o == Constraint <==>
      && r.id in old(store.rows)
      && ((r.status in {Building, Running} && agent != "" && agent !in store.agents) ||
          (old(store.rows)[r.id].sha.None? && r.sha.Some? && r.sha.value != "" &&
           exists j | j in old(store.rows) :: old(store.rows)[j].repo == old(store.rows)[r.id].repo && old(store.rows)[j].sha == r.sha))
    ensures o == Committed ==> r.id in old(store.rows) && r.id in store.rows
    ensures o == Committed ==>
      var was, n := old(store.rows)[r.id], store.rows[r.id];
      var at := if r.sha.Some? && was.sha.Some? && was.sha != r.sha then later else now;
      && store.rows == old(store.rows)[r.id := n]
      && store.log == old(store.log) + [Event(r.id, Some(was.status), r.status, r.message, at)]
      && n == was.(status := r.status, updatedAt := at, container := n.container, host := n.host, port := n.port, urls := n.urls,
                   error := n.error, agent := n.agent, sha := n.sha)
      && n.container == (if r.container.Some? then r.container else was.container)
      && n.host == (if r.host.Some? then r.host else was.host)
      && n.port == (if r.port.Some? then r.port else was.port)
      && n.urls == (if r.urls.Some? then r.urls.value else "")
      && n.error == (if r.error.Some? then r.error else if r.message != "" then Some(r.message) else was.error)
      && n.agent == (if r.status in {Building, Running} && agent != "" then Some(agent) else was.agent)
      && n.sha == (if was.sha.None? && r.sha.Some? && r.sha.value != "" then r.sha else was.sha)
  {
    var fields := Fields(r.container, r.host, r.port, r.urls, r.error, None, r.sha);
    if r.status == Running || r.status == Building {
      fields := fields.(agent := Some(agent));
    }
    o := store.UpdateStatus(r.id, None, r.status, r.message, now, fields, Caller.Agent);
    if o == ShaMismatch {
      fields := fields.(sha := None);
      o := store.UpdateStatus(r.id, None, r.status, r.message, later, fields, Caller.Agent);
    }
  }

  /** A report whose sha differs from the row's has exactly the effect of the same report without one. */
  lemma WrongShaIsNoSha(db: Db, agent: string, r: Report, now: int, after: Db)
    requires r.id in db.rows && r.sha.Some? && db.rows[r.id].sha.Some? && db.rows[r.id].sha != r.sha
    ensures Settled(db, r) == Settled(db, r.(sha := None)) == r.(sha := None)
    ensures Stepped(db, ReportOp(agent, Settled(db, r), now), after) ==>
      && |after.log| == |db.log| + 1 && after.rows.Keys == db.rows.Keys
      && after.rows[r.id].sha == db.rows[r.id].sha && after.rows[r.id].status == r.status
      && (forall id | id in db.rows && id != r.id :: after.rows[id] == db.rows[id])
  {
  }

  /** Exactly which reports reach their row: it exists, its still unknown sha is not one that another row
      of the repository has, and a reporting agent that would be recorded still exists. */
  lemma ReportTakesEffectIff(db: Db, agent: string, r: Report)
    ensures UpdateOutcome(db, r.id, None, ReportFields(agent, Settled(db, r))) == Committed
      <==>
      && r.id in db.rows
      && !(db.rows[r.id].sha.None? && r.sha.Some? && r.sha.value != "" && ShaTaken(db, db.rows[r.id].repo, r.sha.value))
      && (r.status in {Building, Running} && agent != "" ==> agent in db.agents)
  {
  }

  // ---------- a report that is lost ----------

  function PrInput(id: string, pr: int, sha: string): Input {
    Input(id, "o/r", pr, sha, "b", [], "", false, 0, 0)
  }

  const TWO_PRS := [AddAgent("g", []), Insert(PrInput("1", 7, "s")), Insert(PrInput("2", 8, ""))]

  const SHA_REPORT := Report("2", Building, "", None, None, None, None, None, Some("s"))

  lemma TwoPrs()
    ensures Legal(TWO_PRS) && At(TWO_PRS).agents == map["g" := []]
    ensures At(TWO_PRS).rows == map["1" := NewRow(PrInput("1", 7, "s")), "2" := NewRow(PrInput("2", 8, ""))]
  {
    assert Legal([]) && At([]) == EMPTY_DB;
    hide Replay;
    Extend([], TWO_PRS[0]);
    assert [] + [TWO_PRS[0]] == TWO_PRS[..1];
    Extend(TWO_PRS[..1], TWO_PRS[1]);
    assert TWO_PRS[..1] + [TWO_PRS[1]] == TWO_PRS[..2];
    assert At(TWO_PRS[..2]).rows == map["1" := NewRow(PrInput("1", 7, "s"))];
    Extend(TWO_PRS[..2], TWO_PRS[2]);
    assert TWO_PRS[..2] + [TWO_PRS[2]] == TWO_PRS;
  }

  /** Two pull requests at the same commit, one of which was queued without its sha: the report that resolves it
      is rejected as a whole, although without the sha it would have been accepted. */
  lemma ShaReportIsLost()
    ensures Legal(TWO_PRS) && Settled(At(TWO_PRS), SHA_REPORT) == SHA_REPORT
    ensures UpdateOutcome(At(TWO_PRS), "2", None, ReportFields("g", SHA_REPORT)) == Constraint
    ensures UpdateOutcome(At(TWO_PRS), "2", None, ReportFields("g", SHA_REPORT.(sha := None))) == Committed
  {
    TwoPrs();
    hide Replay;
    assert "1" in At(TWO_PRS).rows && At(TWO_PRS).rows["1"].sha == Some("s");
  }
}
