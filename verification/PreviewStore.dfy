/** The SQLite preview store: its two tables changed in place by four transactions. */
module Store {
  import opened Previews
  import opened Queries

  /** Result of Upsert: a new row, an existing one as it was before, or a primary-key clash. */
  datatype UpsertResult = Created | Existing(id: string, prev: Row) | IdClash

  datatype ClaimResult = Claimed(id: string, row: Row) | NothingQueued | Rejected

  lemma UpdateEffect(db: Db, op: Op)
    requires op.Update? && Enabled(db, op)
    ensures op.id in db.rows
    ensures Apply(db, op) == Db(db.agents,
              db.rows[op.id := Updated(db.rows[op.id], op.to, op.message, op.fields, op.now)],
              db.log + [Event(op.id, Some(db.rows[op.id].status), op.to, op.message, op.now)])
  {
  }

  /** The columns of an updated row. */
  lemma UpdatedMeans(r: Row, to: Status, message: string, f: Fields, now: int)
    ensures var n := Updated(r, to, message, f, now);
      && n == r.(status := n.status, updatedAt := n.updatedAt, container := n.container, host := n.host, port := n.port,
                 urls := n.urls, error := n.error, agent := n.agent, sha := n.sha)
      && n.status == to && n.updatedAt == now
      && n.container == (if f.container.Some? then f.container else r.container)
      && n.host == (if f.host.Some? then f.host else r.host)
      && n.port == (if f.port.Some? then f.port else r.port)
      && n.urls == (if f.urls.Some? then f.urls.value else "")
      && n.error == (if f.error.Some? then f.error else if message != "" then Some(message) else r.error)
      && n.agent == (if f.agent.Some? && f.agent.value != "" then f.agent else r.agent)
      && n.sha == (if r.sha.None? && f.sha.Some? && f.sha.value != "" then f.sha else r.sha)
  {
  }

  /** What UpdateStatus answers, guard by guard. */
  lemma OutcomeMeans(db: Db, id: string, from: Option<Status>, f: Fields)
    ensures var o := UpdateOutcome(db, id, from, f);
      && (o == NotFound <==> id !in db.rows)
      && (o == StaleState <==> id in db.rows && from.Some? && db.rows[id].status != from.value)
      && (o == ShaMismatch <==>
            && id in db.rows && (from.Some? ==> db.rows[id].status == from.value)
            && f.sha.Some? && db.rows[id].sha.Some? && db.rows[id].sha != f.sha)
      && (o == Constraint <==>
            && id in db.rows && o != StaleState && o != ShaMismatch
            && ((f.agent.Some? && f.agent.value != "" && f.agent.value !in db.agents) ||
                (db.rows[id].sha.None? && f.sha.Some? && f.sha.value != "" &&
                 exists j | j in db.rows :: db.rows[j].repo == db.rows[id].repo && db.rows[j].sha == f.sha)))
  {
  }

  /** The candidates: at most 50 queued rows, each once, oldest first, and no other queued row is older. */
  lemma ListedMeans(db: Db, found: seq<string>)
    requires IsOldestQueued(db, found)
    ensures |found| <= 50 && forall i, j | 0 <= i < j < |found| :: found[i] != found[j]
    ensures forall c | c in found :: c in db.rows && db.rows[c].status == Queued
    ensures forall i, j | 0 <= i < j < |found| && found[i] in db.rows && found[j] in db.rows ::
      db.rows[found[i]].createdAt <= db.rows[found[j]].createdAt
    ensures forall id | id in db.rows && db.rows[id].status == Queued && id !in found ::
      |found| == 50 && forall c | c in found && c in db.rows :: db.rows[c].createdAt <= db.rows[id].createdAt
  {
    assert forall id | id in db.rows && db.rows[id].status == Queued :: id in QueuedIds(db);
  }

  lemma ResetEffect(db: Db, ids: seq<string>, now: int)
    requires ListsAssigned(db, ids)
    ensures Apply(db, Reset(ids, now)) == Db(db.agents, map id | id in db.rows :: ResetRow(db.rows[id], now),
              db.log + ResetEvents(ids, now))
  {
  }

  /** Nothing is left assigned, `n` rows changed and `n` events were added, one for each changed row. */
  ghost predicate ResetDone(before: Db, after: Db, now: int, n: nat) {
    && after.rows.Keys == before.rows.Keys
    && AssignedIds(after) == {}
    && ChangedIds(before, after) == AssignedIds(before)
    && n == |ChangedIds(before, after)|
    && |after.log| == |before.log| + n && before.log <= after.log
    && (forall id | id in ChangedIds(before, after) ::
         exists k :: |before.log| <= k < |after.log|
                  && after.log[k] == Event(id, Some(Assigned), Queued, "hub_restart", now))
  }

  lemma ResetMeans(db: Db, ids: seq<string>, now: int)
    requires IsListing(AssignedIds(db), ids) && ListsAssigned(db, ids)
    ensures ResetDone(db, Apply(db, Reset(ids, now)), now, |AssignedIds(db)|)
  {
    var after := Apply(db, Reset(ids, now));
    ListingSize(AssignedIds(db), ids);
    ResetEffect(db, ids, now);
    hide Apply, Enabled, ListsAssigned, Distinct;
    assert ChangedIds(db, after) == AssignedIds(db);
    forall id | id in AssignedIds(db)
      ensures exists k :: |db.log| <= k < |after.log| && after.log[k] == Event(id, Some(Assigned), Queued, "hub_restart", now)
    {
      assert id in ids;
      var k :| 0 <= k < |ids| && ids[k] == id;
      assert after.log[|db.log| + k] == ResetEvents(ids, now)[k];
    }
  }

  lemma ResetLogged(before: Db, after: Db, now: int, n: nat)
    requires ResetDone(before, after, now, n)
    ensures before.log <= after.log && |after.log| == |before.log| + n
    ensures forall id | id in before.rows && before.rows[id].status == Assigned ::
      exists k | |before.log| <= k < |after.log| :: after.log[k] == Event(id, Some(Assigned), Queued, "hub_restart", now)
  {
    forall id | id in before.rows && before.rows[id].status == Assigned
      ensures exists k | |before.log| <= k < |after.log| :: after.log[k] == Event(id, Some(Assigned), Queued, "hub_restart", now)
    {
      assert id in AssignedIds(before) && id in ChangedIds(before, after);
    }
  }

  class PreviewStore {
    var agents: map<string, seq<string>>
    var rows: map<string, Row>
    var log: seq<Event>
    ghost var ops: seq<Op>

    function Tables(): Db
      reads this
    { Db(agents, rows, log) }

    /** The tables are what the recorded history of transactions leads to. */
    ghost predicate Valid()
      reads this
    { Legal(ops) && At(ops) == Tables() }

    constructor ()
      ensures Valid() && ops == []
    {
      agents, rows, log, ops := map[], map[], [], [];
    }

    /** tx.Commit: the pending tables replace the old ones. */
    method Commit(newRows: map<string, Row>, newLog: seq<Event>, ghost op: Op)
      requires Valid() && Enabled(Tables(), op) && Apply(Tables(), op) == Db(agents, newRows, newLog)
      modifies this
      ensures Valid() && agents == old(agents) && rows == newRows && log == newLog && ops == old(ops) + [op]
    {
      hide Replay;
      Extend(ops, op);
      rows, log, ops := newRows, newLog, ops + [op];
    }

    /** Any one answer to ORDER BY created_at DESC LIMIT 1. */
    method Newest(ids: set<string>) returns (found: Option<string>)
      requires ids <= rows.Keys
      ensures IsNewest(Tables(), ids, found)
    {
      found := None;
      var todo := ids;
      while todo != {}
        invariant todo <= ids
        invariant IsNewest(Tables(), ids - todo, found)
      {
        var id :| id in todo;
        if found.None? || rows[found.value].createdAt < rows[id].createdAt {
          found := Some(id);
        }
        todo := todo - {id};
      }
      assert ids - todo == ids;
    }

    method ListIds(ids: set<string>) returns (found: seq<string>)
      ensures IsListing(ids, found)
    {
      found := [];
      var todo := ids;
      while todo != {}
        invariant todo <= ids
        invariant IsListing(ids - todo, found)
      {
        var id :| id in todo;
        found := found + [id];
        todo := todo - {id};
      }
      assert ids - todo == ids;
    }

    method GetActiveByRepoAndPR(repo: string, pr: int) returns (found: Option<string>)
      ensures IsNewest(Tables(), ActiveIds(Tables(), repo, pr), found)
      ensures forall id | id in rows && rows[id].repo == repo && rows[id].pr == pr && rows[id].status in {Queued, Assigned, Building, Running} ::
        found.Some? && found.value in rows && rows[id].createdAt <= rows[found.value].createdAt
      ensures found.Some? ==>
        && found.value in rows && rows[found.value].repo == repo && rows[found.value].pr == pr
        && rows[found.value].status in {Queued, Assigned, Building, Running}
    {
      found := Newest(ActiveIds(Tables(), repo, pr));
      assert forall id | id in rows && rows[id].repo == repo && rows[id].pr == pr && Active(rows[id].status) ::
        id in ActiveIds(Tables(), repo, pr);
    }

    method FindAdhocByBranch(repo: string, branch: string) returns (found: Option<string>)
      ensures IsNewest(Tables(), AdhocIds(Tables(), repo, branch), found)
      ensures forall id | id in rows && rows[id].repo == repo && rows[id].branch == branch && rows[id].adhoc ::
        found.Some? && found.value in rows && rows[id].createdAt <= rows[found.value].createdAt
      ensures found.Some? ==>
        && found.value in rows && rows[found.value].repo == repo && rows[found.value].branch == branch
        && rows[found.value].adhoc
    {
      found := Newest(AdhocIds(Tables(), repo, branch));
      assert forall id | id in rows && rows[id].repo == repo && rows[id].branch == branch && rows[id].adhoc ::
        id in AdhocIds(Tables(), repo, branch);
    }

    /** Oldest queued rows first, at most 50 of them. */
    method ListQueuedForCandidates() returns (found: seq<string>)
      ensures IsOldestQueued(Tables(), found)
      ensures |found| <= 50 && forall i, j | 0 <= i < j < |found| :: found[i] != found[j]
      ensures forall c | c in found :: c in rows && rows[c].status == Queued
      ensures forall i, j | 0 <= i < j < |found| && found[i] in rows && found[j] in rows ::
        rows[found[i]].createdAt <= rows[found[j]].createdAt
      ensures forall id | id in rows && rows[id].status == Queued && id !in found ::
        |found| == 50 && forall c | c in found && c in rows :: rows[c].createdAt <= rows[id].createdAt
    {
      hide IsOldestQueued;
      found := OldestQueued();
      ListedMeans(Tables(), found);
    }

    method OldestQueued() returns (found: seq<string>)
      ensures IsOldestQueued(Tables(), found)
    {
      found := [];
      var todo := QueuedIds(Tables());
      while todo != {} && |found| < CANDIDATE_LIMIT
        invariant todo <= QueuedIds(Tables())
        invariant |found| <= CANDIDATE_LIMIT && Distinct(found)
        invariant forall id :: id in found <==> id in QueuedIds(Tables()) - todo
        invariant forall i, j | 0 <= i < j < |found| ::
          found[i] in rows && found[j] in rows && rows[found[i]].createdAt <= rows[found[j]].createdAt
        invariant forall id, c | id in todo && c in found :: rows[c].createdAt <= rows[id].createdAt
        decreases todo
      {
        var id := OldestIn(todo);
        assert forall c | c in found :: rows[c].createdAt <= rows[id].createdAt;
        assert forall i | 0 <= i < |found| :: found[i] in found;
        found := found + [id];
        todo := todo - {id};
      }
    }

    method OldestIn(ids: set<string>) returns (id: string)
      requires ids != {} && ids <= rows.Keys
      ensures id in ids && forall i | i in ids :: rows[id].createdAt <= rows[i].createdAt
    {
      id :| id in ids;
      var todo := ids - {id};
      while todo != {}
        invariant todo <= ids && id in ids
        invariant forall i | i in ids - todo :: rows[id].createdAt <= rows[i].createdAt
      {
        var i :| i in todo;
        if rows[i].createdAt < rows[id].createdAt { id := i; }
        todo := todo - {i};
      }
      assert ids - todo == ids;
    }

    method Upsert(p: Input) returns (r: UpsertResult)
      requires Valid()
      modifies this
      ensures Valid() && agents == old(agents)
      ensures r.IdClash? <==> p.id in old(rows)
      ensures r.IdClash? ==> unchanged(this)
      ensures p.id !in old(rows) ==> (r.Created? <==> p.sha == "" || !ShaTaken(old(Tables()), p.repo, p.sha))
      ensures r.Created? ==> ops == old(ops) + [Insert(p)] && Stepped(old(Tables()), Insert(p), Tables())
      ensures r.Existing? ==> r.id in ShaIds(old(Tables()), p.repo, p.sha) && r.prev == old(rows)[r.id]
      ensures r.Existing? ==> ops == old(ops) + [Refresh(r.id, p)] && Stepped(old(Tables()), Refresh(r.id, p), Tables())
      ensures r.Created? <==>
        && p.id !in old(rows)
        && (p.sha == "" || forall id | id in old(rows) && old(rows)[id].repo == p.repo :: old(rows)[id].sha != Some(p.sha))
      ensures r.Created? ==>
        && rows == old(rows)[p.id := Row(p.repo, p.pr, if p.sha == "" then None else Some(p.sha), p.branch, Queued, None, None, None,
                                         None, p.labels, None, p.createdAt, p.updatedAt, p.cloneUrl, "", p.adhoc)]
        && log == old(log) + [Event(p.id, None, Queued, "", p.updatedAt)]
      ensures r.Existing? ==>
        && r.id in old(rows) && old(rows)[r.id].repo == p.repo && old(rows)[r.id].sha == Some(p.sha) && log == old(log)
        && rows == old(rows)[r.id := old(rows)[r.id].(pr := p.pr, branch := p.branch, labels := p.labels,
                                                     cloneUrl := p.cloneUrl, updatedAt := p.updatedAt)]
    {
      hide Replay;
      if p.id in rows { return IdClash; }
      TakenIffListed(Tables(), p.repo, p.sha);
      var existing: Option<string> := None;
      if p.sha != "" && ShaIds(Tables(), p.repo, p.sha) != {} {
        var id :| id in ShaIds(Tables(), p.repo, p.sha);
        existing := Some(id);
      }
      if existing.Some? {
        var id := existing.value;
        r := Existing(id, rows[id]);
        Commit(rows[id := rows[id].(pr := p.pr, branch := p.branch, labels := p.labels,
                                    cloneUrl := p.cloneUrl, updatedAt := p.updatedAt)], log, Refresh(id, p));
      } else {
        Commit(rows[p.id := Row(p.repo, p.pr, NullIfEmpty(p.sha), p.branch, Queued, None, None, None, None,
                                p.labels, None, p.createdAt, p.updatedAt, p.cloneUrl, "", p.adhoc)],
               log + [Event(p.id, None, Queued, "", p.updatedAt)], Insert(p));
        r := Created;
      }
    }

    method UpdateStatus(id: string, from: Option<Status>, to: Status, message: string, now: int, f: Fields,
                        ghost caller: Caller)
      returns (o: Outcome)
      requires Valid()
      modifies this
      ensures Valid() && agents == old(agents)
      ensures o == UpdateOutcome(old(Tables()), id, from, f)
      ensures o == Committed ==>
        && ops == old(ops) + [Update(id, from, to, message, f, now, caller)]
        && Stepped(old(Tables()), Update(id, from, to, message, f, now, caller), Tables())
      ensures o != Committed ==> unchanged(this)
      ensures o == NotFound <==> id !in old(rows)
      ensures o == StaleState <==> id in old(rows) && from.Some? && old(rows)[id].status != from.value
      ensures o == ShaMismatch <==>
        && id in old(rows) && (from.Some? ==> old(rows)[id].status == from.value)
        && f.sha.Some? && old(rows)[id].sha.Some? && old(rows)[id].sha != f.sha
      ensures o == Constraint <==>
        && id in old(rows) && o != StaleState && o != ShaMismatch
        && ((f.agent.Some? && f.agent.value != "" && f.agent.value !in agents) ||
            (old(rows)[id].sha.None? && f.sha.Some? && f.sha.value != "" &&
             exists j | j in old(rows) :: old(rows)[j].repo == old(rows)[id].repo && old(rows)[j].sha == f.sha))
      ensures o == Committed ==> id in rows && id in old(rows)
      ensures o == Committed ==>
        var r, n := old(rows)[id], rows[id];
        && rows == old(rows)[id := n] && log == old(log) + [Event(id, Some(r.status), to, message, now)]
        && n == r.(status := n.status, updatedAt := n.updatedAt, container := n.container, host := n.host, port := n.port,
                   urls := n.urls, error := n.error, agent := n.agent, sha := n.sha)
        && n.status == to && n.updatedAt == now
        && n.container == (if f.container.Some? then f.container else r.container)
        && n.host == (if f.host.Some? then f.host else r.host)
        && n.port == (if f.port.Some? then f.port else r.port)
        && n.urls == (if f.urls.Some? then f.urls.value else "")
        && n.error == (if f.error.Some? then f.error else if message != "" then Some(message) else r.error)
        && n.agent == (if f.agent.Some? && f.agent.value != "" then f.agent else r.agent)
        && n.sha == (if r.sha.None? && f.sha.Some? && f.sha.value != "" then f.sha else r.sha)
    {
      OutcomeMeans(Tables(), id, from, f);
      hide Replay, UpdateOutcome;
      if id !in rows { return NotFound; }
      var row := rows[id];
      if from.Some? && row.status != from.value { return StaleState; }
      if f.sha.Some? && row.sha.Some? && row.sha.value != f.sha.value { return ShaMismatch; }
      if row.sha.None? && f.sha.Some? && f.sha.value != "" && ShaTaken(Tables(), row.repo, f.sha.value) { return Constraint; }
      if f.agent.Some? && f.agent.value != "" && f.agent.value !in agents { return Constraint; }
      o := Committed;
      UpdatedMeans(row, to, message, f, now);
      hide ShaTaken;
      ghost var op := Update(id, from, to, message, f, now, caller);
      UpdateEffect(Tables(), op);
      var newRow := UpdateFields(row, to, message, now, f);
      hide Apply, Updated;
      Commit(rows[id := newRow], log + [Event(id, Some(row.status), to, message, now)], op);
    }

    /** The UPDATE statement: every optional column by its own COALESCE. */
    method UpdateFields(row: Row, to: Status, message: string, now: int, f: Fields) returns (newRow: Row)
      ensures newRow == Updated(row, to, message, f, now)
    {
      var errorText := if f.error.Some? then f.error else if message != "" then Some(message) else None;
      var agent := if f.agent.Some? && f.agent.value != "" then f.agent else None;
      var sha := if f.sha.Some? then NullIfEmpty(f.sha.value) else None;
      newRow := row.(status := to, updatedAt := now,
                     container := Coalesce(f.container, row.container),
                     host := Coalesce(f.host, row.host),
                     port := Coalesce(f.port, row.port),
                     urls := if f.urls.Some? then f.urls.value else "",
                     error := Coalesce(errorText, row.error),
                     agent := Coalesce(agent, row.agent),
                     sha := Coalesce(row.sha, sha));
    }

    /** Take the oldest candidate that is still queued.  The agent must still have a row. */
    method Claim(candidates: seq<string>, agent: string, now: int) returns (r: ClaimResult)
      requires Valid()
      modifies this
      ensures Valid() && agents == old(agents)
      ensures r.NothingQueued? <==> forall c | c in candidates :: c !in QueuedIds(old(Tables()))
      ensures r.Rejected? ==> agent !in old(agents)
      ensures r.Claimed? ==> IsOldestOf(old(Tables()), candidates, r.id) && r.id in rows && r.row == rows[r.id]
      ensures r.Claimed? ==>
        && ops == old(ops) + [Op.Claim(r.id, agent, now)]
        && Stepped(old(Tables()), Op.Claim(r.id, agent, now), Tables())
      ensures !r.Claimed? ==> unchanged(this)
      ensures r.NothingQueued? <==> forall c | c in candidates && c in old(rows) :: old(rows)[c].status != Queued
      ensures r.Claimed? ==>
        && r.id in candidates && r.id in old(rows) && old(rows)[r.id].status == Queued && agent in agents
        && (forall c | c in candidates && c in old(rows) && old(rows)[c].status == Queued ::
              old(rows)[r.id].createdAt <= old(rows)[c].createdAt)
        && rows == old(rows)[r.id := old(rows)[r.id].(status := Assigned, agent := Some(agent), updatedAt := now)]
        && log == old(log) + [Event(r.id, Some(Queued), Assigned, "", now)]
    {
      hide Replay;
      var open := set c | c in candidates && c in QueuedIds(Tables());
      if open == {} {
        assert forall c | c in candidates :: c in QueuedIds(Tables()) ==> c in open;
        return NothingQueued;
      }
      var id := OldestIn(open);
      if agent !in agents { return Rejected; }
      Commit(rows[id := rows[id].(status := Assigned, agent := Some(agent), updatedAt := now)],
             log + [Event(id, Some(Queued), Assigned, "", now)], Op.Claim(id, agent, now));
      r := Claimed(id, rows[id]);
    }

    /** Hub start: every assigned row goes back to the queue.  Returns the number of rows changed. */
    method ResetAllAssigned(now: int) returns (n: nat)
      requires Valid()
      modifies this
      ensures Valid() && agents == old(agents)
      ensures exists ids :: ops == old(ops) + [Reset(ids, now)]
      ensures ResetDone(old(Tables()), Tables(), now, n)
      ensures rows.Keys == old(rows).Keys
      ensures forall id | id in rows :: rows[id] == if old(rows)[id].status != Assigned then old(rows)[id]
        else old(rows)[id].(status := Queued, agent := None, updatedAt := now)
      ensures n == |set id | id in old(rows) && old(rows)[id].status == Assigned|
      ensures old(log) <= log && |log| == |old(log)| + n
      ensures forall id | id in old(rows) && old(rows)[id].status == Assigned ::
        exists k | |old(log)| <= k < |log| :: log[k] == Event(id, Some(Assigned), Queued, "hub_restart", now)
    {
      hide Replay;
      var ids := ListIds(AssignedIds(Tables()));
      assert ListsAssigned(Tables(), ids);
      ResetMeans(Tables(), ids, now);
      ResetEffect(Tables(), ids, now);
      hide ResetDone, ListsAssigned, IsListing, Apply, Distinct;
      n := |AssignedIds(Tables())|;
      ResetLogged(Tables(), Apply(Tables(), Reset(ids, now)), now, n);
      var newLog := AppendResets(log, ids, now);
      Commit(map id | id in rows :: ResetRow(rows[id], now), newLog, Reset(ids, now));
    }

    method AppendResets(log: seq<Event>, ids: seq<string>, now: int) returns (out: seq<Event>)
      ensures out == log + ResetEvents(ids, now)
    {
      out := log;
      var i := 0;
      while i < |ids|
        invariant 0 <= i <= |ids|
        invariant out == log + ResetEvents(ids, now)[..i]
      {
        out := out + [Event(ids[i], Some(Assigned), Queued, "hub_restart", now)];
        i := i + 1;
      }
      assert ResetEvents(ids, now)[..i] == ResetEvents(ids, now);
    }
  }
}
