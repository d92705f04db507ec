/** Loops that change the status of many rows: HELLO synchronisation and the stale reconciler. */
module Sweep {
  import opened Previews
  import opened Queries
  import opened Sets
  import opened Hub
  import opened Store

  /** The rows after the same field-less status change was made to each row in `ids`. */
  function Swept(rows: map<string, Row>, ids: set<string>, to: Status, message: string, now: int): map<string, Row> {
    map id | id in rows :: if id in ids then Updated(rows[id], to, message, NO_FIELDS, now) else rows[id]
  }

  lemma SweepNext(rows: map<string, Row>, ids: set<string>, to: Status, message: string, now: int, id: string)
    requires id in rows && id !in ids
    ensures Swept(rows, ids, to, message, now)[id := Updated(rows[id], to, message, NO_FIELDS, now)]
         == Swept(rows, ids + {id}, to, message, now)
  {
  }

  lemma SweepNone(rows: map<string, Row>, to: Status, message: string, now: int)
    ensures Swept(rows, {}, to, message, now) == rows
  {
  }

  /** The events of the sweep, in the order the rows were visited. */
  function SweepEvents(rows: map<string, Row>, order: seq<string>, to: Status, message: string, now: int): seq<Event>
    requires forall id | id in order :: id in rows
  {
    seq(|order|, i requires 0 <= i < |order| => Event(order[i], Some(rows[order[i]].status), to, message, now))
  }

  /** The log grew by one event for each row in `ids`, from its listed status, and by nothing else. */
  ghost predicate SweptLog(rows: map<string, Row>, ids: set<string>, before: seq<Event>, after: seq<Event>,
                           to: Status, message: string, now: int) {
    exists order :: IsListing(ids, order) && (forall id | id in order :: id in rows) &&
      after == before + SweepEvents(rows, order, to, message, now)
  }

  lemma LogNone(rows: map<string, Row>, log: seq<Event>, to: Status, message: string, now: int)
    ensures SweptLog(rows, {}, log, log, to, message, now)
  {
    assert IsListing({}, []) && log == log + SweepEvents(rows, [], to, message, now);
  }

  lemma LogNext(rows: map<string, Row>, ids: set<string>, before: seq<Event>, after: seq<Event>, to: Status,
                message: string, now: int, id: string)
    requires SweptLog(rows, ids, before, after, to, message, now) && id in rows && id !in ids
    ensures SweptLog(rows, ids + {id}, before, after + [Event(id, Some(rows[id].status), to, message, now)], to, message, now)
  {
    var order :| IsListing(ids, order) && (forall i | i in order :: i in rows) &&
      after == before + SweepEvents(rows, order, to, message, now);
    var longer := order + [id];
    assert IsListing(ids + {id}, longer) by {
      assert id !in order;
      assert forall i :: i in longer <==> i in order || i == id;
    }
    assert SweepEvents(rows, longer, to, message, now)
      == SweepEvents(rows, order, to, message, now) + [Event(id, Some(rows[id].status), to, message, now)];
  }

  /** One uninterrupted compare-and-set of a sweep: the row still has the status it was listed with. */
  method SweepRow(store: PreviewStore, id: string, from: Status, to: Status, message: string, now: int,
                  ghost caller: Caller, ghost before: map<string, Row>, ghost ids: set<string>)
    returns (o: Outcome)
    requires store.Valid() && store.rows == Swept(before, ids, to, message, now)
    requires id in before && id !in ids && before[id].status == from
    modifies store
    ensures store.Valid() && o == Committed && store.agents == old(store.agents)
    ensures store.rows == Swept(before, ids + {id}, to, message, now)
    ensures store.log == old(store.log) + [Event(id, Some(from), to, message, now)]
  {
    hide Replay;
    SweepNext(before, ids, to, message, now, id);
    var op := Update(id, Some(from), to, message, NO_FIELDS, now, caller);
    assert UpdateOutcome(store.Tables(), id, Some(from), NO_FIELDS) == Committed;
    UpdateEffect(store.Tables(), op);
    assert store.rows[id] == before[id];
    hide Apply, Swept, UpdateOutcome, Updated;
    o := store.UpdateStatus(id, Some(from), to, message, now, NO_FIELDS, caller);
  }

  /** The swept rows, column by column. */
  lemma SweptMeans(rows: map<string, Row>, ids: set<string>, to: Status, message: string, now: int)
    ensures var after := Swept(rows, ids, to, message, now);
      && after.Keys == rows.Keys
      && (forall id | id in rows :: after[id] == if id !in ids then rows[id]
            else rows[id].(status := to, updatedAt := now, urls := "", error := if message != "" then Some(message) else rows[id].error))
  {
  }

  /** The new events: one for each row in `ids`. */
  lemma SweptLogMeans(rows: map<string, Row>, ids: set<string>, before: seq<Event>, after: seq<Event>, to: Status,
                      message: string, now: int)
    requires SweptLog(rows, ids, before, after, to, message, now)
    ensures before <= after
    ensures forall k | |before| <= k < |after| ::
      after[k].preview in ids && after[k].preview in rows &&
      after[k] == Event(after[k].preview, Some(rows[after[k].preview].status), to, message, now)
    ensures forall j, k | |before| <= j < k < |after| :: after[j].preview != after[k].preview
    ensures forall id | id in ids :: exists k | |before| <= k < |after| :: after[k].preview == id
  {
    var order :| IsListing(ids, order) && (forall id | id in order :: id in rows) &&
      after == before + SweepEvents(rows, order, to, message, now);
    forall k | |before| <= k < |after| ensures after[k].preview == order[k - |before|] && order[k - |before|] in order {
    }
    forall id | id in ids ensures exists k | |before| <= k < |after| :: after[k].preview == id {
      assert id in order;
      var i :| 0 <= i < |order| && order[i] == id;
      assert after[|before| + i].preview == id;
    }
  }

  // ---------- HELLO ----------

  const LOST := "agent restart lost container"

  class WSHandler {
    const store: PreviewStore
    /** JOB_TEARDOWN requests handed to the sender, as (agent, preview). */
    var teardowns: seq<(string, string)>

    constructor (store: PreviewStore)
      ensures this.store == store && teardowns == []
    {
      this.store, teardowns := store, [];
    }

    /** Without interference.  `legacy`: the HELLO has no list of running previews. */
    method SyncOnHello(agent: string, reported: set<string>, legacy: bool, now: int)
      returns (ghost orphans: seq<string>)
      requires store.Valid()
      modifies store, this`teardowns
      ensures store.Valid() && store.agents == old(store.agents)
      ensures legacy ==> store.Tables() == old(store.Tables()) && teardowns == old(teardowns)
      ensures !legacy ==>
        var held := HeldIds(old(store.Tables()), agent, HELLO_STATUSES);
        && store.rows == Swept(old(store.rows), held - reported, Failed, LOST, now)
        && SweptLog(old(store.rows), held - reported, old(store.log), store.log, Failed, LOST, now)
        && IsListing(reported - held, orphans)
        && teardowns == old(teardowns) + TeardownsOf(agent, orphans)
      // The rows: those the agent held and did not report are failed, and no other row changes.
      ensures store.rows.Keys == old(store.rows).Keys
      ensures !legacy ==> forall id | id in store.rows ::
        store.rows[id] == if old(store.rows)[id].agent == Some(agent) && id !in reported &&
                             old(store.rows)[id].status in {Assigned, Building, Running, Teardown}
        then old(store.rows)[id].(status := Failed, updatedAt := now, urls := "", error := Some("agent restart lost container"))
        else old(store.rows)[id]
      // The events: one for each changed row.
      ensures !legacy ==>
        && old(store.log) <= store.log
        && (forall k | |old(store.log)| <= k < |store.log| ::
              && store.log[k].preview in store.rows && store.rows[store.log[k].preview] != old(store.rows)[store.log[k].preview]
              && store.log[k] == Event(store.log[k].preview, Some(old(store.rows)[store.log[k].preview].status), Failed,
                                       "agent restart lost container", now))
        && (forall j, k | |old(store.log)| <= j < k < |store.log| :: store.log[j].preview != store.log[k].preview)
        && (forall id | id in store.rows && store.rows[id] != old(store.rows)[id] ::
              exists k | |old(store.log)| <= k < |store.log| :: store.log[k].preview == id)
      // The requests: one for each reported preview that is not a held row of the agent.
      ensures !legacy ==>
        && (forall i, j | 0 <= i < j < |orphans| :: orphans[i] != orphans[j])
        && (forall id :: id in orphans <==>
              id in reported && !(id in old(store.rows) && old(store.rows)[id].agent == Some(agent) &&
                                  old(store.rows)[id].status in {Assigned, Building, Running, Teardown}))
        && |teardowns| == |old(teardowns)| + |orphans| && old(teardowns) <= teardowns
        && (forall i | 0 <= i < |orphans| :: teardowns[|old(teardowns)| + i] == (agent, orphans[i]))
    {
      orphans := [];
      if legacy { return; }
      hide Replay, Swept, SweptLog, IsListing, Apply, Distinct, HeldIds;
      var held := HeldIds(store.Tables(), agent, HELLO_STATUSES);
      var unknown := store.ListIds(reported - held);
      orphans := unknown;
      for i := 0 to |unknown|
        invariant teardowns == old(teardowns) + TeardownsOf(agent, unknown[..i])
        invariant unchanged(store)
      {
        TeardownsNext(agent, unknown, i);
        teardowns := teardowns + [(agent, unknown[i])];
      }
      assert unknown[..|unknown|] == unknown;
      FailLost(agent, held, reported, now);
      HeldMeans(old(store.Tables()), agent);
      SweptLogMeans(old(store.rows), held - reported, old(store.log), store.log, Failed, LOST, now);
      assert forall id | id in store.rows :: store.rows[id] != old(store.rows)[id] <==> id in held - reported;
      ListingMeans(reported - held, orphans);
    }

    /** DB minus reported: compare-and-set from the listed status, in whatever order the map is walked. */
    method FailLost(agent: string, held: set<string>, reported: set<string>, now: int)
      requires store.Valid() && held == HeldIds(store.Tables(), agent, HELLO_STATUSES)
      modifies store
      ensures store.Valid() && store.agents == old(store.agents)
      ensures store.rows == Swept(old(store.rows), held - reported, Failed, LOST, now)
      ensures SweptLog(old(store.rows), held - reported, old(store.log), store.log, Failed, LOST, now)
      ensures store.rows.Keys == old(store.rows).Keys
      ensures forall id | id in store.rows ::
        store.rows[id] == if old(store.rows)[id].agent == Some(agent) && id !in reported &&
                             old(store.rows)[id].status in {Assigned, Building, Running, Teardown}
        then old(store.rows)[id].(status := Failed, updatedAt := now, urls := "", error := Some("agent restart lost container"))
        else old(store.rows)[id]
    {
      hide Replay, Swept, SweptLog, HeldIds, Apply, Enabled;
      HeldAreRows(store.Tables(), agent, reported);
      SweepNone(store.rows, Failed, LOST, now);
      LogNone(store.rows, store.log, Failed, LOST, now);
      var listed := store.rows;
      var lost := held - reported;
      var todo := lost;
      ghost var done: set<string> := {};
      while todo != {}
        invariant store.Valid() && store.agents == old(store.agents)
        invariant todo <= lost && done == lost - todo
        invariant store.rows == Swept(listed, done, Failed, LOST, now)
        invariant SweptLog(listed, done, old(store.log), store.log, Failed, LOST, now)
        decreases todo
      {
        var id :| id in todo;
        Visit(lost, todo, id);
        LogNext(listed, done, old(store.log), store.log, Failed, LOST, now, id);
        var o := SweepRow(store, id, listed[id].status, Failed, LOST, now, Caller.Hello, listed, done);
        todo, done := todo - {id}, done + {id};
      }
      VisitedAll(lost, done);
      HeldMeans(old(store.Tables()), agent);
      SweptMeans(old(store.rows), lost, Failed, LOST, now);
    }
  }

  lemma HeldMeans(db: Db, agent: string)
    ensures forall id :: id in HeldIds(db, agent, HELLO_STATUSES) <==>
      id in db.rows && db.rows[id].agent == Some(agent) && db.rows[id].status in {Assigned, Building, Running, Teardown}
  {
  }

  lemma ListingMeans(ids: set<string>, found: seq<string>)
    requires IsListing(ids, found)
    ensures forall i, j | 0 <= i < j < |found| :: found[i] != found[j]
    ensures forall id :: id in found <==> id in ids
  {
  }

  lemma HeldAreRows(db: Db, agent: string, reported: set<string>)
    ensures HeldIds(db, agent, HELLO_STATUSES) - reported <= db.rows.Keys
  {
  }

  lemma StaleAreAssigned(db: Db, cutoff: int)
    ensures forall id | id in StaleIds(db, cutoff) :: id in db.rows && db.rows[id].status == Assigned
  {
  }

  lemma VisitedAll<T>(all: set<T>, done: set<T>)
    requires done == all - {}
    ensures done == all
  {
  }

  function TeardownsOf(agent: string, ids: seq<string>): seq<(string, string)> {
    seq(|ids|, i requires 0 <= i < |ids| => (agent, ids[i]))
  }

  lemma TeardownsNext(agent: string, ids: seq<string>, i: nat)
    requires i < |ids|
    ensures TeardownsOf(agent, ids[..i + 1]) == TeardownsOf(agent, ids[..i]) + [(agent, ids[i])]
  {
  }

  /** Afterwards the agent holds exactly what both sides knew, exactly the rest was failed and nothing
      else was touched; a second HELLO with the same list changes nothing. */
  lemma HelloAgrees(db: Db, agent: string, reported: set<string>, now: int, after: Db, later: int)
    requires after.rows == Swept(db.rows, HeldIds(db, agent, HELLO_STATUSES) - reported, Failed, LOST, now)
    ensures after.rows.Keys == db.rows.Keys
    ensures forall id | id in after.rows ::
      (after.rows[id].agent == Some(agent) && after.rows[id].status in {Assigned, Building, Running, Teardown} <==>
       db.rows[id].agent == Some(agent) && db.rows[id].status in {Assigned, Building, Running, Teardown} && id in reported)
    ensures HeldIds(after, agent, HELLO_STATUSES) == HeldIds(db, agent, HELLO_STATUSES) * reported
    ensures forall id | id in HeldIds(db, agent, HELLO_STATUSES) - reported :: after.rows[id].status == Failed
    ensures forall id | id in db.rows && id !in HeldIds(db, agent, HELLO_STATUSES) - reported :: after.rows[id] == db.rows[id]
    ensures Swept(after.rows, HeldIds(after, agent, HELLO_STATUSES) - reported, Failed, LOST, later) == after.rows
  {
    var gone := HeldIds(db, agent, HELLO_STATUSES) - reported;
    forall id ensures id in HeldIds(after, agent, HELLO_STATUSES) <==> id in HeldIds(db, agent, HELLO_STATUSES) * reported {
      if id in db.rows { assert after.rows[id] == if id in gone then Updated(db.rows[id], Failed, LOST, NO_FIELDS, now) else db.rows[id]; }
    }
    assert HeldIds(after, agent, HELLO_STATUSES) - reported == {};
    SweepNone(after.rows, Failed, LOST, later);
  }

  // ---------- reconciler ----------

  const STALE := "reconciliation: stale assigned"

  /** One reconciler cycle without interference; also counts running rows whose agent is offline. */
  method Tick(store: PreviewStore, online: set<string>, cutoff: int, now: int) returns (orphans: nat)
    requires store.Valid()
    modifies store
    ensures store.Valid() && store.agents == old(store.agents)
    ensures store.rows == Swept(old(store.rows), StaleIds(old(store.Tables()), cutoff), Queued, STALE, now)
    ensures SweptLog(old(store.rows), StaleIds(old(store.Tables()), cutoff), old(store.log), store.log, Queued, STALE, now)
    ensures orphans == |OrphanRunning(store.Tables(), online)|
    // The rows: those assigned before the cutoff are queued again, and no other row changes.
    ensures store.rows.Keys == old(store.rows).Keys
    ensures forall id | id in store.rows ::
      store.rows[id] == if old(store.rows)[id].status == Assigned && old(store.rows)[id].updatedAt < cutoff
      then old(store.rows)[id].(status := Queued, updatedAt := now, urls := "", error := Some("reconciliation: stale assigned"))
      else old(store.rows)[id]
    // The events: one for each changed row.
    ensures old(store.log) <= store.log
    ensures forall k | |old(store.log)| <= k < |store.log| ::
      && store.log[k].preview in store.rows && store.rows[store.log[k].preview] != old(store.rows)[store.log[k].preview]
      && store.log[k] == Event(store.log[k].preview, Some(Assigned), Queued, "reconciliation: stale assigned", now)
    ensures forall j, k | |old(store.log)| <= j < k < |store.log| :: store.log[j].preview != store.log[k].preview
    ensures forall id | id in store.rows && store.rows[id] != old(store.rows)[id] ::
      exists k | |old(store.log)| <= k < |store.log| :: store.log[k].preview == id
    ensures orphans == |set id | id in store.rows && store.rows[id].status == Running && store.rows[id].agent.Some? &&
                             store.rows[id].agent.value !in online|
  {
    hide Replay, Swept, SweptLog, StaleIds, Apply, Enabled, OrphanRunning;
    var stale := StaleIds(store.Tables(), cutoff);
    StaleAreAssigned(store.Tables(), cutoff);
    SweepNone(store.rows, Queued, STALE, now);
    LogNone(store.rows, store.log, Queued, STALE, now);
    ghost var listed := store.rows;
    var todo := stale;
    ghost var done: set<string> := {};
    while todo != {}
      invariant store.Valid() && store.agents == old(store.agents)
      invariant todo <= stale && done == stale - todo
      invariant store.rows == Swept(listed, done, Queued, STALE, now)
      invariant SweptLog(listed, done, old(store.log), store.log, Queued, STALE, now)
      decreases todo
    {
      var id :| id in todo;
      Visit(stale, todo, id);
      LogNext(listed, done, old(store.log), store.log, Queued, STALE, now, id);
      var o := SweepRow(store, id, Assigned, Queued, STALE, now, Caller.Reconciler, listed, done);
      todo, done := todo - {id}, done + {id};
    }
    VisitedAll(stale, done);
    orphans := CountOrphans(store, online);
    StaleMeans(old(store.Tables()), cutoff);
    SweptMeans(old(store.rows), stale, Queued, STALE, now);
    SweptLogMeans(old(store.rows), stale, old(store.log), store.log, Queued, STALE, now);
    OrphansMean(store.Tables(), online);
  }

  lemma StaleMeans(db: Db, cutoff: int)
    ensures forall id :: id in StaleIds(db, cutoff) <==> id in db.rows && db.rows[id].status == Assigned && db.rows[id].updatedAt < cutoff
  {
  }

  lemma OrphansMean(db: Db, online: set<string>)
    ensures OrphanRunning(db, online) ==
      set id | id in db.rows && db.rows[id].status == Running && db.rows[id].agent.Some? && db.rows[id].agent.value !in online
  {
  }

  function OrphanRunning(db: Db, online: set<string>): set<string> {
    set id | id in db.rows && db.rows[id].status == Running && db.rows[id].agent.Some? && db.rows[id].agent.value !in online
  }

  method CountOrphans(store: PreviewStore, online: set<string>) returns (n: nat)
    ensures n == |OrphanRunning(store.Tables(), online)|
  {
    n := 0;
    var todo := store.rows.Keys;
    ghost var part := OrphanRunning(store.Tables(), online);
    assert part - todo == {};
    while todo != {}
      invariant todo <= store.rows.Keys && n == |part - todo|
      decreases todo
    {
      var id :| id in todo;
      Visit(part, todo, id);
      var r := store.rows[id];
      if r.status == Running && r.agent.Some? && r.agent.value !in online {
        n := n + 1;
      }
      todo := todo - {id};
    }
    assert part - todo == part;
  }

  /** Afterwards no assigned row is older than the cutoff, every stale row is queued again, and no other row moved. */
  lemma TickRecovers(db: Db, cutoff: int, now: int, after: Db)
    requires after.rows == Swept(db.rows, StaleIds(db, cutoff), Queued, STALE, now)
    ensures StaleIds(after, cutoff) == {}
    ensures forall id | id in after.rows && after.rows[id].status == Assigned :: after.rows[id].updatedAt >= cutoff
    ensures forall id | id in StaleIds(db, cutoff) :: after.rows[id].status == Queued
    ensures forall id | id in db.rows && id !in StaleIds(db, cutoff) :: after.rows[id] == db.rows[id]
  {
  }
}
