/** What every legal history of the preview store guarantees, whoever made the calls. */
module History {
  import opened Previews

  // ---------- the event log ----------

  /** The events of one preview, in insertion order. */
  function EventsOf(log: seq<Event>, id: string): seq<Event> {
    if log == [] then []
    else EventsOf(Front(log), id) + if Last(log).preview == id then [Last(log)] else []
  }

  /** NULL to queued first, each event starting where the one before ended, ending at `status`. */
  predicate Chained(es: seq<Event>, status: Status) {
    && es != []
    && es[0].from == None && es[0].to == Queued
    && (forall i | 0 < i < |es| :: es[i].from == Some(es[i - 1].to))
    && Last(es).to == status
  }

  predicate ChangesStatus(op: Op, id: string) {
    match op
    case Update(i, _, _, _, _, _, _) => i == id
    case Claim(i, _, _) => i == id
    case Reset(ids, _) => id in ids
    case _ => false
  }

  function Changes(ops: seq<Op>, id: string): nat {
    if ops == [] then 0 else Changes(Front(ops), id) + if ChangesStatus(Last(ops), id) then 1 else 0
  }

  lemma EventsOfAppend(log: seq<Event>, e: Event, id: string)
    ensures EventsOf(log + [e], id) == EventsOf(log, id) + if e.preview == id then [e] else []
  {
    assert Front(log + [e]) == log;
  }

  lemma {:induction false} EventsOfResets(log: seq<Event>, ids: seq<string>, now: int, id: string)
    requires Distinct(ids)
    ensures EventsOf(log + ResetEvents(ids, now), id)
         == EventsOf(log, id) + if id in ids then [Event(id, Some(Assigned), Queued, "hub_restart", now)] else []
  {
    if ids == [] {
      assert log + ResetEvents(ids, now) == log;
    } else {
      var e := Event(Last(ids), Some(Assigned), Queued, "hub_restart", now);
      assert log + ResetEvents(ids, now) == (log + ResetEvents(Front(ids), now)) + [e];
      EventsOfAppend(log + ResetEvents(Front(ids), now), e, id);
      EventsOfResets(log, Front(ids), now, id);
      assert ids == Front(ids) + [Last(ids)];
    }
  }

  /** The effect of an operation on one existing row. */
  function RowAfter(r: Row, op: Op, id: string): Row {
    match op
    case Refresh(i, p) => if i == id then Refreshed(r, p) else r
    case Update(i, _, to, m, f, now, _) => if i == id then Updated(r, to, m, f, now) else r
    case Claim(i, agent, now) => if i == id then r.(status := Assigned, agent := Some(agent), updatedAt := now) else r
    case Reset(ids, now) => if id in ids then r.(status := Queued, agent := None, updatedAt := now) else r
    case DropAgent(agent) => Orphaned(r, agent)
    case _ => r
  }

  lemma RowsMove(db: Db, op: Op, id: string)
    requires Enabled(db, op)
    ensures id in db.rows ==> id in Apply(db, op).rows && Apply(db, op).rows[id] == RowAfter(db.rows[id], op, id)
    ensures id in Apply(db, op).rows && id !in db.rows ==>
      op.Insert? && op.input.id == id && Apply(db, op).rows[id] == NewRow(op.input)
  {
  }

  /** The events operation `op` appends for preview `id`. */
  function NewEvents(db: Db, op: Op, id: string): seq<Event>
    requires Enabled(db, op)
  {
    match op
    case Insert(p) => if p.id == id then [Event(id, None, Queued, "", p.updatedAt)] else []
    case Update(i, _, to, m, _, now, _) => if i == id then [Event(id, Some(db.rows[i].status), to, m, now)] else []
    case Claim(i, _, now) => if i == id then [Event(id, Some(Queued), Assigned, "", now)] else []
    case Reset(ids, now) => if id in ids then [Event(id, Some(Assigned), Queued, "hub_restart", now)] else []
    case _ => []
  }

  lemma AppendedEvents(db: Db, op: Op, id: string)
    requires Enabled(db, op)
    ensures EventsOf(Apply(db, op).log, id) == EventsOf(db.log, id) + NewEvents(db, op, id)
  {
    match op
    case Insert(p) => EventsOfAppend(db.log, Event(p.id, None, Queued, "", p.updatedAt), id);
    case Update(i, _, to, m, _, now, _) => EventsOfAppend(db.log, Event(i, Some(db.rows[i].status), to, m, now), id);
    case Claim(i, _, now) => EventsOfAppend(db.log, Event(i, Some(Queued), Assigned, "", now), id);
    case Reset(ids, now) => EventsOfResets(db.log, ids, now, id);
    case _ =>
  }

  /** The log of every preview is a chain from its insertion to its present status, with exactly one
      event for each operation that touched its status. */
  lemma {:induction false} LogIsChain(ops: seq<Op>, id: string)
    requires Legal(ops)
    ensures id in At(ops).rows ==>
      && Chained(EventsOf(At(ops).log, id), At(ops).rows[id].status)
      && |EventsOf(At(ops).log, id)| == 1 + Changes(ops, id)
    ensures id !in At(ops).rows ==> EventsOf(At(ops).log, id) == [] && Changes(ops, id) == 0
  {
    if ops == [] {
    } else {
      LegalFront(ops);
      hide Replay;
      LogIsChain(Front(ops), id);
      AppendedEvents(At(Front(ops)), Last(ops), id);
      ChainStep(At(Front(ops)), Last(ops), id);
    }
  }

  lemma ChainAppend(es: seq<Event>, status: Status, e: Event)
    requires Chained(es, status) && e.from == Some(status)
    ensures Chained(es + [e], e.to)
  {
  }

  /** An operation logs one event for a row exactly when it creates it or touches its status. */
  lemma NewEventShape(db: Db, op: Op, id: string)
    requires Enabled(db, op)
    ensures |NewEvents(db, op, id)| == if (op.Insert? && op.input.id == id) || ChangesStatus(op, id) then 1 else 0
    ensures ChangesStatus(op, id) ==>
      && id in db.rows
      && NewEvents(db, op, id)[0].from == Some(db.rows[id].status)
      && NewEvents(db, op, id)[0].to == RowAfter(db.rows[id], op, id).status
    ensures !ChangesStatus(op, id) && id in db.rows ==> RowAfter(db.rows[id], op, id).status == db.rows[id].status
    ensures op.Insert? && op.input.id == id ==> NewEvents(db, op, id)[0].from == None && NewEvents(db, op, id)[0].to == Queued
  {
  }

  lemma ChainStep(db: Db, op: Op, id: string)
    requires Enabled(db, op)
    requires id in db.rows ==> Chained(EventsOf(db.log, id), db.rows[id].status)
    requires id !in db.rows ==> EventsOf(db.log, id) == []
    ensures var es := EventsOf(db.log, id) + NewEvents(db, op, id);
      if id in Apply(db, op).rows then
        && Chained(es, Apply(db, op).rows[id].status)
        && |NewEvents(db, op, id)| == if id !in db.rows || ChangesStatus(op, id) then 1 else 0
      else es == [] && !ChangesStatus(op, id)
    ensures id !in db.rows ==> !ChangesStatus(op, id)
  {
    RowsMove(db, op, id);
    NewEventShape(db, op, id);
    InsertIsNew(db, op, id);
    hide EventsOf, NewEvents, Apply, RowAfter, Enabled, ChangesStatus;
    var es, added := EventsOf(db.log, id), NewEvents(db, op, id);
    if ChangesStatus(op, id) {
      ChainAppend(es, db.rows[id].status, added[0]);
      assert added == [added[0]];
    } else if id in db.rows {
      assert es + added == es;
    }
  }

  lemma InsertIsNew(db: Db, op: Op, id: string)
    requires Enabled(db, op)
    ensures op.Insert? && op.input.id == id ==> id !in db.rows && id in Apply(db, op).rows
  {
  }

  // ---------- every column is a fold of the history ----------

  datatype Column = Container | Host | Port | Urls | ErrorText | Sha | AgentName | Place | Birth | Stamp

  /** Operation `op` says something about this column of row `id`. */
  predicate Supplies(op: Op, c: Column, id: string) {
    match op
    case Insert(p) => p.id == id && (c.Place? || c.Birth? || c.Stamp? || (c.Sha? && p.sha != ""))
    case Refresh(i, _) => i == id && (c.Place? || c.Stamp?)
    case Update(i, _, _, m, f, _, _) =>
      i == id &&
      (match c
       case Container => f.container.Some?
       case Host => f.host.Some?
       case Port => f.port.Some?
       case Urls => true
       case Stamp => true
       case ErrorText => f.error.Some? || m != ""
       case Sha => f.sha.Some? && f.sha.value != ""
       case AgentName => f.agent.Some? && f.agent.value != ""
       case _ => false)
    case Claim(i, _, _) => i == id && (c.AgentName? || c.Stamp?)
    case Reset(ids, _) => id in ids && (c.AgentName? || c.Stamp?)
    case _ => false
  }

  /** Position of the last operation that supplies the column, or -1. */
  function LastIndex(ops: seq<Op>, c: Column, id: string): (k: int)
    ensures -1 <= k < |ops|
    ensures k >= 0 ==> Supplies(ops[k], c, id)
    ensures forall j | k < j < |ops| :: !Supplies(ops[j], c, id)
  {
    if ops == [] then -1
    else if Supplies(Last(ops), c, id) then |ops| - 1
    else LastIndex(Front(ops), c, id)
  }

  /** Position of the first operation that supplies the column, or the length. */
  function FirstIndex(ops: seq<Op>, c: Column, id: string): (k: nat)
    ensures k <= |ops|
    ensures k < |ops| ==> Supplies(ops[k], c, id)
    ensures forall j | 0 <= j < k :: !Supplies(ops[j], c, id)
  {
    if ops == [] then 0
    else
      var k := FirstIndex(Front(ops), c, id);
      if k < |ops| - 1 || Supplies(Last(ops), c, id) then k else |ops|
  }

  function InputIn(op: Op): Input
    requires op.Insert? || op.Refresh?
  { op.input }

  function ShaIn(op: Op): string
    requires op.Insert? || (op.Update? && op.fields.sha.Some?)
  { if op.Insert? then op.input.sha else op.fields.sha.value }

  function AgentIn(op: Op): Option<string>
    requires op.Update? || op.Claim? || op.Reset?
  { if op.Update? then op.fields.agent else if op.Claim? then Some(op.agent) else None }

  function TimeIn(op: Op): int
    requires !op.AddAgent? && !op.DropAgent?
  { if op.Insert? || op.Refresh? then op.input.updatedAt else op.now }

  predicate DroppedAfter(ops: seq<Op>, k: nat, agent: string) {
    exists j | k < j < |ops| :: ops[j] == DropAgent(agent)
  }

  function SaidContainer(ops: seq<Op>, id: string): Option<string> {
    var k := LastIndex(ops, Container, id); if k < 0 then None else ops[k].fields.container
  }

  function SaidHost(ops: seq<Op>, id: string): Option<string> {
    var k := LastIndex(ops, Host, id); if k < 0 then None else ops[k].fields.host
  }

  function SaidPort(ops: seq<Op>, id: string): Option<int> {
    var k := LastIndex(ops, Port, id); if k < 0 then None else ops[k].fields.port
  }

  function SaidError(ops: seq<Op>, id: string): Option<string> {
    var k := LastIndex(ops, ErrorText, id);
    if k < 0 then None else if ops[k].fields.error.Some? then ops[k].fields.error else Some(ops[k].message)
  }

  function SaidUrls(ops: seq<Op>, id: string): string {
    var k := LastIndex(ops, Urls, id);
    if k < 0 || ops[k].fields.urls.None? then "" else ops[k].fields.urls.value
  }

  function SaidSha(ops: seq<Op>, id: string): Option<string> {
    var k := FirstIndex(ops, Sha, id); if k == |ops| then None else Some(ShaIn(ops[k]))
  }

  function SaidStamp(ops: seq<Op>, id: string): Option<int> {
    var k := LastIndex(ops, Stamp, id); if k < 0 then None else Some(TimeIn(ops[k]))
  }

  function SaidPlace(ops: seq<Op>, id: string): Option<Input> {
    var k := LastIndex(ops, Place, id); if k < 0 then None else Some(InputIn(ops[k]))
  }

  function SaidBirth(ops: seq<Op>, id: string): Option<Input> {
    var k := FirstIndex(ops, Birth, id); if k == |ops| then None else Some(InputIn(ops[k]))
  }

  /** Container, host, port and error text: the last one supplied.  Preview URLs: what the most
      recent UpdateStatus carried, or empty.  Update time: that of the last operation on the row. */
  predicate RuntimeIsFold(ops: seq<Op>, id: string, r: Row) {
    && r.container == SaidContainer(ops, id)
    && r.host == SaidHost(ops, id)
    && r.port == SaidPort(ops, id)
    && r.error == SaidError(ops, id)
    && r.urls == SaidUrls(ops, id)
    && Some(r.updatedAt) == SaidStamp(ops, id)
  }

  predicate BornAs(r: Row, p: Option<Input>) {
    p.Some? && r.repo == p.value.repo && r.createdAt == p.value.createdAt && r.adhoc == p.value.adhoc
  }

  predicate PlacedAs(r: Row, p: Option<Input>) {
    p.Some? && r.pr == p.value.pr && r.branch == p.value.branch && r.labels == p.value.labels && r.cloneUrl == p.value.cloneUrl
  }

  /** Repository, creation time and origin: those of the insertion.  PR, branch, labels and clone URL:
      those of the last upsert.  Commit sha: the first non-empty one ever supplied. */
  predicate IdentityIsFold(ops: seq<Op>, id: string, r: Row) {
    BornAs(r, SaidBirth(ops, id)) && PlacedAs(r, SaidPlace(ops, id)) && r.sha == SaidSha(ops, id)
  }

  /** Assigned agent: the last non-empty one since the last reset, unless that agent was deleted since. */
  predicate AgentIsFold(ops: seq<Op>, id: string, r: Row) {
    var k := LastIndex(ops, AgentName, id);
    r.agent == if k < 0 || AgentIn(ops[k]).None? || DroppedAfter(ops, k, AgentIn(ops[k]).value) then None else AgentIn(ops[k])
  }

  predicate Unmentioned(ops: seq<Op>, id: string) {
    forall k, c | 0 <= k < |ops| :: !Supplies(ops[k], c, id)
  }

  lemma {:induction false} NoRowNoSupply(ops: seq<Op>, id: string)
    requires Legal(ops) && id !in At(ops).rows
    ensures Unmentioned(ops, id)
  {
    if ops == [] {
    } else {
      LegalFront(ops);
      NoRowNoSupply(Front(ops), id);
      forall k, c | 0 <= k < |ops| ensures !Supplies(ops[k], c, id) {
        if k < |ops| - 1 { assert Front(ops)[k] == ops[k]; }
      }
    }
  }

  lemma Snoc(ops: seq<Op>, op: Op, c: Column, id: string)
    ensures LastIndex(ops + [op], c, id) == if Supplies(op, c, id) then |ops| else LastIndex(ops, c, id)
    ensures FirstIndex(ops + [op], c, id)
         == if FirstIndex(ops, c, id) < |ops| || Supplies(op, c, id) then FirstIndex(ops, c, id) else |ops| + 1
  {
    assert Front(ops + [op]) == ops;
  }

  lemma ContainerStep(ops: seq<Op>, op: Op, id: string, r: Row)
    requires r.container == SaidContainer(ops, id)
    ensures RowAfter(r, op, id).container == SaidContainer(ops + [op], id)
  {
    hide LastIndex, FirstIndex;
    Snoc(ops, op, Container, id);
  }

  lemma HostStep(ops: seq<Op>, op: Op, id: string, r: Row)
    requires r.host == SaidHost(ops, id)
    ensures RowAfter(r, op, id).host == SaidHost(ops + [op], id)
  {
    hide LastIndex, FirstIndex;
    Snoc(ops, op, Host, id);
  }

  lemma PortStep(ops: seq<Op>, op: Op, id: string, r: Row)
    requires r.port == SaidPort(ops, id)
    ensures RowAfter(r, op, id).port == SaidPort(ops + [op], id)
  {
    hide LastIndex, FirstIndex;
    Snoc(ops, op, Port, id);
  }

  lemma ErrorStep(ops: seq<Op>, op: Op, id: string, r: Row)
    requires r.error == SaidError(ops, id)
    ensures RowAfter(r, op, id).error == SaidError(ops + [op], id)
  {
    hide LastIndex, FirstIndex;
    Snoc(ops, op, ErrorText, id);
  }

  lemma UrlsStep(ops: seq<Op>, op: Op, id: string, r: Row)
    requires r.urls == SaidUrls(ops, id)
    ensures RowAfter(r, op, id).urls == SaidUrls(ops + [op], id)
  {
    hide LastIndex, FirstIndex;
    Snoc(ops, op, Urls, id);
  }

  lemma StampStep(ops: seq<Op>, op: Op, id: string, r: Row)
    requires Some(r.updatedAt) == SaidStamp(ops, id)
    requires !(op.Insert? && op.input.id == id)
    ensures Some(RowAfter(r, op, id).updatedAt) == SaidStamp(ops + [op], id)
  {
    hide LastIndex, FirstIndex;
    Snoc(ops, op, Stamp, id);
  }

  lemma ShaStep(ops: seq<Op>, op: Op, id: string, r: Row)
    requires r.sha == SaidSha(ops, id) && !(op.Insert? && op.input.id == id)
    ensures RowAfter(r, op, id).sha == SaidSha(ops + [op], id)
  {
    hide LastIndex, FirstIndex;
    Snoc(ops, op, Sha, id);
  }

  lemma PlaceStep(ops: seq<Op>, op: Op, id: string, r: Row)
    requires PlacedAs(r, SaidPlace(ops, id)) && !(op.Insert? && op.input.id == id)
    ensures PlacedAs(RowAfter(r, op, id), SaidPlace(ops + [op], id))
  {
    hide LastIndex, FirstIndex;
    Snoc(ops, op, Place, id);
  }

  lemma BirthStep(ops: seq<Op>, op: Op, id: string, r: Row)
    requires BornAs(r, SaidBirth(ops, id))
    ensures BornAs(RowAfter(r, op, id), SaidBirth(ops + [op], id))
  {
    hide LastIndex, FirstIndex;
    Snoc(ops, op, Birth, id);
  }

  lemma FirstIdentity(ops: seq<Op>, p: Input)
    requires Unmentioned(ops, p.id)
    ensures IdentityIsFold(ops + [Insert(p)], p.id, NewRow(p))
  {
    Snoc(ops, Insert(p), Birth, p.id);
    Snoc(ops, Insert(p), Place, p.id);
    Snoc(ops, Insert(p), Sha, p.id);
  }

  lemma Unsaid(ops: seq<Op>, p: Input, c: Column)
    requires Unmentioned(ops, p.id) && !(c.Place? || c.Birth? || c.Sha? || c.Stamp?)
    ensures LastIndex(ops + [Insert(p)], c, p.id) == -1
  {
    Snoc(ops, Insert(p), c, p.id);
  }

  lemma FirstRuntime(ops: seq<Op>, p: Input)
    requires Unmentioned(ops, p.id)
    ensures RuntimeIsFold(ops + [Insert(p)], p.id, NewRow(p))
  {
    Unsaid(ops, p, Container);
    Unsaid(ops, p, Host);
    Unsaid(ops, p, Port);
    Unsaid(ops, p, ErrorText);
    Unsaid(ops, p, Urls);
    Snoc(ops, Insert(p), Stamp, p.id);
  }

  lemma {:induction false} RuntimeColumns(ops: seq<Op>, id: string)
    requires Legal(ops) && id in At(ops).rows
    ensures RuntimeIsFold(ops, id, At(ops).rows[id])
  {
    LegalFront(ops);
    hide Replay;
    var before, op := Front(ops), Last(ops);
    assert ops == before + [op];
    RowsMove(At(before), op, id);
    if id in At(before).rows {
      RuntimeColumns(before, id);
      var r := At(before).rows[id];
      ContainerStep(before, op, id, r);
      HostStep(before, op, id, r);
      PortStep(before, op, id, r);
      ErrorStep(before, op, id, r);
      UrlsStep(before, op, id, r);
      StampStep(before, op, id, r);
    } else {
      NoRowNoSupply(before, id);
      FirstRuntime(before, op.input);
    }
  }

  lemma {:induction false} IdentityColumns(ops: seq<Op>, id: string)
    requires Legal(ops) && id in At(ops).rows
    ensures IdentityIsFold(ops, id, At(ops).rows[id])
  {
    LegalFront(ops);
    hide Replay;
    var before, op := Front(ops), Last(ops);
    assert ops == before + [op];
    RowsMove(At(before), op, id);
    if id in At(before).rows {
      IdentityColumns(before, id);
      var r := At(before).rows[id];
      BirthStep(before, op, id, r);
      PlaceStep(before, op, id, r);
      ShaStep(before, op, id, r);
    } else {
      NoRowNoSupply(before, id);
      FirstIdentity(before, op.input);
    }
  }

  lemma DroppedStep(ops: seq<Op>, op: Op, k: nat, agent: string)
    requires k < |ops|
    ensures DroppedAfter(ops + [op], k, agent) <==> DroppedAfter(ops, k, agent) || op == DropAgent(agent)
  {
    if DroppedAfter(ops, k, agent) {
      var j :| k < j < |ops| && ops[j] == DropAgent(agent);
      assert (ops + [op])[j] == DropAgent(agent);
    }
    if op == DropAgent(agent) {
      assert (ops + [op])[|ops|] == DropAgent(agent);
    }
  }

  lemma AgentStep(ops: seq<Op>, op: Op, id: string, r: Row)
    requires AgentIsFold(ops, id, r)
    ensures AgentIsFold(ops + [op], id, RowAfter(r, op, id))
  {
    Snoc(ops, op, AgentName, id);
    hide LastIndex;
    var k := LastIndex(ops, AgentName, id);
    if Supplies(op, AgentName, id) {
      assert !DroppedAfter(ops + [op], |ops|, if AgentIn(op).Some? then AgentIn(op).value else "");
    } else if k >= 0 && AgentIn(ops[k]).Some? {
      DroppedStep(ops, op, k, AgentIn(ops[k]).value);
    }
  }

  lemma {:induction false} AgentColumn(ops: seq<Op>, id: string)
    requires Legal(ops) && id in At(ops).rows
    ensures AgentIsFold(ops, id, At(ops).rows[id])
  {
    LegalFront(ops);
    hide Replay;
    var before, op := Front(ops), Last(ops);
    assert ops == before + [op];
    RowsMove(At(before), op, id);
    if id in At(before).rows {
      AgentColumn(before, id);
      AgentStep(before, op, id, At(before).rows[id]);
    } else {
      NoRowNoSupply(before, id);
      Unsaid(before, op.input, AgentName);
    }
  }

  /** Every column of every row is what the history says it is. */
  lemma RowIsFold(ops: seq<Op>, id: string)
    requires Legal(ops) && id in At(ops).rows
    ensures RuntimeIsFold(ops, id, At(ops).rows[id])
    ensures IdentityIsFold(ops, id, At(ops).rows[id])
    ensures AgentIsFold(ops, id, At(ops).rows[id])
  {
    hide Replay;
    RuntimeColumns(ops, id);
    IdentityColumns(ops, id);
    AgentColumn(ops, id);
  }

  // ---------- commit shas ----------

  predicate ShasUnique(db: Db) {
    forall i, j | i in db.rows && j in db.rows && i != j ::
      db.rows[i].sha.None? || db.rows[i].sha != db.rows[j].sha || db.rows[i].repo != db.rows[j].repo
  }

  predicate ShasNonEmpty(db: Db) {
    forall i | i in db.rows :: db.rows[i].sha != Some("")
  }

  lemma {:induction false} ShaUniqueAlways(ops: seq<Op>)
    requires Legal(ops)
    ensures ShasUnique(At(ops)) && ShasNonEmpty(At(ops))
  {
    if ops == [] {
    } else {
      LegalFront(ops);
      hide Replay;
      ShaUniqueAlways(Front(ops));
      ShaUniqueStep(At(Front(ops)), Last(ops));
    }
  }

  lemma ShaUniqueStep(db: Db, op: Op)
    requires Enabled(db, op) && ShasUnique(db) && ShasNonEmpty(db)
    ensures ShasUnique(Apply(db, op)) && ShasNonEmpty(Apply(db, op))
  {
    match op
    case Insert(p) => ShasAfterInsert(db, p);
    case Update(_, _, _, _, _, _, _) => ShasAfterUpdate(db, op);
    case _ =>
      ShasKept(db, op);
      hide Apply, Enabled;
  }

  lemma ShasKept(db: Db, op: Op)
    requires Enabled(db, op) && !op.Insert? && !op.Update?
    ensures Apply(db, op).rows.Keys == db.rows.Keys
    ensures forall i | i in db.rows ::
      Apply(db, op).rows[i].sha == db.rows[i].sha && Apply(db, op).rows[i].repo == db.rows[i].repo
  {
  }

  lemma ShasAfterInsert(db: Db, p: Input)
    requires Enabled(db, Insert(p)) && ShasUnique(db) && ShasNonEmpty(db)
    ensures ShasUnique(Apply(db, Insert(p))) && ShasNonEmpty(Apply(db, Insert(p)))
  {
  }

  lemma ShasAfterUpdate(db: Db, op: Op)
    requires op.Update? && Enabled(db, op) && ShasUnique(db) && ShasNonEmpty(db)
    ensures ShasUnique(Apply(db, op)) && ShasNonEmpty(Apply(db, op))
  {
  }

  /** Rows are never removed, and a sha once set never changes, between any two moments of a history. */
  lemma {:induction false} ShaNeverChanges(ops: seq<Op>, m: nat, n: nat, id: string)
    requires Legal(ops) && m <= n <= |ops|
    requires Legal(ops[..m]) && Legal(ops[..n])
    requires id in At(ops[..m]).rows
    ensures id in At(ops[..n]).rows
    ensures At(ops[..m]).rows[id].sha.Some? ==> At(ops[..n]).rows[id].sha == At(ops[..m]).rows[id].sha
    decreases n
  {
    hide Replay;
    if m == n {
    } else {
      LegalPrefix(ops, n - 1);
      RowsMove(At(ops[..n - 1]), ops[n - 1], id);
      hide Apply, Enabled;
      ShaNeverChanges(ops, m, n - 1, id);
    }
  }

  predicate OfSha(r: Row, sha: string) { sha != "" && r.sha == Some(sha) }

  // ---------- what no transaction takes away ----------

  predicate RowsKept(db: Db, after: Db) {
    forall id | id in db.rows :: id in after.rows && after.rows[id].repo == db.rows[id].repo &&
      (db.rows[id].sha.Some? ==> after.rows[id].sha == db.rows[id].sha)
  }

  lemma OpKeepsRows(db: Db, op: Op)
    requires Enabled(db, op)
    ensures RowsKept(db, Apply(db, op))
  {
    forall id | id in db.rows
      ensures id in Apply(db, op).rows && Apply(db, op).rows[id].repo == db.rows[id].repo
      ensures db.rows[id].sha.Some? ==> Apply(db, op).rows[id].sha == db.rows[id].sha
    {
      RowsMove(db, op, id);
      hide Apply, Enabled;
    }
  }

  /** One row changed, or came to be. */
  predicate OnlyRow(db: Db, after: Db, id: string) { id in after.rows && after.rows == db.rows[id := after.rows[id]] }
}
