/** The `previews` and `preview_events` tables, and the meaning of every statement that changes them.

    A database is a value.  `Op` lists the transactions that can commit, `Enabled` says when one
    does, and `Apply` gives the tables it leaves.  A legal history is a sequence of operations each
    of which was enabled in the tables left by the ones before it; `Replay` is what it leads to. */
module Previews {
  datatype Option<+T> = None | Some(value: T)

  /** Preview status.  The column is free text: `Other` stands for any text but the seven known ones. */
  datatype Status = Queued | Assigned | Building | Running | Teardown | Done | Failed | Other(text: nat)

  predicate Active(s: Status) { s in {Queued, Assigned, Building, Running} }

  /** One row of `previews`; the key `id` is the map key.  Times are opaque keys in a total order. */
  datatype Row = Row(
    repo: string, pr: int, sha: Option<string>, branch: string, status: Status,
    agent: Option<string>, container: Option<string>, host: Option<string>, port: Option<int>,
    labels: seq<string>, error: Option<string>, createdAt: int, updatedAt: int,
    cloneUrl: string, urls: string, adhoc: bool)

  datatype Event = Event(preview: string, from: Option<Status>, to: Status, message: string, at: int)

  /** What a caller hands to Upsert.  An empty `sha` is stored as NULL. */
  datatype Input = Input(
    id: string, repo: string, pr: int, sha: string, branch: string, labels: seq<string>,
    cloneUrl: string, adhoc: bool, createdAt: int, updatedAt: int)

  /** The optional columns UpdateStatus can set; None is Go's nil. */
  datatype Fields = Fields(
    container: Option<string>, host: Option<string>, port: Option<int>, urls: Option<string>,
    error: Option<string>, agent: Option<string>, sha: Option<string>)

  const NO_FIELDS := Fields(None, None, None, None, None, None, None)

  /** Who asked for a status change.  Recorded in the history only; no operation looks at it. */
  datatype Caller = Webhook | Closer | Deleter | Reconciler | Hello | Rebuild | Stop | Teardowns | TestBuild | Agent

  datatype Op =
    | Insert(input: Input)
    | Refresh(id: string, input: Input)
    | Update(id: string, from: Option<Status>, to: Status, message: string, fields: Fields, now: int, caller: Caller)
    | Claim(id: string, agent: string, now: int)
    | Reset(ids: seq<string>, now: int)
    | AddAgent(agent: string, labels: seq<string>)
    | DropAgent(agent: string)

  /** `agents` maps each agent row to its labels; `log` is `preview_events` in insertion order. */
  datatype Db = Db(agents: map<string, seq<string>>, rows: map<string, Row>, log: seq<Event>)

  const EMPTY_DB := Db(map[], map[], [])

  // ---------- column rules ----------

  function Coalesce<T>(a: Option<T>, b: Option<T>): Option<T> { if a.Some? then a else b }

  function NullIfEmpty(s: string): Option<string> { if s == "" then None else Some(s) }

  function NonEmpty(s: Option<string>): Option<string> { if s.Some? then NullIfEmpty(s.value) else None }

  /** The error text an update supplies: the explicit one, else a non-empty message. */
  function ErrorOf(message: string, f: Fields): Option<string> {
    if f.error.Some? then f.error else NullIfEmpty(message)
  }

  function NewRow(p: Input): Row {
    Row(p.repo, p.pr, NullIfEmpty(p.sha), p.branch, Queued, None, None, None, None,
        p.labels, None, p.createdAt, p.updatedAt, p.cloneUrl, "", p.adhoc)
  }

  function Refreshed(r: Row, p: Input): Row {
    r.(pr := p.pr, branch := p.branch, labels := p.labels, cloneUrl := p.cloneUrl, updatedAt := p.updatedAt)
  }

  function Updated(r: Row, to: Status, message: string, f: Fields, now: int): Row {
    r.(status := to, updatedAt := now,
       container := Coalesce(f.container, r.container),
       host := Coalesce(f.host, r.host),
       port := Coalesce(f.port, r.port),
       urls := if f.urls.Some? then f.urls.value else "",
       error := Coalesce(ErrorOf(message, f), r.error),
       agent := Coalesce(NonEmpty(f.agent), r.agent),
       sha := Coalesce(r.sha, NonEmpty(f.sha)))
  }

  // ---------- when a transaction commits ----------

  predicate ShaTaken(db: Db, repo: string, sha: string) {
    exists id | id in db.rows :: db.rows[id].repo == repo && db.rows[id].sha == Some(sha)
  }

  predicate ShaConflict(r: Row, f: Fields) { f.sha.Some? && r.sha.Some? && r.sha != f.sha }

  datatype Outcome = Committed | NotFound | StaleState | ShaMismatch | Constraint

  /** What UpdateStatus answers: the guards in order, then the two table constraints. */
  function UpdateOutcome(db: Db, id: string, from: Option<Status>, f: Fields): Outcome {
    if id !in db.rows then NotFound
    else if from.Some? && db.rows[id].status != from.value then StaleState
    else if ShaConflict(db.rows[id], f) then ShaMismatch
    else if db.rows[id].sha.None? && NonEmpty(f.sha).Some? && ShaTaken(db, db.rows[id].repo, f.sha.value) then Constraint
    else if NonEmpty(f.agent).Some? && f.agent.value !in db.agents then Constraint
    else Committed
  }

  predicate Distinct(ids: seq<string>) { forall i, j | 0 <= i < j < |ids| :: ids[i] != ids[j] }

  predicate ListsAssigned(db: Db, ids: seq<string>) {
    && Distinct(ids)
    && (forall id | id in ids :: id in db.rows && db.rows[id].status == Assigned)
    && (forall id | id in db.rows && db.rows[id].status == Assigned :: id in ids)
  }

  predicate Enabled(db: Db, op: Op) {
    match op
    case Insert(p) => p.id !in db.rows && (p.sha != "" ==> !ShaTaken(db, p.repo, p.sha))
    case Refresh(id, p) =>
      id in db.rows && p.id !in db.rows && p.sha != "" && db.rows[id].repo == p.repo && db.rows[id].sha == Some(p.sha)
    case Update(id, from, _, _, f, _, _) => UpdateOutcome(db, id, from, f) == Committed
    case Claim(id, agent, _) => id in db.rows && db.rows[id].status == Queued && agent in db.agents
    case Reset(ids, _) => ListsAssigned(db, ids)
    case AddAgent(agent, _) => agent != "" && agent !in db.agents
    case DropAgent(agent) => agent in db.agents
  }

  // ---------- what it leaves ----------

  function ResetRow(r: Row, now: int): Row {
    if r.status == Assigned then r.(status := Queued, agent := None, updatedAt := now) else r
  }

  function Orphaned(r: Row, agent: string): Row {
    if r.agent == Some(agent) then r.(agent := None) else r
  }

  function ResetEvents(ids: seq<string>, now: int): (es: seq<Event>)
    ensures |es| == |ids|
  {
    seq(|ids|, i requires 0 <= i < |ids| => Event(ids[i], Some(Assigned), Queued, "hub_restart", now))
  }

  function Apply(db: Db, op: Op): Db
    requires Enabled(db, op)
  {
    match op
    case Insert(p) =>
      db.(rows := db.rows[p.id := NewRow(p)], log := db.log + [Event(p.id, None, Queued, "", p.updatedAt)])
    case Refresh(id, p) => db.(rows := db.rows[id := Refreshed(db.rows[id], p)])
    case Update(id, _, to, message, f, now, _) =>
      db.(rows := db.rows[id := Updated(db.rows[id], to, message, f, now)],
          log := db.log + [Event(id, Some(db.rows[id].status), to, message, now)])
    case Claim(id, agent, now) =>
      db.(rows := db.rows[id := db.rows[id].(status := Assigned, agent := Some(agent), updatedAt := now)],
          log := db.log + [Event(id, Some(Queued), Assigned, "", now)])
    case Reset(ids, now) =>
      db.(rows := map id | id in db.rows :: ResetRow(db.rows[id], now), log := db.log + ResetEvents(ids, now))
    case AddAgent(agent, labels) => db.(agents := db.agents[agent := labels])
    case DropAgent(agent) =>
      db.(agents := db.agents - {agent}, rows := map id | id in db.rows :: Orphaned(db.rows[id], agent))
  }

  /** The transaction `op` took the tables from `before` to `after`. */
  predicate Stepped(before: Db, op: Op, after: Db) { Enabled(before, op) && after == Apply(before, op) }

  // ---------- histories ----------

  function Front<T>(s: seq<T>): seq<T>
    requires |s| > 0
  { s[..|s| - 1] }

  function Last<T>(s: seq<T>): T
    requires |s| > 0
  { s[|s| - 1] }

  /** The tables after a history, or None if some operation in it could not have committed. */
  function Replay(ops: seq<Op>): Option<Db> {
    if ops == [] then Some(EMPTY_DB)
    else
      var before := Replay(Front(ops));
      if before.Some? && Enabled(before.value, Last(ops)) then Some(Apply(before.value, Last(ops))) else None
  }

  predicate Legal(ops: seq<Op>) { Replay(ops).Some? }

  function At(ops: seq<Op>): Db
    requires Legal(ops)
  { Replay(ops).value }

  lemma Extend(ops: seq<Op>, op: Op)
    requires Legal(ops) && Enabled(At(ops), op)
    ensures Legal(ops + [op]) && At(ops + [op]) == Apply(At(ops), op)
  {
    assert Front(ops + [op]) == ops;
  }

  lemma LegalFront(ops: seq<Op>)
    requires Legal(ops) && ops != []
    ensures Legal(Front(ops)) && Enabled(At(Front(ops)), Last(ops)) && At(ops) == Apply(At(Front(ops)), Last(ops))
  {
  }

  lemma {:induction false} LegalPrefix(ops: seq<Op>, n: nat)
    requires Legal(ops) && n <= |ops|
    ensures Legal(ops[..n])
    ensures n < |ops| ==> Legal(ops[..n + 1]) && Enabled(At(ops[..n]), ops[n]) && At(ops[..n + 1]) == Apply(At(ops[..n]), ops[n])
  {
    if n == |ops| {
      assert ops[..n] == ops;
    } else {
      LegalFront(ops);
      if n == |ops| - 1 {
        assert ops[..n + 1] == ops && ops[..n] == Front(ops);
      } else {
        LegalPrefix(Front(ops), n);
        assert Front(ops)[..n] == ops[..n] && Front(ops)[..n + 1] == ops[..n + 1];
      }
    }
  }
}
