/** The connection registry and the bracket each WebSocket session puts around it: add, online, offline,
    remove.  Any number of sessions run side by side, status writes may fail, and the hub may restart. */
module Sessions {
  import opened Previews

  // ---------- the registry ----------

  function Added<C(==)>(conns: map<string, C>, agent: string, c: C): map<string, C> {
    if agent in conns then conns else conns[agent := c]
  }

  function Removed<C(==)>(conns: map<string, C>, agent: string, c: C): map<string, C> {
    if agent in conns && conns[agent] == c then conns - {agent} else conns
  }

  class WsConn {
    const agentId: string
    /** The JOB_ASSIGN messages written to it, by preview. */
    var written: seq<string>

    constructor (agentId: string)
      ensures this.agentId == agentId && written == []
    {
      this.agentId, written := agentId, [];
    }
  }

  class ConnRegistry {
    var conns: map<string, WsConn>

    constructor ()
      ensures conns == map[]
    {
      conns := map[];
    }

    method Add(c: WsConn) returns (ok: bool)
      modifies this
      ensures ok == (c.agentId !in old(conns))
      ensures conns == Added(old(conns), c.agentId, c)
      ensures conns == if c.agentId in old(conns) then old(conns) else old(conns)[c.agentId := c]
    {
      if c.agentId in conns { return false; }
      conns := conns[c.agentId := c];
      ok := true;
    }

    /** Removing a connection that is no longer the registered one does nothing. */
    method Remove(c: WsConn)
      modifies this
      ensures conns == Removed(old(conns), c.agentId, c)
      ensures conns.Keys == old(conns).Keys - if c.agentId in old(conns) && old(conns)[c.agentId] == c then {c.agentId} else {}
      ensures forall a | a in conns :: conns[a] == old(conns)[a]
    {
      if c.agentId in conns && conns[c.agentId] == c { conns := conns - {c.agentId}; }
    }

    method ConnFor(agent: string) returns (c: Option<WsConn>)
      ensures c == if agent in conns then Some(conns[agent]) else None
    {
      if agent in conns { c := Some(conns[agent]); } else { c := None; }
    }
  }

  class WSJobSender {
    const registry: ConnRegistry

    constructor (registry: ConnRegistry)
      ensures this.registry == registry
    {
      this.registry := registry;
    }

    /** One JOB_ASSIGN, to the agent's registered connection and to no other; an error without one. */
    method SendJobAssign(agent: string, preview: string, writeFails: bool) returns (ok: bool)
      modifies if agent in registry.conns then {registry.conns[agent]} else {}
      ensures ok <==> agent in registry.conns && !writeFails
      ensures agent in registry.conns ==>
        registry.conns[agent].written == old(registry.conns[agent].written) + if ok then [preview] else []
    {
      var c := registry.ConnFor(agent);
      if c.None? || writeFails { return false; }
      c.value.written := c.value.written + [preview];
      ok := true;
    }
  }

  // ---------- sessions ----------

  /** How a status write ends; the last one was committed although the caller saw an error. */
  datatype Outcome = Written | Refused | WrittenUnknown

  /** One attempt of a session to write its agent's status. */
  datatype Write = Write(session: nat, agent: string, online: bool, outcome: Outcome)

  /** `Ended` is before the offline write, `Leaving` only has the deferred remove left. */
  datatype Pc = Registered | Greeting | Serving | Ended | Leaving

  datatype Session = Session(agent: string, pc: Pc)

  /** Sessions are numbered in the order of their registration. */
  datatype State = State(
    agents: set<string>, online: set<string>, conns: map<string, nat>, sessions: map<nat, Session>,
    next: nat, log: seq<Write>)

  datatype Action =
    | Connect(agent: string)
    | WriteOnline(s: nat, outcome: Outcome)
    | Welcome(s: nat, ok: bool)
    | End(s: nat)
    | WriteOffline(s: nat, outcome: Outcome)
    | Leave(s: nat)
    | NewAgent(agent: string)
    | DeleteAgent(agent: string)
    | Restart

  predicate At(st: State, s: nat, pc: Pc) { s in st.sessions && st.sessions[s].pc == pc }

  /** An agent that was deleted has no row to write to. */
  predicate CanWrite(st: State, s: nat, outcome: Outcome)
    requires s in st.sessions
  { outcome == Refused || st.sessions[s].agent in st.agents }

  predicate Can(st: State, a: Action) {
    match a
    case WriteOnline(s, outcome) => At(st, s, Registered) && CanWrite(st, s, outcome)
    case Welcome(s, _) => At(st, s, Greeting)
    case End(s) => At(st, s, Serving)
    case WriteOffline(s, outcome) => At(st, s, Ended) && CanWrite(st, s, outcome)
    case Leave(s) => At(st, s, Leaving)
    case NewAgent(agent) => agent !in st.agents
    case _ => true
  }

  function Wrote(st: State, s: nat, online: bool, outcome: Outcome, pc: Pc): State
    requires s in st.sessions
  {
    var agent := st.sessions[s].agent;
    st.(online := if outcome == Refused then st.online else if online then st.online + {agent} else st.online - {agent},
        sessions := st.sessions[s := Session(agent, pc)],
        log := st.log + [Write(s, agent, online, outcome)])
  }

  function Do(st: State, a: Action): State
    requires Can(st, a)
  {
    match a
    case Connect(agent) =>
      if agent in st.conns then st
      else st.(conns := Added(st.conns, agent, st.next), sessions := st.sessions[st.next := Session(agent, Registered)],
               next := st.next + 1)
    case WriteOnline(s, outcome) => Wrote(st, s, true, outcome, if outcome == Written then Greeting else Leaving)
    case Welcome(s, ok) => st.(sessions := st.sessions[s := Session(st.sessions[s].agent, if ok then Serving else Ended)])
    case End(s) => st.(sessions := st.sessions[s := Session(st.sessions[s].agent, Ended)])
    case WriteOffline(s, outcome) => Wrote(st, s, false, outcome, Leaving)
    case Leave(s) => st.(conns := Removed(st.conns, st.sessions[s].agent, s), sessions := st.sessions - {s})
    case NewAgent(agent) => st.(agents := st.agents + {agent})
    case DeleteAgent(agent) => st.(agents := st.agents - {agent}, online := st.online - {agent})
    case Restart => st.(online := {}, conns := map[], sessions := map[])
  }

  predicate Possible(run: seq<Action>)
    decreases |run|, 0
  {
    run == [] || (Possible(Front(run)) && Can(After(Front(run)), Last(run)))
  }

  /** The first start of the hub resets every agent to offline, as a restart does. */
  function After(run: seq<Action>): State
    requires Possible(run)
    decreases |run|, 1
  {
    if run == [] then State({}, {}, map[], map[], 0, []) else Do(After(Front(run)), Last(run))
  }

  // ---------- what every run keeps ----------

  /** The latest attempt to write the agent's status. */
  function Latest(log: seq<Write>, agent: string): (w: Option<Write>)
    ensures w.Some? ==> w.value in log && w.value.agent == agent
  {
    if log == [] then None
    else if Last(log).agent == agent then Some(Last(log))
    else Latest(Front(log), agent)
  }

  predicate LatestFailed(log: seq<Write>, agent: string) {
    Latest(log, agent).Some? && Latest(log, agent).value.outcome != Written
  }

  predicate Bracketed(st: State) {
    && (forall a | a in st.conns :: st.conns[a] in st.sessions && st.sessions[st.conns[a]].agent == a)
    && (forall s | s in st.sessions :: st.sessions[s].agent in st.conns && st.conns[st.sessions[s].agent] == s)
    && (forall s | s in st.sessions :: s < st.next)
  }

  /** What a session may rely on between its own statements. */
  predicate Holds(st: State, s: nat)
    requires s in st.sessions
  {
    var a := st.sessions[s].agent;
    match st.sessions[s].pc
    case Registered => true
    case Leaving => a in st.online ==> LatestFailed(st.log, a)
    case _ => Latest(st.log, a) == Some(Write(s, a, true, Written))
  }

  predicate Backed(st: State, a: string) { a in st.online ==> a in st.conns || LatestFailed(st.log, a) }

  predicate InOrder(st: State) {
    && (forall i | 0 <= i < |st.log| :: st.log[i].session < st.next)
    && (forall i, s | 0 <= i < |st.log| && s in st.sessions && st.sessions[s].agent == st.log[i].agent ::
          st.log[i].session <= s)
    && (forall i, j | 0 <= i < j < |st.log| && st.log[i].agent == st.log[j].agent ::
          st.log[i].session <= st.log[j].session)
  }

  predicate OfflineFollowsOnline(log: seq<Write>, j: nat)
    requires j < |log|
  {
    log[j].online || Latest(log[..j], log[j].agent) == Some(Write(log[j].session, log[j].agent, true, Written))
  }

  ghost predicate Inv(st: State) {
    && Bracketed(st) && InOrder(st)
    && (forall j | 0 <= j < |st.log| :: OfflineFollowsOnline(st.log, j))
    && (forall s | s in st.sessions :: Holds(st, s))
    && (forall a: string :: Backed(st, a))
  }

  lemma StepKeepsBracket(st: State, a: Action)
    requires Can(st, a) && Bracketed(st)
    ensures Bracketed(Do(st, a))
  {
  }

  lemma StepKeepsOrder(st: State, a: Action)
    requires Can(st, a) && Bracketed(st) && InOrder(st)
    ensures InOrder(Do(st, a))
  {
  }

  lemma StepKeepsHolds(st: State, a: Action, s: nat)
    requires Can(st, a) && Bracketed(st) && s in Do(st, a).sessions
    requires s in st.sessions ==> Holds(st, s)
    ensures Holds(Do(st, a), s)
  {
  }

  lemma StepKeepsBacked(st: State, a: Action, agent: string)
    requires Can(st, a) && Bracketed(st) && Backed(st, agent)
    requires forall s | s in st.sessions :: Holds(st, s)
    ensures Backed(Do(st, a), agent)
  {
  }

  lemma StepKeepsFollowing(st: State, a: Action, j: nat)
    requires Can(st, a) && Bracketed(st) && j < |Do(st, a).log|
    requires forall s | s in st.sessions :: Holds(st, s)
    requires forall i | 0 <= i < |st.log| :: OfflineFollowsOnline(st.log, i)
    ensures OfflineFollowsOnline(Do(st, a).log, j)
  {
    if j < |st.log| {
      assert Do(st, a).log[..j] == st.log[..j];
      assert OfflineFollowsOnline(st.log, j);
    } else {
      assert Do(st, a).log[..j] == st.log;
    }
  }

  lemma {:induction false} InvAlways(run: seq<Action>)
    requires Possible(run)
    ensures Inv(After(run))
    decreases |run|
  {
    hide Can, Do, Bracketed, InOrder, Holds, Backed, OfflineFollowsOnline;
    if run == [] {
      StartInv();
    } else {
      InvAlways(Front(run));
      var st, a := After(Front(run)), Last(run);
      StepKeepsBracket(st, a);
      StepKeepsOrder(st, a);
      forall s | s in Do(st, a).sessions ensures Holds(Do(st, a), s) { StepKeepsHolds(st, a, s); }
      forall agent: string ensures Backed(Do(st, a), agent) { StepKeepsBacked(st, a, agent); }
      forall j | 0 <= j < |Do(st, a).log| ensures OfflineFollowsOnline(Do(st, a).log, j) { StepKeepsFollowing(st, a, j); }
    }
  }

  lemma StartInv()
    ensures Inv(After([]))
  {
  }

  // ---------- the results ----------

  /** An agent marked online has a connection, unless its latest status write reported an error. */
  lemma OnlineIsConnected(run: seq<Action>, agent: string)
    requires Possible(run) && agent in After(run).online
    ensures agent in After(run).conns || LatestFailed(After(run).log, agent)
  {
    InvAlways(run);
    assert Backed(After(run), agent);
  }

  predicate WritesSucceed(log: seq<Write>) { forall w | w in log :: w.outcome == Written }

  /** With status writes succeeding, the agents marked online are among the connected ones, and a connection
      belongs to exactly one session, of that agent. */
  lemma OnlineAreConnected(run: seq<Action>)
    requires Possible(run) && WritesSucceed(After(run).log)
    ensures After(run).online <= After(run).conns.Keys
    ensures forall s, t | s in After(run).sessions && t in After(run).sessions && s != t ::
      After(run).sessions[s].agent != After(run).sessions[t].agent
  {
    InvAlways(run);
    forall agent | agent in After(run).online ensures agent in After(run).conns.Keys {
      OnlineIsConnected(run, agent);
    }
  }

  /** Whatever fails and however often the hub restarts, the status writes of an agent come in the order its
      sessions were registered: once a newer session has written, no older one writes again. */
  lemma OlderNeverWritesLater(run: seq<Action>, i: nat, j: nat)
    requires Possible(run) && i < j < |After(run).log| && After(run).log[i].agent == After(run).log[j].agent
    ensures After(run).log[i].session <= After(run).log[j].session
  {
    InvAlways(run);
  }

  /** An offline write directly follows, among its agent's writes, the online write of the same session. */
  lemma OfflineEndsItsOwnOnline(run: seq<Action>, j: nat)
    requires Possible(run) && j < |After(run).log| && !After(run).log[j].online
    ensures var w := After(run).log[j];
      Latest(After(run).log[..j], w.agent) == Some(Write(w.session, w.agent, true, Written))
  {
    InvAlways(run);
    assert OfflineFollowsOnline(After(run).log, j);
  }

  // ---------- online without a connection ----------

  /** The write that decides whether the agent is online: the latest one since the last restart or the deletion of
      the agent, leaving out online writes that were refused and offline writes refused for want of a row. */
  function Deciding(run: seq<Action>, agent: string): Option<Write>
    requires Possible(run)
  {
    if run == [] then None
    else DecidingNext(After(Front(run)), Deciding(Front(run), agent), Last(run), agent)
  }

  function DecidingNext(st: State, before: Option<Write>, a: Action, agent: string): Option<Write>
    requires Can(st, a)
  {
    match a
    case WriteOnline(s, outcome) =>
      if st.sessions[s].agent == agent && outcome != Refused then Some(Write(s, agent, true, outcome)) else before
    case WriteOffline(s, outcome) =>
      if st.sessions[s].agent == agent && (outcome != Refused || before.Some?) then Some(Write(s, agent, false, outcome))
      else before
    case DeleteAgent(a) => if a == agent then None else before
    case Restart => None
    case _ => before
  }

  /** The write was lost to its session: it committed an online although the session saw an error and left
      without an offline, or it was an offline that did not commit. */
  predicate LosesAgent(w: Write) { if w.online then w.outcome == WrittenUnknown else w.outcome == Refused }

  predicate Tells(st: State, m: Option<Write>, agent: string) {
    && (agent in st.online <==> m.Some? && (m.value.online || m.value.outcome == Refused))
    && (m.Some? && m.value.online ==> m.value.outcome != Refused)
    && (m.Some? && m.value.online && m.value.outcome == Written ==>
          m.value.session in st.sessions && st.sessions[m.value.session].agent == agent)
    && (forall s | s in st.sessions && st.sessions[s].agent == agent && st.sessions[s].pc in {Greeting, Serving, Ended} ::
          m.None? || m == Some(Write(s, agent, true, Written)))
    && (m.Some? && m.value.online && m.value.outcome == Written && m.value.session in st.sessions ==>
          st.sessions[m.value.session].pc in {Greeting, Serving, Ended})
  }

  lemma WriteTells(st: State, m: Option<Write>, a: Action, agent: string)
    requires Can(st, a) && Bracketed(st) && Tells(st, m, agent) && (a.WriteOnline? || a.WriteOffline?)
    ensures Tells(Do(st, a), DecidingNext(st, m, a, agent), agent)
  {
  }

  lemma OtherTells(st: State, m: Option<Write>, a: Action, agent: string)
    requires Can(st, a) && Bracketed(st) && Tells(st, m, agent) && !a.WriteOnline? && !a.WriteOffline?
    ensures Tells(Do(st, a), DecidingNext(st, m, a, agent), agent)
  {
  }

  lemma {:induction false} DecidingTells(run: seq<Action>, agent: string)
    requires Possible(run)
    ensures Tells(After(run), Deciding(run, agent), agent)
    decreases |run|
  {
    hide Can, Do, Tells, DecidingNext, Inv;
    if run == [] {
      assert Tells(After([]), None, agent) by { NothingTold(agent); }
    } else {
      DecidingTells(Front(run), agent);
      var st, a := After(Front(run)), Last(run);
      assert Bracketed(st) by { InvAlways(Front(run)); BracketOfInv(st); }
      if a.WriteOnline? || a.WriteOffline? {
        WriteTells(st, Deciding(Front(run), agent), a, agent);
      } else {
        OtherTells(st, Deciding(Front(run), agent), a, agent);
      }
    }
  }

  lemma BracketOfInv(st: State)
    requires Inv(st)
    ensures Bracketed(st)
  {
  }

  lemma NothingTold(agent: string)
    ensures Tells(After([]), None, agent)
  {
  }

  /** Exactly which failures do it: an agent without a connection is marked online iff the write that decides is
      an online write that committed although its session saw an error, or an offline write that did not commit. */
  lemma DisconnectedOnlineIff(run: seq<Action>, agent: string)
    requires Possible(run) && agent !in After(run).conns
    ensures agent in After(run).online <==> Deciding(run, agent).Some? && LosesAgent(Deciding(run, agent).value)
  {
    DecidingTells(run, agent);
    InvAlways(run);
    hide Possible, After, Deciding, InOrder, Holds, Backed;
  }

  /** The registered connection of an agent is its one session between add and remove; without one there is no
      such session. */
  lemma ConnectionIsTheSession(run: seq<Action>, agent: string)
    requires Possible(run)
    ensures var st := After(run);
      && (agent in st.conns ==> st.conns[agent] in st.sessions && st.sessions[st.conns[agent]].agent == agent)
      && (forall s | s in st.sessions && st.sessions[s].agent == agent :: agent in st.conns && s == st.conns[agent])
  {
    InvAlways(run);
  }

  /** Why the writes have to succeed: a lost offline write leaves the agent online without a connection. */
  lemma LostOfflineWrite(agent: string) returns (run: seq<Action>)
    ensures Possible(run) && agent in After(run).online && After(run).conns == map[]
  {
    StartState();
    hide Possible, After;
    var r1 := Grow([], NewAgent(agent));
    var r2 := Grow(r1, Connect(agent));
    var r3 := Grow(r2, WriteOnline(0, Written));
    var r4 := Grow(r3, Welcome(0, false));
    var r5 := Grow(r4, WriteOffline(0, Refused));
    run := Grow(r5, Action.Leave(0));
  }

  lemma StartState()
    ensures Possible([]) && After([]) == State({}, {}, map[], map[], 0, [])
  {
  }

  lemma Grow(run: seq<Action>, a: Action) returns (longer: seq<Action>)
    requires Possible(run) && Can(After(run), a)
    ensures longer == run + [a] && Possible(longer) && After(longer) == Do(After(run), a)
  {
    longer := run + [a];
    assert Front(longer) == run && Last(longer) == a;
  }
}
