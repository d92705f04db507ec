/** The counter, the building marks and the IDs a HELLO reports. */
module RunnerCounts {
  import opened Previews
  import opened Runners
  import opened RunnerFrames

  // ---------- the counter ----------

  function Share(s: State, w: nat): int {
    if w in s.workers && s.workers[w].Handling? && InFlight(s.workers[w].pc) then 1 else 0
  }

  lemma CountMoved(s: State, t: State, w: nat)
    requires w in s.workers && WorkerMoved(s, t, w)
    ensures |Counting(t)| - Share(t, w) == |Counting(s)| - Share(s, w)
  {
    assert Counting(t) - {w} == Counting(s) - {w};
    assert |Counting(t) - {w}| == |Counting(t)| - Share(t, w);
    assert |Counting(s) - {w}| == |Counting(s)| - Share(s, w);
  }

  lemma HandledCounts(s: State, w: nat, url: string, pc: Pc, c: Choice)
    requires w in s.workers && s.workers[w] == Handling(s.workers[w].id, url, pc) && Offered(s, s.workers[w].id, url, pc, c)
    ensures var t := Handled(s, w, s.workers[w].id, url, pc, c); t.inFlight - Share(t, w) == s.inFlight - Share(s, w)
  {
  }

  lemma MoveCounts(s: State, w: nat, c: Choice)
    requires Can(s, Move(w, c)) && s.inFlight == |Counting(s)|
    ensures Do(s, Move(w, c)).inFlight == |Counting(Do(s, Move(w, c)))|
  {
    hide Handled, Offered, Counting, WorkerMoved;
    MoveMoves(s, w, c);
    CountMoved(s, Do(s, Move(w, c)), w);
    if s.workers[w].Handling? { HandledCounts(s, w, s.workers[w].url, s.workers[w].pc, c); }
  }

  lemma CountTrack(s: State, a: Action)
    requires Can(s, a) && s.inFlight == |Counting(s)|
    ensures Do(s, a).inFlight == |Counting(Do(s, a))|
  {
    hide Handled, Torn, Offered;
    match a
    case Move(w, c) => MoveCounts(s, w, c);
    case Begin(w, id, url) => assert Counting(To(s, w, Handling(id, url, Passed))) == Counting(s);
    case Load(w, id) => if id in s.jobs { assert Counting(To(s, w, Tearing(id, s.jobs[id], Loaded))) == Counting(s); }
    case Pause => assert Counting(s.(paused := true)) == Counting(s);
  }

  /** In every run, orderly or not, the counter is the number of accepted Handle calls in progress. */
  lemma {:induction false} InFlightIsExact(s: State, run: seq<Action>)
    requires Start(s) && Possible(s, run)
    ensures After(s, run).inFlight == |Counting(After(s, run))|
    decreases |run|
  {
    hide Can, Do, Counting;
    if run == [] {
      assert Counting(s) == {} by { NoneCounted(s); }
    } else {
      InFlightIsExact(s, Front(run));
      CountTrack(After(s, Front(run)), Last(run));
    }
  }

  lemma NoneCounted(s: State)
    requires s.workers == map[]
    ensures Counting(s) == {}
  {
  }

  // ---------- the building marks ----------

  /** No Handle begins beside another one of its preview; nothing else is asked of the callers. */
  predicate BeginsAlone(s: State, a: Action) {
    a.Begin? ==> forall v | v in s.workers && s.workers[v].id == a.id :: s.workers[v].Tearing?
  }

  predicate AloneRun(s: State, run: seq<Action>)
    requires Possible(s, run)
  {
    run == [] || (AloneRun(s, Front(run)) && BeginsAlone(After(s, Front(run)), Last(run)))
  }

  ghost predicate OneEach(s: State, id: string) {
    forall v, w | HandledBy(s, v, id) && HandledBy(s, w, id) :: v == w
  }

  ghost predicate MarkedByOne(s: State, id: string) {
    id in s.building <==> exists w :: HandledBy(s, w, id) && InBuilding(s.workers[w].pc)
  }

  ghost predicate Marked(s: State, id: string) { OneEach(s, id) && MarkedByOne(s, id) }

  lemma HandledMarks(s: State, w: nat, id: string, url: string, pc: Pc, c: Choice)
    requires w in s.workers && s.workers[w] == Handling(id, url, pc) && Offered(s, id, url, pc, c)
    requires id in s.building <==> InBuilding(pc)
    ensures var t := Handled(s, w, id, url, pc, c);
      id in t.building <==> w in t.workers && t.workers[w].Handling? && InBuilding(t.workers[w].pc)
  {
  }

  lemma TornMarks(s: State, w: nat, id: string, job: Job, stage: Stage)
    requires w in s.workers && s.workers[w] == Tearing(id, job, stage)
    ensures var t := Torn(s, w, id, job, stage);
      t.building == s.building && (w in t.workers ==> t.workers[w].Tearing?)
  {
  }

  lemma SameMarked(s: State, t: State, id: string)
    requires SameFor(s, t, id) && Marked(s, id)
    ensures Marked(t, id)
  {
    assert forall w :: HandledBy(s, w, id) <==> HandledBy(t, w, id);
  }

  lemma MoveMarked(s: State, w: nat, c: Choice)
    requires Can(s, Move(w, c)) && Marked(s, s.workers[w].id)
    ensures Marked(Do(s, Move(w, c)), s.workers[w].id)
  {
    hide Handled, Torn, Offered, InBuilding;
    var id := s.workers[w].id;
    var t := Do(s, Move(w, c));
    MoveMoves(s, w, c);
    match s.workers[w]
    case Handling(_, url, pc) =>
      assert HandledBy(s, w, id);
      assert id in s.building <==> InBuilding(pc);
      HandledMarks(s, w, id, url, pc, c);
      HandledHandles(s, w, id, url, pc, c);
      forall v | HandledBy(t, v, id) ensures v == w { assert v in s.workers && HandledBy(s, v, id); }
    case Tearing(_, job, stage) =>
      TornMarks(s, w, id, job, stage);
      assert forall v :: HandledBy(s, v, id) <==> HandledBy(t, v, id);
  }

  lemma MarkedStep(s: State, a: Action, id: string)
    requires Can(s, a) && BeginsAlone(s, a) && Marked(s, id)
    ensures Marked(Do(s, a), id)
  {
    hide Handled, Torn, Offered, InBuilding, SameFor, Marked;
    if a.Pause? || IdOf(s, a) != id {
      ElsewhereSame(s, a, id);
      SameMarked(s, Do(s, a), id);
    } else {
      match a
      case Move(w, c) => MoveMarked(s, w, c);
      case Begin(w, _, url) => BeginMarked(s, w, id, url);
      case Load(w, _) => LoadMarked(s, w, id);
    }
  }

  lemma BeginMarked(s: State, w: nat, id: string, url: string)
    requires Can(s, Begin(w, id, url)) && BeginsAlone(s, Begin(w, id, url)) && Marked(s, id)
    ensures Marked(Do(s, Begin(w, id, url)), id)
  {
    assert forall v :: !HandledBy(s, v, id);
  }

  lemma LoadMarked(s: State, w: nat, id: string)
    requires Can(s, Load(w, id)) && Marked(s, id)
    ensures Marked(Do(s, Load(w, id)), id)
  {
    assert forall v :: HandledBy(s, v, id) <==> HandledBy(Do(s, Load(w, id)), v, id);
  }

  /** If no two Handle calls of one preview overlap, building holds exactly the previews of the calls between
      their mark and their deferred delete. */
  lemma {:induction false} BuildingIsExact(s: State, run: seq<Action>, id: string)
    requires Start(s) && Possible(s, run) && AloneRun(s, run)
    ensures OneEach(After(s, run), id)
    ensures id in After(s, run).building <==>
      exists w :: HandledBy(After(s, run), w, id) && InBuilding(After(s, run).workers[w].pc)
    decreases |run|
  {
    hide Can, Do, BeginsAlone, InBuilding;
    if run == [] {
      assert Marked(s, id);
    } else {
      BuildingIsExact(s, Front(run), id);
      assert Marked(After(s, Front(run)), id);
      MarkedStep(After(s, Front(run)), Last(run), id);
      assert Marked(After(s, run), id);
    }
  }

  // ---------- no preview is missing from a HELLO ----------

  function RunningIds(s: State): set<string> { s.jobs.Keys + s.building }

  predicate OnItsWay(pc: Pc) {
    pc.Listed? || pc.CheckedOut? || pc.Chosen? || pc.Created? || pc.Built?
  }

  /** Worker w is building the preview and has not failed, or the preview is registered. */
  predicate Pursued(s: State, w: nat, id: string) {
    id in s.jobs || (HandledBy(s, w, id) && OnItsWay(s.workers[w].pc))
  }

  /** A failure of w's Handle, or the last statement of a Teardown of the preview. */
  predicate GivesUp(s: State, a: Action, w: nat, id: string) {
    (a.Move? && a.w == w && a.choice in {Fail, Late}) ||
    (a.Move? && a.w in s.workers && s.workers[a.w].Tearing? && s.workers[a.w].id == id && s.workers[a.w].stage == Dropped)
  }

  lemma HandledRegisters(s: State, w: nat, id: string, url: string, pc: Pc, c: Choice)
    requires w in s.workers && s.workers[w] == Handling(id, url, pc) && Offered(s, id, url, pc, c)
    requires id in s.jobs || (OnItsWay(pc) && c !in {Fail, Late})
    ensures var t := Handled(s, w, id, url, pc, c);
      id in t.jobs || (w in t.workers && t.workers[w].Handling? && t.workers[w].id == id && OnItsWay(t.workers[w].pc))
  {
  }

  lemma HandledKeepsJob(s: State, v: nat, id: string, url: string, pc: Pc, c: Choice)
    requires Offered(s, id, url, pc, c)
    ensures id in s.jobs ==> id in Handled(s, v, id, url, pc, c).jobs
  {
  }

  lemma PursuedStep(s: State, a: Action, w: nat, id: string)
    requires Can(s, a) && Pursued(s, w, id) && !GivesUp(s, a, w, id)
    ensures Pursued(Do(s, a), w, id)
  {
    hide Handled, Torn, Offered, OnItsWay;
    match a
    case Move(v, c) =>
      MoveMoves(s, v, c);
      if s.workers[v].id != id {
        ElsewhereSame(s, a, id);
      } else {
        match s.workers[v]
        case Handling(_, url, pc) =>
          HandledKeepsJob(s, v, id, url, pc, c);
          if v == w { HandledRegisters(s, v, id, url, pc, c); }
        case Tearing(_, job, stage) => TornKeepsJob(s, v, id, job, stage);
      }
    case _ =>
  }

  lemma TornKeepsJob(s: State, v: nat, id: string, job: Job, stage: Stage)
    ensures stage != Dropped ==> Torn(s, v, id, job, stage).jobs == s.jobs
  {
  }

  lemma PursuedIsRunning(s: State, w: nat, id: string)
    requires MarkedByOne(s, id) && Pursued(s, w, id)
    ensures id in RunningIds(s)
  {
  }

  lemma ListedIsPursued(s: State, w: nat, id: string, url: string)
    requires w in s.workers && s.workers[w] == Handling(id, url, Listed)
    ensures Pursued(s, w, id)
  {
  }

  lemma {:induction false} PursuedAlong(s: State, run: seq<Action>, i: nat, w: nat, id: string)
    requires Possible(s, run) && i <= |run|
    requires Possible(s, run[..i]) && Pursued(After(s, run[..i]), w, id)
    requires forall j | i <= j < |run| :: Possible(s, run[..j]) && !GivesUp(After(s, run[..j]), run[j], w, id)
    ensures Pursued(After(s, run), w, id)
    decreases |run|
  {
    hide Can, Do, GivesUp, Pursued;
    if i == |run| {
      assert run[..i] == run;
    } else {
      var front := Front(run);
      assert front == run[..|run| - 1] && front[..i] == run[..i];
      forall j | i <= j < |front|
        ensures Possible(s, front[..j]) && !GivesUp(After(s, front[..j]), front[j], w, id)
      {
        assert front[..j] == run[..j];
      }
      PursuedAlong(s, front, i, w, id);
      PursuedStep(After(s, front), Last(run), w, id);
    }
  }

  /** If no two Handle calls of one preview overlap: from the moment a Handle has put its preview into
      building, until it fails or a Teardown deletes the job, the preview is among the IDs a HELLO would report. */
  lemma NeverMissing(s: State, run: seq<Action>, i: nat, w: nat, id: string, url: string)
    requires Start(s) && Possible(s, run) && AloneRun(s, run) && i <= |run|
    requires Possible(s, run[..i]) && w in After(s, run[..i]).workers
    requires After(s, run[..i]).workers[w] == Handling(id, url, Listed)
    requires forall j | i <= j < |run| :: Possible(s, run[..j]) && !GivesUp(After(s, run[..j]), run[j], w, id)
    ensures id in RunningIds(After(s, run))
  {
    hide Can, Do, BeginsAlone, Start, GivesUp, Pursued, RunningIds, InBuilding;
    ListedIsPursued(After(s, run[..i]), w, id, url);
    PursuedAlong(s, run, i, w, id);
    BuildingIsExact(s, run, id);
    PursuedIsRunning(After(s, run), w, id);
  }

  /** Nothing else is reported: in such a run the IDs are those of the registered jobs and of the calls between their
      building mark and their deferred delete. */
  lemma ReportedIff(s: State, run: seq<Action>, id: string)
    requires Start(s) && Possible(s, run) && AloneRun(s, run)
    ensures var t := After(s, run);
      id in RunningIds(t) <==>
        id in t.jobs ||
        exists w :: HandledBy(t, w, id) && (OnItsWay(t.workers[w].pc) || t.workers[w].pc.Unstarted? || t.workers[w].pc.Over?)
  {
    hide Can, Do, BeginsAlone, Start, Possible, AloneRun, After;
    BuildingIsExact(s, run, id);
    var t := After(s, run);
    assert forall w | HandledBy(t, w, id) ::
      InBuilding(t.workers[w].pc) <==> OnItsWay(t.workers[w].pc) || t.workers[w].pc.Unstarted? || t.workers[w].pc.Over?;
  }
}
