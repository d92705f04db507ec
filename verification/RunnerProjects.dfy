/** Who owns each compose project, in every interleaving of callers that are orderly and mind the projects. */
module RunnerProjects {
  import opened Previews
  import opened Runners
  import opened RunnerFrames
  import opened RunnerSafety

  /** The call will register a compose job. */
  predicate IsUp(h: Worker) { h.Handling? && h.pc.Built? && h.pc.job.mode == Compose }

  /** What the orderly condition leaves open: a Teardown does not find its job while a compose build goes on, no
      Dockerfile build is chosen over a project, and a `compose up` does not fail half-way unless a compose job is
      registered or about to be. */
  predicate Minds(s: State, a: Action) {
    match a
    case Load(_, id) => id in s.jobs ==> forall v | v in s.workers && s.workers[v].id == id :: !Builds(s.workers[v], Compose)
    case Move(w, c) =>
      w in s.workers && s.workers[w].Handling? ==>
        var id := s.workers[w].id;
        && (c == Use(Dockerfile) ==> id !in s.projects)
        && (c == Late && s.workers[w].pc == Chosen(Compose) ==>
              JobHasProject(s, id) || exists v :: v in s.workers && v != w && s.workers[v].id == id && IsUp(s.workers[v]))
    case _ => true
  }

  predicate MindingRun(s: State, run: seq<Action>)
    requires Possible(s, run)
  {
    run == [] || (MindingRun(s, Front(run)) && Minds(After(s, Front(run)), Last(run)))
  }

  /** The preview has a compose project exactly if its job is a compose job. */
  predicate ProjectSettled(s: State, id: string) { id in s.projects <==> JobHasProject(s, id) }

  // ---------- the invariant ----------

  predicate PastStop(h: Worker) { h.Tearing? && h.stage != Loaded }

  predicate CallOk(s: State, h: Worker) {
    match h
    case Handling(id, url, pc) =>
      && (pc.CheckedOut? || pc.Chosen? || pc.Created? || pc.Built? ==> url != "")
      && (Builds(h, Dockerfile) ==> id !in s.projects)
      && (IsUp(h) ==> id in s.projects)
    case Tearing(id, job, stage) =>
      && (id in s.jobs ==> s.jobs[id].mode == job.mode)
      && (stage != Loaded ==> id !in s.projects)
  }

  /** Two workers of one preview. */
  predicate BesideOk(a: Worker, b: Worker) {
    && (a.Tearing? ==> !MayRegister(b))
    && (Builds(a, Compose) ==> !Builds(b, Dockerfile))
  }

  ghost predicate CallsOk(s: State, id: string) {
    && (forall w | w in s.workers && s.workers[w].id == id :: CallOk(s, s.workers[w]))
    && (forall v, w | v in s.workers && w in s.workers && v != w && s.workers[v].id == id && s.workers[w].id == id ::
          BesideOk(s.workers[v], s.workers[w]))
  }

  ghost predicate ProjectOwned(s: State, id: string) {
    id in s.projects ==> JobHasProject(s, id) || exists w :: w in s.workers && s.workers[w].id == id && IsUp(s.workers[w])
  }

  ghost predicate ProjectThere(s: State, id: string) {
    JobHasProject(s, id) ==> id in s.projects || exists w :: w in s.workers && s.workers[w].id == id && PastStop(s.workers[w])
  }

  ghost predicate Accounted(s: State, id: string) { CallsOk(s, id) && ProjectOwned(s, id) && ProjectThere(s, id) }

  ghost predicate ProjectInv(s: State) { forall id: string :: Accounted(s, id) }

  // ---------- one statement of a Handle ----------

  predicate GoesUp(pc: Pc, c: Choice) { pc == Chosen(Compose) && c != Fail }

  lemma HandledProjects(s: State, w: nat, id: string, url: string, pc: Pc, c: Choice)
    requires Offered(s, id, url, pc, c)
    ensures Handled(s, w, id, url, pc, c).projects == if GoesUp(pc, c) then s.projects + {id} else s.projects
  {
  }

  /** The worker's move, as far as projects go. */
  ghost predicate Moved(s: State, t: State, w: nat, id: string, url: string, pc: Pc, c: Choice)
    requires Offered(s, id, url, pc, c)
  {
    && w in s.workers && s.workers[w] == Handling(id, url, pc)
    && t.workers == (if NextPc(s, id, url, pc, c).Some? then s.workers[w := Handling(id, url, NextPc(s, id, url, pc, c).value)]
                     else s.workers - {w})
    && t.jobs == (if pc.Built? then s.jobs[id := pc.job] else s.jobs)
    && t.projects == (if GoesUp(pc, c) then s.projects + {id} else s.projects)
  }

  lemma OwnCallOk(s: State, t: State, w: nat, id: string, url: string, pc: Pc, c: Choice)
    requires Offered(s, id, url, pc, c) && Moved(s, t, w, id, url, pc, c) && CallsOk(s, id) && Minds(s, Move(w, c))
    ensures w in t.workers ==> CallOk(t, t.workers[w])
  {
    assert CallOk(s, s.workers[w]);
  }

  lemma OtherCallOk(s: State, t: State, w: nat, id: string, url: string, pc: Pc, c: Choice, v: nat)
    requires Offered(s, id, url, pc, c) && Moved(s, t, w, id, url, pc, c) && CallsOk(s, id)
    requires v in s.workers && v != w && s.workers[v].id == id
    ensures CallOk(t, s.workers[v])
  {
    assert CallOk(s, s.workers[v]) && CallOk(s, s.workers[w]);
    assert BesideOk(s.workers[v], s.workers[w]) && BesideOk(s.workers[w], s.workers[v]);
  }

  lemma OwnBesideOk(s: State, t: State, w: nat, id: string, url: string, pc: Pc, c: Choice, v: nat)
    requires Offered(s, id, url, pc, c) && Moved(s, t, w, id, url, pc, c) && CallsOk(s, id) && Orderly(s, Move(w, c))
    requires v in s.workers && v != w && s.workers[v].id == id && w in t.workers
    ensures BesideOk(t.workers[w], s.workers[v]) && BesideOk(s.workers[v], t.workers[w])
  {
    assert BesideOk(s.workers[v], s.workers[w]) && BesideOk(s.workers[w], s.workers[v]);
  }

  lemma HandledCalls(s: State, t: State, w: nat, id: string, url: string, pc: Pc, c: Choice)
    requires Offered(s, id, url, pc, c) && Moved(s, t, w, id, url, pc, c) && CallsOk(s, id)
    requires Orderly(s, Move(w, c)) && Minds(s, Move(w, c))
    ensures CallsOk(t, id)
  {
    OwnCallOk(s, t, w, id, url, pc, c);
    forall v | v in s.workers && v != w && s.workers[v].id == id
      ensures CallOk(t, s.workers[v])
      ensures w in t.workers ==> BesideOk(t.workers[w], s.workers[v]) && BesideOk(s.workers[v], t.workers[w])
    {
      OtherCallOk(s, t, w, id, url, pc, c, v);
      if w in t.workers { OwnBesideOk(s, t, w, id, url, pc, c, v); }
    }
    hide CallOk, BesideOk, NextPc, Offered, Orderly, Minds;
  }

  lemma HandledOwned(s: State, t: State, w: nat, id: string, url: string, pc: Pc, c: Choice)
    requires Offered(s, id, url, pc, c) && Moved(s, t, w, id, url, pc, c) && Accounted(s, id) && Minds(s, Move(w, c))
    ensures ProjectOwned(t, id)
  {
    assert CallOk(s, s.workers[w]);
    if pc.Built? {
      assert id in t.projects ==> JobHasProject(t, id);
    } else if GoesUp(pc, c) && c == Ok {
      assert IsUp(t.workers[w]);
    } else if id in t.projects && !JobHasProject(t, id) {
      var v :| v in s.workers && s.workers[v].id == id && IsUp(s.workers[v]);
      assert v != w && v in t.workers && t.workers[v] == s.workers[v];
    }
  }

  lemma HandledThere(s: State, t: State, w: nat, id: string, url: string, pc: Pc, c: Choice)
    requires Offered(s, id, url, pc, c) && Moved(s, t, w, id, url, pc, c) && Accounted(s, id)
    ensures ProjectThere(t, id)
  {
    assert CallOk(s, s.workers[w]);
    if JobHasProject(t, id) && id !in t.projects {
      var v :| v in s.workers && s.workers[v].id == id && PastStop(s.workers[v]);
      assert v != w && v in t.workers && t.workers[v] == s.workers[v];
    }
  }

  lemma HandledAccounted(s: State, w: nat, c: Choice)
    requires Can(s, Move(w, c)) && s.workers[w].Handling? && Accounted(s, s.workers[w].id)
    requires Orderly(s, Move(w, c)) && Minds(s, Move(w, c))
    ensures Accounted(Do(s, Move(w, c)), s.workers[w].id)
  {
    var h, t := s.workers[w], Do(s, Move(w, c));
    HandledDelta(s, w, h.id, h.url, h.pc, c);
    HandledProjects(s, w, h.id, h.url, h.pc, c);
    hide Handled, Offered, NextPc, Orderly, Minds, CallsOk, ProjectOwned, ProjectThere;
    HandledCalls(s, t, w, h.id, h.url, h.pc, c);
    HandledOwned(s, t, w, h.id, h.url, h.pc, c);
    HandledThere(s, t, w, h.id, h.url, h.pc, c);
  }

  // ---------- one statement of a Teardown ----------

  lemma TornAccounted(s: State, w: nat)
    requires Can(s, Move(w, Ok)) && s.workers[w].Tearing? && Accounted(s, s.workers[w].id)
    ensures Accounted(Do(s, Move(w, Ok)), s.workers[w].id)
  {
    var t, id := Do(s, Move(w, Ok)), s.workers[w].id;
    assert CallOk(s, s.workers[w]);
    TornCalls(s, w);
    TornOwned(s, w);
    TornThere(s, w);
  }

  /** The Teardown's statement, as far as projects go. */
  lemma TornShape(s: State, w: nat)
    requires w in s.workers && s.workers[w].Tearing?
    ensures var r := s.workers[w];
      var t := Torn(s, w, r.id, r.job, r.stage);
      && (r.stage == Dropped ==> t.workers == s.workers - {w} && t.jobs == s.jobs - {r.id} && t.projects == s.projects)
      && (r.stage == Loaded ==> t.workers == s.workers[w := Tearing(r.id, r.job, Stopped)])
      && (r.stage == Stopped ==> t.workers == s.workers[w := Tearing(r.id, r.job, Dropped)])
      && (r.stage != Dropped ==> t.jobs == s.jobs && t.projects <= s.projects)
      && (r.stage == Loaded && r.job.mode == Compose ==> r.id !in t.projects)
      && (r.stage == Stopped ==> t.projects == s.projects)
  {
  }

  lemma TornCalls(s: State, w: nat)
    requires w in s.workers && s.workers[w].Tearing? && Accounted(s, s.workers[w].id)
    ensures CallsOk(Torn(s, w, s.workers[w].id, s.workers[w].job, s.workers[w].stage), s.workers[w].id)
  {
    var r := s.workers[w];
    var t := Torn(s, w, r.id, r.job, r.stage);
    TornShape(s, w);
    hide Torn;
    assert CallOk(s, r);
    forall v | v in s.workers && v != w && s.workers[v].id == r.id
      ensures CallOk(t, s.workers[v])
    {
      assert CallOk(s, s.workers[v]) && BesideOk(r, s.workers[v]);
    }
    forall v | v in s.workers && v != w && s.workers[v].id == r.id && w in t.workers
      ensures BesideOk(s.workers[v], t.workers[w]) && BesideOk(t.workers[w], s.workers[v])
    {
      assert BesideOk(r, s.workers[v]) && BesideOk(s.workers[v], r);
    }
    NoProjectToTear(s, w);
    assert w in t.workers ==> CallOk(t, t.workers[w]);
    hide CallOk, BesideOk;
  }

  /** A Teardown of a Dockerfile job meets no project. */
  lemma NoProjectToTear(s: State, w: nat)
    requires w in s.workers && s.workers[w].Tearing? && Accounted(s, s.workers[w].id)
    ensures s.workers[w].job.mode == Dockerfile ==> s.workers[w].id !in s.projects
  {
    assert CallOk(s, s.workers[w]);
    NoUp(s, w);
  }

  lemma TornOwned(s: State, w: nat)
    requires w in s.workers && s.workers[w].Tearing? && Accounted(s, s.workers[w].id)
    ensures ProjectOwned(Torn(s, w, s.workers[w].id, s.workers[w].job, s.workers[w].stage), s.workers[w].id)
  {
    var r := s.workers[w];
    TornShape(s, w);
    NoUp(s, w);
    assert CallOk(s, r);
    hide Torn, CallsOk;
  }

  lemma NoUp(s: State, w: nat)
    requires w in s.workers && s.workers[w].Tearing? && CallsOk(s, s.workers[w].id)
    ensures forall v | v in s.workers && s.workers[v].id == s.workers[w].id :: !IsUp(s.workers[v])
  {
    forall v | v in s.workers && s.workers[v].id == s.workers[w].id ensures !IsUp(s.workers[v]) {
      assert CallOk(s, s.workers[v]);
      if v != w { assert BesideOk(s.workers[w], s.workers[v]); }
    }
  }

  lemma TornThere(s: State, w: nat)
    requires w in s.workers && s.workers[w].Tearing? && Accounted(s, s.workers[w].id)
    ensures ProjectThere(Torn(s, w, s.workers[w].id, s.workers[w].job, s.workers[w].stage), s.workers[w].id)
  {
    var r := s.workers[w];
    var t := Torn(s, w, r.id, r.job, r.stage);
    if JobHasProject(t, r.id) && r.id !in t.projects {
      assert w in t.workers && PastStop(t.workers[w]);
    }
  }

  // ---------- calls that begin ----------

  lemma BeginAccounted(s: State, w: nat, id: string, url: string)
    requires Can(s, Begin(w, id, url)) && Orderly(s, Begin(w, id, url)) && Accounted(s, id)
    ensures Accounted(Do(s, Begin(w, id, url)), id)
  {
    var t := Do(s, Begin(w, id, url));
    assert forall v | v in s.workers :: v in t.workers && t.workers[v] == s.workers[v];
    assert forall v | v in t.workers && v != w :: v in s.workers;
    assert forall v | v in s.workers :: CallOk(t, s.workers[v]) == CallOk(s, s.workers[v]);
    hide CallOk, Claims;
    assert CallOk(t, t.workers[w]) by { NewCallOk(t, t.workers[w]); }
  }

  lemma NewCallOk(s: State, h: Worker)
    requires h.Handling? && h.pc.Passed?
    ensures CallOk(s, h)
  {
  }

  lemma LoadAccounted(s: State, w: nat, id: string)
    requires Can(s, Load(w, id)) && Orderly(s, Load(w, id)) && Minds(s, Load(w, id)) && Accounted(s, id)
    ensures Accounted(Do(s, Load(w, id)), id)
  {
    if id in s.jobs {
      var t := Do(s, Load(w, id));
      assert forall v | v in s.workers :: v in t.workers && t.workers[v] == s.workers[v];
      assert forall v | v in t.workers && v != w :: v in s.workers;
      assert forall v | v in s.workers :: CallOk(t, s.workers[v]) == CallOk(s, s.workers[v]);
      assert CallOk(t, t.workers[w]);
      hide CallOk;
    }
  }

  // ---------- every run ----------

  lemma ProjectElsewhere(s: State, a: Action, id: string)
    requires Can(s, a) && (a.Pause? || IdOf(s, a) != id)
    ensures id in Do(s, a).projects <==> id in s.projects
  {
    if a.Move? && s.workers[a.w].Handling? {
      HandledProjects(s, a.w, s.workers[a.w].id, s.workers[a.w].url, s.workers[a.w].pc, a.choice);
      hide Handled, Offered;
    }
  }

  lemma SameAccounted(s: State, t: State, id: string)
    requires Accounted(s, id) && SameFor(s, t, id) && (id in t.projects <==> id in s.projects)
    ensures Accounted(t, id)
  {
    forall v | v in t.workers && t.workers[v].id == id ensures CallOk(t, t.workers[v]) {
      assert v in s.workers && s.workers[v] == t.workers[v] && CallOk(s, s.workers[v]);
    }
    hide CallOk, BesideOk, IsUp, PastStop;
  }

  lemma OwnAccounted(s: State, a: Action)
    requires Can(s, a) && !a.Pause? && Accounted(s, IdOf(s, a)) && Orderly(s, a) && Minds(s, a)
    ensures Accounted(Do(s, a), IdOf(s, a))
  {
    hide Accounted, Orderly, Minds, Do, Offered;
    match a
    case Begin(w, id, url) => BeginAccounted(s, w, id, url);
    case Load(w, id) => LoadAccounted(s, w, id);
    case Move(w, c) => if s.workers[w].Handling? { HandledAccounted(s, w, c); } else { TornAccounted(s, w); }
  }

  lemma StepKeepsProjects(s: State, a: Action)
    requires ProjectInv(s) && Can(s, a) && Orderly(s, a) && Minds(s, a)
    ensures ProjectInv(Do(s, a))
  {
    hide Can, Do, Orderly, Minds, Accounted, SameFor;
    forall id: string ensures Accounted(Do(s, a), id) {
      if a.Pause? || id != IdOf(s, a) {
        ElsewhereSame(s, a, id);
        ProjectElsewhere(s, a, id);
        SameAccounted(s, Do(s, a), id);
      } else {
        OwnAccounted(s, a);
      }
    }
  }

  lemma {:induction false} ProjectInvAlong(s: State, run: seq<Action>)
    requires ProjectInv(s) && Possible(s, run) && OrderlyRun(s, run) && MindingRun(s, run)
    ensures ProjectInv(After(s, run))
    decreases |run|
  {
    hide ProjectInv, Can, Do, Orderly, Minds;
    if run == [] {
    } else {
      ProjectInvAlong(s, Front(run));
      StepKeepsProjects(After(s, Front(run)), Last(run));
    }
  }

  lemma StartProjects(s: State)
    requires Start(s) && s.projects == {}
    ensures ProjectInv(s)
  {
  }

  lemma QuietProjects(s: State, id: string)
    requires ProjectInv(s) && Quiet(s, id)
    ensures ProjectSettled(s, id)
  {
    assert Accounted(s, id);
  }

  /** Whenever no handler works on a preview, its compose project is there exactly if its job is a compose job. */
  lemma ProjectsSettledBetweenHandlers(s: State, run: seq<Action>, id: string)
    requires Start(s) && s.projects == {} && Possible(s, run) && OrderlyRun(s, run) && MindingRun(s, run)
    requires Quiet(After(s, run), id)
    ensures ProjectSettled(After(s, run), id)
    ensures id in After(s, run).projects <==> id in After(s, run).jobs && After(s, run).jobs[id].mode == Compose
  {
    StartProjects(s);
    ProjectInvAlong(s, run);
    QuietProjects(After(s, run), id);
  }
}
