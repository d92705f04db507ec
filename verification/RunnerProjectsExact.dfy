/** Minding the projects asks no more than it must: any step that does not can go on, by workers already under way
    whose outside calls succeed or fail cleanly, to leave a project without a job or a compose job without one. */
module RunnerProjectsExact {
  import opened Previews
  import opened Runners
  import opened RunnerFrames
  import opened RunnerSafety
  import opened RunnerStrands
  import opened RunnerProjects

  // ---------- steps already under way ----------

  predicate Plain(a: Action) { a.Move? && a.choice in {Ok, Fail} }

  predicate PlainRun(run: seq<Action>) { forall a | a in run :: Plain(a) }

  /** The workers can all finish and leave project and job apart. */
  ghost predicate LeavesProject(s: State, id: string) {
    exists run :: Possible(s, run) && PlainRun(run) && Quiet(After(s, run), id) && !ProjectSettled(After(s, run), id)
  }

  lemma LeftNow(s: State, id: string)
    requires Quiet(s, id) && !ProjectSettled(s, id)
    ensures LeavesProject(s, id)
  {
    assert Possible(s, []) && After(s, []) == s && PlainRun([]);
  }

  lemma LeftLater(s: State, a: Action, id: string)
    requires Can(s, a) && Plain(a) && LeavesProject(Do(s, a), id)
    ensures LeavesProject(s, id)
  {
    hide Can, Do, Possible, After, Quiet, ProjectSettled;
    var run :| Possible(Do(s, a), run) && PlainRun(run) && Quiet(After(Do(s, a), run), id) && !ProjectSettled(After(Do(s, a), run), id);
    One(s, a);
    Joined(s, [a], run);
    assert PlainRun([a] + run);
  }

  /** The system can go on from s to t, and is as orderly there. */
  ghost predicate GoesOn(s: State, t: State, id: string) {
    (LeavesProject(t, id) ==> LeavesProject(s, id)) && (Inv(s) ==> Inv(t))
  }

  lemma PlainGoesOn(s: State, w: nat, c: Choice, id: string)
    requires Can(s, Move(w, c)) && c in {Ok, Fail}
    ensures GoesOn(s, Do(s, Move(w, c)), id)
  {
    assert Orderly(s, Move(w, c));
    hide Can, Do, Orderly, LeavesProject, Inv;
    if LeavesProject(Do(s, Move(w, c)), id) { LeftLater(s, Move(w, c), id); }
    if Inv(s) { StepKeepsInv(s, Move(w, c)); }
  }

  /** One statement of a Handle. */
  lemma Step(s: State, w: nat, c: Choice, id: string) returns (t: State)
    requires w in s.workers && s.workers[w].Handling? && c in {Ok, Fail}
    requires Offered(s, s.workers[w].id, s.workers[w].url, s.workers[w].pc, c)
    ensures GoesOn(s, t, id) && Moved(s, t, w, s.workers[w].id, s.workers[w].url, s.workers[w].pc, c)
  {
    var h := s.workers[w];
    t := Do(s, Move(w, c));
    HandledDelta(s, w, h.id, h.url, h.pc, c);
    HandledProjects(s, w, h.id, h.url, h.pc, c);
    assert Can(s, Move(w, c)) && t == Handled(s, w, h.id, h.url, h.pc, c);
    hide Can, Do, Handled, Offered, NextPc, GoesOn;
    PlainGoesOn(s, w, c, id);
  }

  ghost predicate Quits(s: State, t: State, w: nat, id: string, pc: Pc) {
    && t.workers == s.workers - {w} && t.projects == s.projects
    && t.jobs == (if pc.Built? then s.jobs[id := pc.job] else s.jobs)
  }

  lemma QuitStep(s: State, t: State, w: nat, id: string, url: string, pc: Pc)
    requires w in s.workers && s.workers[w] == Handling(id, url, pc) && Offered(s, id, url, pc, QuitChoice(pc))
    requires Moved(s, t, w, id, url, pc, QuitChoice(pc))
    ensures if w in t.workers then RunnerStrands.Onward(t.workers[w], id, url) && Rank(t.workers[w].pc) < Rank(pc)
      && t.projects == s.projects && t.workers - {w} == s.workers - {w} && !t.workers[w].pc.Built?
      && t.jobs == (if pc.Built? then s.jobs[id := pc.job] else s.jobs)
      else Quits(s, t, w, id, pc)
  {
  }

  /** The call fails as soon as it can and cleans up. */
  lemma QuitCall(s: State, w: nat, id: string) returns (t: State)
    requires w in s.workers && s.workers[w].Handling? && s.workers[w].id == id
    ensures GoesOn(s, t, id) && Quits(s, t, w, id, s.workers[w].pc)
    decreases Rank(s.workers[w].pc)
  {
    hide GoesOn, Moved;
    var h := s.workers[w];
    var mid := Step(s, w, QuitChoice(h.pc), id);
    QuitStep(s, mid, w, id, h.url, h.pc);
    t := mid;
    if w in mid.workers {
      t := QuitCall(mid, w, id);
      OnTwice(s, mid, t, id);
    }
  }

  lemma OnTwice(s: State, mid: State, t: State, id: string)
    requires GoesOn(s, mid, id) && GoesOn(mid, t, id)
    ensures GoesOn(s, t, id)
  {
    hide LeavesProject, Inv;
  }

  /** All calls of the preview but the kept ones fail. */
  lemma QuitOthers(s: State, id: string, keep: set<nat>) returns (t: State)
    requires forall w | w in Others(s, id, keep) :: s.workers[w].Handling?
    ensures GoesOn(s, t, id) && t.workers == s.workers - Others(s, id, keep) && t.projects == s.projects
    ensures !JobHasProject(s, id) && (forall w | w in Others(s, id, keep) :: !IsUp(s.workers[w])) ==> !JobHasProject(t, id)
    decreases |Others(s, id, keep)|
  {
    hide GoesOn;
    if Others(s, id, keep) == {} {
      t := s;
      assert GoesOn(s, s, id) by { OnSelf(s, id); }
    } else {
      var w :| w in Others(s, id, keep);
      var mid := QuitCall(s, w, id);
      assert Others(mid, id, keep) == Others(s, id, keep) - {w};
      t := QuitOthers(mid, id, keep);
      OnTwice(s, mid, t, id);
    }
  }

  lemma OnSelf(s: State, id: string)
    ensures GoesOn(s, s, id)
  {
  }

  lemma TearStep(s: State, w: nat, id: string) returns (t: State)
    requires w in s.workers && s.workers[w].Tearing?
    ensures GoesOn(s, t, id) && t == Torn(s, w, s.workers[w].id, s.workers[w].job, s.workers[w].stage)
  {
    t := Do(s, Move(w, Ok));
    assert Can(s, Move(w, Ok)) && t == Torn(s, w, s.workers[w].id, s.workers[w].job, s.workers[w].stage);
    hide Can, Do, Torn, GoesOn;
    PlainGoesOn(s, w, Ok, id);
  }

  // ---------- a compose up that fails half-way ----------

  /** Every call of the preview fails; what is apart stays apart. */
  lemma AllQuit(s: State, id: string)
    requires forall w | w in s.workers && s.workers[w].id == id :: s.workers[w].Handling? && !IsUp(s.workers[w])
    requires id in s.projects && !JobHasProject(s, id)
    ensures LeavesProject(s, id)
  {
    hide LeavesProject, IsUp, JobHasProject;
    var t := QuitOthers(s, id, {});
    assert Quiet(t, id) by {
      forall w | w in t.workers ensures t.workers[w].id != id { assert w !in Others(s, id, {}); }
    }
    LeftNow(t, id);
  }

  lemma AllCalls(s: State, w: nat)
    requires w in s.workers && Accounted(s, s.workers[w].id) && MayRegister(s.workers[w])
    ensures forall v | v in s.workers && s.workers[v].id == s.workers[w].id :: s.workers[v].Handling?
  {
    forall v | v in s.workers && s.workers[v].id == s.workers[w].id ensures s.workers[v].Handling? {
      if v != w { assert BesideOk(s.workers[v], s.workers[w]); }
    }
  }

  lemma LateLeaves(s: State, w: nat)
    requires Can(s, Move(w, Late)) && Accounted(s, s.workers[w].id) && !Minds(s, Move(w, Late))
    ensures LeavesProject(Do(s, Move(w, Late)), s.workers[w].id)
  {
    var h := s.workers[w];
    var t := Do(s, Move(w, Late));
    assert CallOk(s, h);
    AllCalls(s, w);
    assert t.workers == s.workers[w := Handling(h.id, h.url, Over(true))] && t.jobs == s.jobs && h.id in t.projects;
    hide Can, Do, Accounted, LeavesProject;
    AllQuit(t, h.id);
  }

  // ---------- a Dockerfile build over a project ----------

  lemma DockerfileFree(s: State, w: nat, id: string)
    requires Tidy(s, id) && w in s.workers && s.workers[w].id == id && s.workers[w].Handling? && s.workers[w].pc == Chosen(Dockerfile)
    requires JobHasProject(s, id) && Others(s, id, {w}) == {}
    ensures id !in s.containers
  {
    forall x | HandledBy(s, x, id) ensures x == w { assert x !in Others(s, id, {w}); }
  }

  lemma DockerfileBuilds(s: State, w: nat, id: string)
    requires Inv(s) && w in s.workers && s.workers[w].id == id && s.workers[w].Handling? && s.workers[w].pc == Chosen(Dockerfile)
    requires id in s.projects && Others(s, id, {w}) == {}
    ensures LeavesProject(s, id)
  {
    hide LeavesProject, GoesOn, Inv;
    if JobHasProject(s, id) {
      assert Tidy(s, id) by { InvTidy(s, id); }
      DockerfileFree(s, w, id);
      var s1 := Step(s, w, Ok, id);
      var s2 := Step(s1, w, Ok, id);
      assert s2.workers[w].pc.Built? && s2.workers[w].pc.job.mode == Dockerfile;
      OnTwice(s, s1, s2, id);
      var t := QuitCall(s2, w, id);
      OnTwice(s, s2, t, id);
      DockerfileLeft(s, t, w, id);
      LeftFrom(s, t, id);
    } else {
      OthersNone(s, w, id);
      AllQuit(s, id);
    }
  }

  lemma OthersNone(s: State, w: nat, id: string)
    requires w in s.workers && s.workers[w].Handling? && !IsUp(s.workers[w]) && Others(s, id, {w}) == {}
    ensures forall v | v in s.workers && s.workers[v].id == id :: s.workers[v].Handling? && !IsUp(s.workers[v])
  {
    forall v | v in s.workers && s.workers[v].id == id ensures v == w { assert v !in Others(s, id, {w}); }
  }

  lemma InvTidy(s: State, id: string)
    requires Inv(s)
    ensures Tidy(s, id)
  {
  }

  lemma LeftFrom(s: State, t: State, id: string)
    requires GoesOn(s, t, id) && Quiet(t, id) && !ProjectSettled(t, id)
    ensures LeavesProject(s, id)
  {
    LeftNow(t, id);
  }

  lemma DockerfileLeft(s: State, t: State, w: nat, id: string)
    requires w in s.workers && Others(s, id, {w}) == {} && t.workers == s.workers - {w}
    requires id in t.projects && id in t.jobs && t.jobs[id].mode == Dockerfile
    ensures Quiet(t, id) && !ProjectSettled(t, id)
  {
    forall v | v in t.workers ensures t.workers[v].id != id { assert v !in Others(s, id, {w}); }
  }

  lemma DockerfileLeaves(s: State, w: nat)
    requires Inv(s) && Can(s, Move(w, Use(Dockerfile))) && Accounted(s, s.workers[w].id) && Orderly(s, Move(w, Use(Dockerfile)))
    requires !Minds(s, Move(w, Use(Dockerfile)))
    ensures LeavesProject(Do(s, Move(w, Use(Dockerfile))), s.workers[w].id)
  {
    var h := s.workers[w];
    var t := Do(s, Move(w, Use(Dockerfile)));
    assert CallOk(s, h);
    AllCalls(s, w);
    assert t.workers == s.workers[w := Handling(h.id, h.url, Chosen(Dockerfile))] && h.id in t.projects;
    StepKeepsInv(s, Move(w, Use(Dockerfile)));
    hide Can, Do, Accounted, LeavesProject, Inv, Orderly, Minds;
    var u := QuitOthers(t, h.id, {w});
    assert Others(u, h.id, {w}) == {};
    DockerfileBuilds(u, w, h.id);
  }

  // ---------- a Teardown beside a compose build ----------

  predicate Alone(s: State, w: nat, v: nat, id: string) {
    && w in s.workers && v in s.workers && w != v && s.workers[w].Tearing? && s.workers[v].Handling?
    && s.workers[w].id == id && s.workers[v].id == id && Others(s, id, {w, v}) == {}
  }

  lemma BothDone(s: State, t: State, w: nat, v: nat, id: string)
    requires Alone(s, w, v, id) && t.workers.Keys == s.workers.Keys - {w, v} && forall x | x in t.workers :: t.workers[x] == s.workers[x]
    ensures Quiet(t, id)
  {
    forall x | x in t.workers ensures t.workers[x].id != id { assert x !in Others(s, id, {w, v}); }
  }

  /** The Teardown ends first; then the build registers its job. */
  lemma UpLeaves(s: State, w: nat, v: nat, id: string)
    requires Alone(s, w, v, id) && s.workers[w].stage == Loaded && s.workers[w].job.mode == Compose && IsUp(s.workers[v])
    ensures LeavesProject(s, id)
  {
    hide LeavesProject, GoesOn, Torn, Quiet;
    TornShape(s, w);
    var s1 := TearStep(s, w, id);
    TornShape(s1, w);
    var s2 := TearStep(s1, w, id);
    TornShape(s2, w);
    var s3 := TearStep(s2, w, id);
    OnTwice(s, s1, s2, id);
    OnTwice(s, s2, s3, id);
    assert v in s3.workers && s3.workers[v] == s.workers[v] && id !in s3.projects;
    var t := QuitCall(s3, v, id);
    OnTwice(s, s3, t, id);
    BothDone(s, t, w, v, id);
    LeftFrom(s, t, id);
  }

  /** The Teardown stops the project; then the build ups it and registers; then the Teardown drops the job. */
  lemma ChosenLeaves(s: State, w: nat, v: nat, id: string)
    requires Alone(s, w, v, id) && s.workers[w].stage == Loaded && s.workers[w].job.mode == Compose && s.workers[v].pc == Chosen(Compose)
    ensures LeavesProject(s, id)
  {
    hide LeavesProject, GoesOn, Torn, Quiet;
    TornShape(s, w);
    var s1 := TearStep(s, w, id);
    var s2 := Step(s1, v, Ok, id);
    OnTwice(s, s1, s2, id);
    assert s2.workers[v].pc.Built? && id in s2.projects && s2.workers[w].stage == Stopped;
    var s3 := Step(s2, v, Ok, id);
    OnTwice(s, s2, s3, id);
    assert s3.workers[v].pc == Over(true) && s3.workers[w] == s2.workers[w] && id in s3.projects;
    ChosenEnds(s, s3, w, v, id);
  }

  lemma ChosenEnds(s: State, s3: State, w: nat, v: nat, id: string)
    requires Alone(s, w, v, id) && GoesOn(s, s3, id) && id in s3.projects && s3.workers.Keys == s.workers.Keys
    requires forall x | x in s.workers && x !in {w, v} :: s3.workers[x] == s.workers[x]
    requires w in s3.workers && s3.workers[w].Tearing? && s3.workers[w].id == id && s3.workers[w].stage == Stopped
    requires v in s3.workers && s3.workers[v].Handling? && s3.workers[v].id == id && s3.workers[v].pc == Over(true)
    ensures LeavesProject(s, id)
  {
    hide LeavesProject, GoesOn, Torn, Quiet;
    TornShape(s3, w);
    var s4 := TearStep(s3, w, id);
    TornShape(s4, w);
    var s5 := TearStep(s4, w, id);
    OnTwice(s, s3, s4, id);
    OnTwice(s, s4, s5, id);
    assert v in s5.workers && s5.workers[v] == s3.workers[v] && id in s5.projects && id !in s5.jobs;
    var t := QuitCall(s5, v, id);
    OnTwice(s, s5, t, id);
    BothDone(s, t, w, v, id);
    LeftFrom(s, t, id);
  }

  lemma LoadLeaves(s: State, w: nat, id: string)
    requires Inv(s) && Accounted(s, id) && Can(s, Load(w, id)) && !Minds(s, Load(w, id))
    ensures LeavesProject(Do(s, Load(w, id)), id)
  {
    var t := Do(s, Load(w, id));
    var v :| v in s.workers && s.workers[v].id == id && Builds(s.workers[v], Compose);
    assert CallOk(s, s.workers[v]);
    AllCalls(s, v);
    InvTidy(s, id);
    assert WorkerOk(s, s.workers[v]);
    assert JobHasProject(s, id) && t.workers == s.workers[w := Tearing(id, s.jobs[id], Loaded)];
    hide Inv, Accounted, Can, Do, LeavesProject, Minds, WorkerOk, Tidy, GoesOn;
    assert forall x | x in Others(t, id, {w, v}) :: x in s.workers && t.workers[x] == s.workers[x];
    var u := QuitOthers(t, id, {w, v});
    assert Others(u, id, {w, v}) == {};
    assert Alone(u, w, v, id);
    if IsUp(u.workers[v]) { UpLeaves(u, w, v, id); } else { ChosenLeaves(u, w, v, id); }
    FromThere(t, u, id);
  }

  lemma FromThere(s: State, t: State, id: string)
    requires GoesOn(s, t, id) && LeavesProject(t, id)
    ensures LeavesProject(s, id)
  {
  }

  // ---------- exactly the steps that mind ----------

  lemma PlainMinds(s: State, a: Action)
    requires Plain(a)
    ensures Orderly(s, a) && Minds(s, a)
  {
  }

  lemma {:induction false} PlainKeeps(s: State, run: seq<Action>)
    requires ProjectInv(s) && Possible(s, run) && PlainRun(run)
    ensures ProjectInv(After(s, run))
    decreases |run|
  {
    hide ProjectInv, Can, Do, Orderly, Minds, Plain;
    if run == [] {
    } else {
      assert PlainRun(Front(run)) && Plain(Last(run));
      PlainKeeps(s, Front(run));
      PlainMinds(After(s, Front(run)), Last(run));
      StepKeepsProjects(After(s, Front(run)), Last(run));
    }
  }

  lemma AccountedLeavesNot(s: State, id: string)
    requires ProjectInv(s)
    ensures !LeavesProject(s, id)
  {
    hide ProjectInv, Quiet, ProjectSettled, Can, Do, PlainRun;
    forall run | Possible(s, run) && PlainRun(run) && Quiet(After(s, run), id) ensures ProjectSettled(After(s, run), id) {
      PlainKeeps(s, run);
      QuietProjects(After(s, run), id);
    }
  }

  lemma CarelessLeaves(s: State, a: Action)
    requires Inv(s) && ProjectInv(s) && Can(s, a) && !a.Pause? && Orderly(s, a) && !Minds(s, a)
    ensures LeavesProject(Do(s, a), IdOf(s, a))
  {
    assert Accounted(s, IdOf(s, a));
    hide Inv, ProjectInv, Accounted, LeavesProject, Do, Orderly, Minds, Offered;
    match a
    case Begin(w, id, url) => BeginMinds(s, w, id, url);
    case Load(w, id) => LoadLeaves(s, w, id);
    case Move(w, c) =>
      OnlyTwoMind(s, w, c);
      if c == Late { LateLeaves(s, w); } else { DockerfileLeaves(s, w); }
  }

  lemma BeginMinds(s: State, w: nat, id: string, url: string)
    ensures Minds(s, Begin(w, id, url))
  {
  }

  lemma OnlyTwoMind(s: State, w: nat, c: Choice)
    requires Can(s, Move(w, c)) && !Minds(s, Move(w, c))
    ensures c in {Late, Use(Dockerfile)}
  {
  }

  /** After a run that is orderly and minds the projects, an orderly step minds them exactly when the workers then
      under way cannot finish with project and job apart. */
  lemma MindsIff(s: State, run: seq<Action>, a: Action)
    requires Start(s) && s.projects == {} && Possible(s, run) && OrderlyRun(s, run) && MindingRun(s, run)
    requires Can(After(s, run), a) && Orderly(After(s, run), a) && !a.Pause?
    ensures Minds(After(s, run), a) <==> !LeavesProject(Do(After(s, run), a), IdOf(After(s, run), a))
  {
    InvAlways(s, run);
    StartProjects(s);
    ProjectInvAlong(s, run);
    hide Possible, OrderlyRun, MindingRun, LeavesProject, Inv, ProjectInv, Start, Can, Orderly, Minds, Do;
    var t := After(s, run);
    if Minds(t, a) {
      StepKeepsProjects(t, a);
      AccountedLeavesNot(Do(t, a), IdOf(t, a));
    } else {
      CarelessLeaves(t, a);
    }
  }
}
