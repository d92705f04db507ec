/** The runner as an object, one call at a time, and what a call from start to end comes to. */
module RunnerJobs {
  import opened Previews
  import opened Runners
  import opened RunnerCounts
  import opened RunnerFrames
  import opened RunnerProjects
  import opened RunnerSafety
  import Sets

  /** How the outside calls of one Handle end: the checkout, the build file found, the image build and the
      creation of the container (or `compose up`), the start of the container, and whether a failed
      `compose up` has started something. */
  datatype Plan = Plan(checkout: Choice, detect: Option<Mode>, made: bool, started: bool, partly: bool)

  predicate ChecksOut(url: string, plan: Plan) { url != "" && plan.checkout == Ok }

  /** The name of the container is still free and Docker makes it. */
  predicate Makes(s: State, id: string, plan: Plan) { plan.made && id !in s.containers }

  predicate Succeeds(s: State, id: string, url: string, plan: Plan) {
    ChecksOut(url, plan) && plan.detect.Some? &&
    match plan.detect.value {
      case Compose => plan.made
      case Dockerfile => Makes(s, id, plan) && plan.started
    }
  }

  predicate UsesContainer(s: State, id: string, url: string, plan: Plan) {
    ChecksOut(url, plan) && plan.detect == Some(Dockerfile) && Makes(s, id, plan)
  }

  predicate UsesProject(url: string, plan: Plan) {
    ChecksOut(url, plan) && plan.detect == Some(Compose) && (plan.made || plan.partly)
  }

  /** The state one uninterrupted Handle leaves. */
  function HandleDone(s: State, id: string, url: string, plan: Plan): State {
    if s.paused then s else Unmarked(s.(building := s.building - {id}), id, url, plan)
  }

  function Unmarked(s: State, id: string, url: string, plan: Plan): State {
    if Succeeds(s, id, url, plan) then
      var job := Job(url, plan.detect.value, if plan.detect.value == Compose then 0 else s.issued);
      var t := s.(worktrees := s.worktrees + {(url, id)}, jobs := s.jobs[id := job]);
      if job.mode == Compose then t.(projects := s.projects + {id}) else t.(containers := s.containers[id := s.issued], issued := s.issued + 1)
    else
      var t := if UsesContainer(s, id, url, plan) then s.(issued := s.issued + 1)
        else if UsesProject(url, plan) then s.(projects := s.projects + {id}) else s;
      if ChecksOut(url, plan) then
        t.(worktrees := if id in s.jobs then s.worktrees + {(url, id)} else s.worktrees - {(url, id)})
      else if url != "" && plan.checkout == Late then t.(worktrees := s.worktrees - {(url, id)})
      else t
  }

  /** It, and when it is a success, thing by thing. */
  lemma HandleMeans(s: State, id: string, url: string, plan: Plan)
    ensures ChecksOut(url, plan) <==> url != "" && plan.checkout == Ok
    ensures Succeeds(s, id, url, plan) <==>
      && url != "" && plan.checkout == Ok && plan.detect.Some? && plan.made
      && (plan.detect == Some(Dockerfile) ==> plan.started && id !in s.containers)
    ensures var t := HandleDone(s, id, url, plan);
      if s.paused then t == s
      else if url == "" || plan.checkout != Ok then
        // at most the stale worktree is gone
        t == s.(building := s.building - {id},
                worktrees := s.worktrees - if url != "" && plan.checkout == Late then {(url, id)} else {})
      else if !Succeeds(s, id, url, plan) then
        // the worktree is left to a registered job, or removed; a container is removed, a half-started project is not
        && t == s.(building := s.building - {id}, worktrees := t.worktrees, projects := t.projects, issued := t.issued)
        && t.worktrees == (if id in s.jobs then s.worktrees + {(url, id)} else s.worktrees - {(url, id)})
        && t.projects == s.projects + (if plan.detect == Some(Compose) && plan.partly then {id} else {})
        && t.issued == s.issued + (if plan.detect == Some(Dockerfile) && plan.made && id !in s.containers then 1 else 0)
      else if plan.detect == Some(Compose) then
        t == s.(building := s.building - {id}, worktrees := s.worktrees + {(url, id)}, projects := s.projects + {id},
                jobs := s.jobs[id := Job(url, Compose, 0)])
      else
        t == s.(building := s.building - {id}, worktrees := s.worktrees + {(url, id)}, issued := s.issued + 1,
                containers := s.containers[id := s.issued], jobs := s.jobs[id := Job(url, Dockerfile, s.issued)])
  {
    assert s.worktrees - {} == s.worktrees && s.projects + {} == s.projects;
  }

  /** The state one uninterrupted Teardown leaves. */
  function TeardownDone(s: State, id: string): State {
    if id !in s.jobs then s
    else
      var job := s.jobs[id];
      s.(jobs := s.jobs - {id},
         projects := if job.mode == Compose then s.projects - {id} else s.projects,
         containers := if job.mode == Compose then s.containers else Without(s, id, job.container),
         worktrees := if job.url == "" then s.worktrees else s.worktrees - {(job.url, id)})
  }

  /** The old worktree of a preview that moves to another repository, a worktree made for a job of another
      repository, and the container under a compose job are what a later Teardown would not remove. */
  predicate Strays(s: State, id: string, url: string, plan: Plan) {
    !s.paused && id in s.jobs && ChecksOut(url, plan) &&
    (if Succeeds(s, id, url, plan) then
       (s.jobs[id].url != url && (s.jobs[id].url, id) in s.worktrees) ||
       (plan.detect == Some(Compose) && s.jobs[id].mode == Dockerfile)
     else s.jobs[id].url != url)
  }

  lemma SuccessSettlesIff(s: State, id: string, url: string, plan: Plan)
    requires Settled(s, id) && !s.paused && Succeeds(s, id, url, plan)
    ensures Settled(HandleDone(s, id, url, plan), id) <==> !Strays(s, id, url, plan)
  {
    var t := HandleDone(s, id, url, plan);
    if id in s.jobs && s.jobs[id].url != url && (s.jobs[id].url, id) in s.worktrees {
      assert (s.jobs[id].url, id) in t.worktrees;
    }
  }

  lemma FailureSettlesIff(s: State, id: string, url: string, plan: Plan)
    requires Settled(s, id) && (s.paused || !Succeeds(s, id, url, plan))
    ensures Settled(HandleDone(s, id, url, plan), id) <==> !Strays(s, id, url, plan)
  {
    var t := HandleDone(s, id, url, plan);
    if Strays(s, id, url, plan) { assert (url, id) in t.worktrees; }
  }

  /** Exactly when an undisturbed Handle leaves everything in a later Teardown's reach. */
  lemma HandleSettlesIff(s: State, id: string, url: string, plan: Plan)
    requires Settled(s, id)
    ensures Settled(HandleDone(s, id, url, plan), id) <==> !Strays(s, id, url, plan)
  {
    hide Settled, HandleDone, Strays, Succeeds;
    if !s.paused && Succeeds(s, id, url, plan) {
      SuccessSettlesIff(s, id, url, plan);
    } else {
      FailureSettlesIff(s, id, url, plan);
    }
  }

  /** Knowing only the state: a Handle leaves everything in reach however its outside calls end, exactly when it
      is refused, has no repository, meets no job, or meets a compose job of the same repository. */
  lemma HandleAlwaysSettlesIff(s: State, id: string, url: string)
    requires Settled(s, id)
    ensures (forall plan :: Settled(HandleDone(s, id, url, plan), id))
      <==> s.paused || url == "" || id !in s.jobs || (s.jobs[id].url == url && s.jobs[id].mode == Compose)
  {
    hide Settled, HandleDone;
    forall plan ensures Settled(HandleDone(s, id, url, plan), id) <==> !Strays(s, id, url, plan) {
      HandleSettlesIff(s, id, url, plan);
    }
    if !s.paused && url != "" && id in s.jobs {
      var fails, composes := Plan(Ok, None, false, false, false), Plan(Ok, Some(Compose), true, true, false);
      assert s.jobs[id].url != url ==> Strays(s, id, url, fails) && !Settled(HandleDone(s, id, url, fails), id);
      assert s.jobs[id].mode == Dockerfile ==> Strays(s, id, url, composes) && !Settled(HandleDone(s, id, url, composes), id);
      if s.jobs[id].url == url && s.jobs[id].mode == Compose {
        forall plan ensures Settled(HandleDone(s, id, url, plan), id) { assert !Strays(s, id, url, plan); }
      }
    }
  }

  ghost predicate Absent(s: State, id: string) {
    id !in s.jobs && id !in s.containers && id !in s.projects && forall url :: (url, id) !in s.worktrees
  }

  // ---------- compose projects ----------

  predicate FailsPartly(s: State, url: string, plan: Plan) {
    !s.paused && ChecksOut(url, plan) && plan.detect == Some(Compose) && !plan.made && plan.partly
  }

  /** An undisturbed Handle leaves a project that no Teardown takes down exactly when a `compose up` fails with
      something started and the registered job is no compose job, or when a Dockerfile build succeeds over a
      compose job. */
  lemma ProjectSettlesIff(s: State, id: string, url: string, plan: Plan)
    requires ProjectSettled(s, id)
    ensures var composed := JobHasProject(s, id);
      ProjectSettled(HandleDone(s, id, url, plan), id) <==>
        !(FailsPartly(s, url, plan) && !composed) &&
        !(!s.paused && composed && Succeeds(s, id, url, plan) && plan.detect == Some(Dockerfile))
  {
  }

  /** Nothing is there, the `compose up` of a first build fails half-way: its project stays, and no Teardown
      takes it down. */
  lemma FailedUpLeavesProject(s: State, id: string, url: string)
    requires Absent(s, id) && !s.paused && url != ""
    ensures var t := HandleDone(s, id, url, Plan(Ok, Some(Compose), false, false, true));
      id in t.projects && id !in t.jobs && TeardownDone(t, id) == t
  {
  }

  /** Knowing only the state: no outcome of the outside calls leaves one exactly when the call is refused, has no
      repository, or meets a compose job while the container name is taken. */
  lemma ProjectAlwaysSettlesIff(s: State, id: string, url: string)
    requires ProjectSettled(s, id)
    ensures (forall plan :: ProjectSettled(HandleDone(s, id, url, plan), id))
      <==> s.paused || url == "" || (JobHasProject(s, id) && id in s.containers)
  {
    var partly, dockerfile := Plan(Ok, Some(Compose), false, false, true), Plan(Ok, Some(Dockerfile), true, true, false);
    hide HandleDone, ProjectSettled;
    forall plan {:trigger HandleDone(s, id, url, plan)} ensures var composed := JobHasProject(s, id);
      ProjectSettled(HandleDone(s, id, url, plan), id) <==>
        !(FailsPartly(s, url, plan) && !composed) &&
        !(!s.paused && composed && Succeeds(s, id, url, plan) && plan.detect == Some(Dockerfile))
    {
      ProjectSettlesIff(s, id, url, plan);
    }
    if !s.paused && url != "" {
      assert FailsPartly(s, url, partly);
      assert id !in s.containers ==> Succeeds(s, id, url, dockerfile);
      assert ProjectSettled(HandleDone(s, id, url, partly), id) ==> JobHasProject(s, id);
      assert ProjectSettled(HandleDone(s, id, url, dockerfile), id) ==> !(JobHasProject(s, id) && id !in s.containers);
    }
  }

  /** A Teardown from there leaves nothing of the preview, and touches no other preview. */
  lemma TeardownClears(s: State, id: string)
    requires Settled(s, id) && forall url | (url, id) in s.worktrees :: url != ""
    ensures var t := TeardownDone(s, id);
      && (ProjectSettled(s, id) ==> id !in t.projects)
      && id !in t.jobs && id !in t.building && id !in t.containers && (forall url :: (url, id) !in t.worktrees)
      && (forall other | other != id :: SameThings(s, t, other))
  {
  }

  lemma Restored(s: State, id: string, url: string, plan: Plan)
    requires Absent(s, id) && id !in s.building
    ensures var t := TeardownDone(HandleDone(s, id, url, plan), id);
      t == s.(issued := t.issued, projects := t.projects) && s.issued <= t.issued <= s.issued + 1
  {
    var h := HandleDone(s, id, url, plan);
    assert s.worktrees + {(url, id)} - {(url, id)} == s.worktrees;
    assert s.worktrees - {(url, id)} == s.worktrees;
    assert s.building - {id} == s.building;
    if id in h.jobs {
      assert h.jobs - {id} == s.jobs;
      assert s.containers[id := s.issued] - {id} == s.containers;
    }
  }

  lemma ProjectsRestored(s: State, id: string, url: string, plan: Plan)
    requires Absent(s, id)
    ensures var t := TeardownDone(HandleDone(s, id, url, plan), id);
      t.projects == s.projects <==> !FailsPartly(s, url, plan)
  {
    if id in HandleDone(s, id, url, plan).jobs {
      assert s.projects + {id} - {id} == s.projects && s.projects - {id} == s.projects;
    }
  }

  /** Handle, whatever happens in it, and then Teardown: everything is as before but the container numbering,
      the compose projects exactly unless a `compose up` failed with something started. */
  lemma TeardownUndoesHandle(s: State, id: string, url: string, plan: Plan)
    requires Absent(s, id) && id !in s.building
    ensures var t := TeardownDone(HandleDone(s, id, url, plan), id);
      t == s.(issued := t.issued, projects := t.projects) && s.issued <= t.issued <= s.issued + 1
    ensures var t := TeardownDone(HandleDone(s, id, url, plan), id);
      t.projects == s.projects <==> !FailsPartly(s, url, plan)
  {
    Restored(s, id, url, plan);
    ProjectsRestored(s, id, url, plan);
    hide TeardownDone, HandleDone, Absent, FailsPartly;
  }

  // ---------- the object ----------

  class Runner {
    var paused: bool
    var inFlight: int
    var building: set<string>
    var jobs: map<string, Job>
    var worktrees: set<(string, string)>
    var containers: map<string, nat>
    var issued: nat
    var projects: set<string>

    function Snapshot(): State
      reads this
    {
      State(paused, inFlight, building, jobs, worktrees, containers, issued, projects, map[])
    }

    method Pause()
      modifies this
      ensures Snapshot() == old(Snapshot()).(paused := true)
    {
      paused := true;
    }

    method RegisterRestoredJob(id: string, container: nat)
      modifies this
      ensures Snapshot() == old(Snapshot()).(jobs := old(jobs)[id := Job("", Dockerfile, container)])
    {
      jobs := jobs[id := Job("", Dockerfile, container)];
    }

    /** At start-up: every labelled container found becomes a job again, and its preview is reported. */
    method RestoreOrphans() returns (ids: seq<string>)
      modifies this
      ensures forall id :: id in ids <==> id in containers
      ensures Snapshot() == old(Snapshot()).(jobs := old(jobs) + map id | id in containers :: Job("", Dockerfile, containers[id]))
      ensures old(IsFresh()) ==> Start(Snapshot())
    {
      ids := Sets.Collect(containers.Keys);
      ghost var restored := map id | id in containers :: Job("", Dockerfile, containers[id]);
      for i := 0 to |ids|
        invariant Snapshot() == old(Snapshot()).(jobs := jobs)
        invariant jobs.Keys == old(jobs).Keys + Sets.Firsts(ids, i)
        invariant forall id | id in jobs :: jobs[id] == if id in Sets.Firsts(ids, i) then restored[id] else old(jobs)[id]
      {
        Sets.NextFirst(ids, i);
        assert ids[i] in ids;
        RegisterRestoredJob(ids[i], containers[ids[i]]);
      }
      assert Sets.Firsts(ids, |ids|) == containers.Keys;
      assert jobs == old(jobs) + restored;
    }

    /** A process that has just started; Docker's container numbers are all given out. */
    predicate IsFresh()
      reads this
    {
      !paused && inFlight == 0 && building == {} && jobs == map[] && worktrees == {} &&
      forall id | id in containers :: containers[id] < issued
    }

    /** The jobs first, then what is only being built; no preview twice. */
    method RunningPreviewIDs() returns (ids: seq<string>)
      ensures forall id :: id in ids <==> id in RunningIds(Snapshot())
      ensures forall id :: id in ids <==> id in jobs || id in building
      ensures forall i, j | 0 <= i < j < |ids| :: ids[i] != ids[j]
    {
      var seen := {};
      var registered := Sets.Collect(jobs.Keys);
      for i := 0 to |registered|
        invariant seen == Sets.Firsts(registered, i)
      {
        Sets.NextFirst(registered, i);
        seen := seen + {registered[i]};
      }
      var listed := Sets.Collect(building);
      for i := 0 to |listed|
        invariant seen == Sets.Firsts(registered, |registered|) + Sets.Firsts(listed, i)
      {
        Sets.NextFirst(listed, i);
        seen := seen + {listed[i]};
      }
      assert seen == jobs.Keys + building;
      ids := Sets.Collect(seen);
    }

    /** From the image build to a started container; a container that does not start is removed. */
    method HandleDockerfile(id: string, plan: Plan) returns (container: Option<nat>)
      modifies this`containers, this`issued
      ensures container == if Makes(old(Snapshot()), id, plan) && plan.started then Some(old(issued)) else None
      ensures container.Some? <==> plan.made && plan.started && id !in old(containers)
      ensures containers == if container.Some? then old(containers)[id := old(issued)] else old(containers)
      ensures issued == old(issued) + if Makes(old(Snapshot()), id, plan) then 1 else 0
    {
      if !plan.made || id in containers { return None; }
      var made := issued;
      containers := containers[id := made];
      issued := issued + 1;
      if !plan.started {
        if id in containers && containers[id] == made { containers := containers - {id}; }
        return None;
      }
      container := Some(made);
    }

    /** Up to the registration of the job; `held` is whether a worktree was checked out. */
    method Build(id: string, url: string, plan: Plan) returns (sent: seq<Status>, held: bool)
      modifies this`jobs, this`worktrees, this`containers, this`issued, this`projects
      ensures held == ChecksOut(url, plan)
      ensures projects == if UsesProject(url, plan) then old(projects) + {id} else old(projects)
      ensures sent == (if held then [Building] else []) + [if Succeeds(old(Snapshot()), id, url, plan) then Running else Failed]
      ensures worktrees == if held then old(worktrees) + {(url, id)}
        else if url != "" && plan.checkout == Late then old(worktrees) - {(url, id)} else old(worktrees)
      ensures jobs == if Succeeds(old(Snapshot()), id, url, plan)
        then old(jobs)[id := Job(url, plan.detect.value, if plan.detect.value == Compose then 0 else old(issued))] else old(jobs)
      ensures containers == if Succeeds(old(Snapshot()), id, url, plan) && plan.detect == Some(Dockerfile)
        then old(containers)[id := old(issued)] else old(containers)
      ensures issued == old(issued) + if UsesContainer(old(Snapshot()), id, url, plan) then 1 else 0
    {
      held := false;
      if url == "" { return [Failed], held; }
      if plan.checkout == Late { worktrees := worktrees - {(url, id)}; }
      if plan.checkout != Ok { return [Failed], held; }
      worktrees := worktrees + {(url, id)};
      held := true;
      sent := [Building];
      if plan.detect.None? { return sent + [Failed], held; }
      var container := 0;
      match plan.detect.value {
        case Compose =>
          if plan.made || plan.partly { projects := projects + {id}; }
          if !plan.made { return sent + [Failed], held; }
        case Dockerfile =>
          var created := HandleDockerfile(id, plan);
          if created.None? { return sent + [Failed], held; }
          container := created.value;
      }
      jobs := jobs[id := Job(url, plan.detect.value, container)];
      sent := sent + [Running];
    }

    /** `sent` lists the statuses reported to the hub, in order. */
    method Handle(id: string, url: string, plan: Plan) returns (sent: seq<Status>)
      modifies this
      ensures Snapshot() == HandleDone(old(Snapshot()), id, url, plan)
      ensures sent == if old(paused) then [Failed]
        else [Building] + (if ChecksOut(url, plan) then [Building] else []) +
             [if Succeeds(old(Snapshot()), id, url, plan) then Running else Failed]
    {
      if paused { return [Failed]; }
      inFlight := inFlight + 1;
      building := building + {id};
      sent := [Building];
      var more, held := Build(id, url, plan);
      sent := sent + more;
      building := building - {id};
      assert building == old(building) - {id};
      inFlight := inFlight - 1;
      if held {
        if id !in jobs { worktrees := worktrees - {(url, id)}; }
      }
      assert old(worktrees) + {(url, id)} - {(url, id)} == old(worktrees) - {(url, id)};
    }

    method TeardownJob(id: string) returns (sent: seq<Status>)
      modifies this
      ensures Snapshot() == TeardownDone(old(Snapshot()), id)
      ensures sent == [Done]
      ensures id !in old(jobs) ==> Snapshot() == old(Snapshot())
      ensures id in old(jobs) ==>
        var job := old(jobs)[id];
        && jobs == old(jobs) - {id} && building == old(building) && inFlight == old(inFlight) && paused == old(paused)
        && projects == old(projects) - (if job.mode == Compose then {id} else {})
        && containers == old(containers) -
             (if job.mode == Dockerfile && id in old(containers) && old(containers)[id] == job.container then {id} else {})
        && worktrees == old(worktrees) - (if job.url != "" then {(job.url, id)} else {})
    {
      sent := [Done];
      if id !in jobs { return; }
      var job := jobs[id];
      if job.mode == Compose {
        projects := projects - {id};
      } else {
        if id in containers && containers[id] == job.container { containers := containers - {id}; }
      }
      if job.url != "" { worktrees := worktrees - {(job.url, id)}; }
      jobs := jobs - {id};
    }
  }
}
