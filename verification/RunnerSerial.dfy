/** The uninterrupted calls are runs of the steps, and two overlaps that strand something. */
module RunnerSerial {
  import opened Previews
  import opened Runners
  import opened RunnerFrames
  import opened RunnerSafety
  import opened RunnerJobs

  /** One more step of worker w. */
  lemma Step(s: State, run: seq<Action>, w: nat, c: Choice) returns (longer: seq<Action>)
    requires Possible(s, run) && Can(After(s, run), Move(w, c))
    ensures longer == run + [Move(w, c)] && Possible(s, longer) && After(s, longer) == Do(After(s, run), Move(w, c))
  {
    hide Can, Do;
    One(After(s, run), Move(w, c));
    Joined(s, run, [Move(w, c)]);
    longer := run + [Move(w, c)];
  }

  /** Every action is the given worker's. */
  predicate Only(run: seq<Action>, w: nat) {
    forall a | a in run :: (a.Begin? || a.Load? || a.Move?) && a.w == w
  }

  /** Accepting the job: the first three statements. */
  lemma Enter(s: State, w: nat, id: string, url: string) returns (run: seq<Action>)
    requires w !in s.workers && !s.paused
    ensures Only(run, w) && Possible(s, run)
    ensures After(s, run) == To(s.(inFlight := s.inFlight + 1, building := s.building + {id}), w, Handling(id, url, Listed))
  {
    hide Possible, After;
    One(s, Begin(w, id, url));
    run := [Begin(w, id, url)];
    run := Step(s, run, w, Ok);
    run := Step(s, run, w, Ok);
    assert s.workers[w := Handling(id, url, Passed)][w := Handling(id, url, Counted)][w := Handling(id, url, Listed)]
      == s.workers[w := Handling(id, url, Listed)];
  }

  function Cleaned(s: State, id: string, url: string, held: bool): State {
    s.(building := s.building - {id}, inFlight := s.inFlight - 1,
       worktrees := if held && id !in s.jobs then s.worktrees - {(url, id)} else s.worktrees)
  }

  /** The deferred function up to its counter. */
  lemma LeaveCount(s: State, w: nat, id: string, url: string, held: bool) returns (run: seq<Action>)
    requires w in s.workers && s.workers[w] == Handling(id, url, Over(held))
    ensures Only(run, w) && Possible(s, run)
    ensures var t := s.(building := s.building - {id}, inFlight := s.inFlight - 1);
      After(s, run) == if held then To(t, w, Handling(id, url, Uncounted)) else Finished(t, w)
  {
    hide Possible, After, Torn;
    One(s, Move(w, Ok));
    run := Step(s, [Move(w, Ok)], w, Ok);
  }

  /** Its clean-up of a worktree without a job. */
  lemma LeaveTree(s: State, w: nat, id: string, url: string) returns (run: seq<Action>)
    requires w in s.workers && s.workers[w] == Handling(id, url, Uncounted)
    ensures Only(run, w) && Possible(s, run)
    ensures After(s, run) == Finished(
      s.(worktrees := if id !in s.jobs then s.worktrees - {(url, id)} else s.worktrees), w)
  {
    hide Possible, After, Torn;
    One(s, Move(w, Ok));
    run := [Move(w, Ok)];
    if id !in s.jobs { run := Step(s, run, w, Ok); }
  }

  /** The deferred function. */
  lemma Leave(s: State, w: nat, id: string, url: string, held: bool) returns (run: seq<Action>)
    requires w in s.workers && s.workers[w] == Handling(id, url, Over(held))
    ensures Only(run, w) && Possible(s, run)
    ensures After(s, run) == Finished(Cleaned(s, id, url, held), w)
  {
    hide Possible, After, Handled, Torn, Offered, Can, Do;
    run := LeaveCount(s, w, id, url, held);
    if held {
      var rest := LeaveTree(After(s, run), w, id, url);
      Joined(s, run, rest);
      run := run + rest;
    }
  }

  /** Between: up to the end of the call proper. */
  function Called(s: State, w: nat, id: string, url: string, plan: Plan): State {
    var held := ChecksOut(url, plan);
    var t := s.(
      worktrees := if held then s.worktrees + {(url, id)}
        else if url != "" && plan.checkout == Late then s.worktrees - {(url, id)} else s.worktrees,
      jobs := if Succeeds(s, id, url, plan)
        then s.jobs[id := Job(url, plan.detect.value, if plan.detect.value == Compose then 0 else s.issued)] else s.jobs,
      containers := if Succeeds(s, id, url, plan) && plan.detect == Some(Dockerfile)
        then s.containers[id := s.issued] else s.containers,
      issued := if UsesContainer(s, id, url, plan) then s.issued + 1 else s.issued,
      projects := if UsesProject(url, plan) then s.projects + {id} else s.projects);
    To(t, w, Handling(id, url, Over(held)))
  }

  lemma CheckoutFails(s: State, w: nat, id: string, url: string, plan: Plan) returns (run: seq<Action>)
    requires w in s.workers && s.workers[w] == Handling(id, url, Listed) && !ChecksOut(url, plan)
    ensures Only(run, w) && Possible(s, run) && After(s, run) == Called(s, w, id, url, plan)
  {
    hide Possible, After, Torn;
    var c := if url != "" && plan.checkout == Late then Late else Fail;
    One(s, Move(w, c));
    run := [Move(w, c)];
  }

  lemma CheckoutRun(s: State, w: nat, id: string, url: string) returns (run: seq<Action>)
    requires w in s.workers && s.workers[w] == Handling(id, url, Listed) && url != ""
    ensures Only(run, w) && Possible(s, run)
    ensures After(s, run) == To(s.(worktrees := s.worktrees + {(url, id)}), w, Handling(id, url, CheckedOut))
  {
    hide Possible, After, Torn;
    One(s, Move(w, Ok));
    run := [Move(w, Ok)];
  }

  lemma DetectRun(s: State, w: nat, id: string, url: string, plan: Plan) returns (run: seq<Action>)
    requires w in s.workers && s.workers[w] == Handling(id, url, CheckedOut) && ChecksOut(url, plan)
    requires s.worktrees == s.worktrees + {(url, id)}
    ensures Only(run, w) && Possible(s, run) && After(s, run) == Called(s, w, id, url, plan)
  {
    hide Possible, After, Torn;
    if plan.detect.None? {
      One(s, Move(w, Fail));
      run := [Move(w, Fail)];
    } else {
      One(s, Move(w, Use(plan.detect.value)));
      run := [Move(w, Use(plan.detect.value))];
      var rest := ModeRun(After(s, run), w, id, url, plan);
      Joined(s, run, rest);
      run := run + rest;
    }
  }

  lemma CallRun(s: State, w: nat, id: string, url: string, plan: Plan) returns (run: seq<Action>)
    requires w in s.workers && s.workers[w] == Handling(id, url, Listed)
    ensures Only(run, w) && Possible(s, run) && After(s, run) == Called(s, w, id, url, plan)
  {
    hide Possible, After, Can, Do;
    if ChecksOut(url, plan) {
      run := CheckoutRun(s, w, id, url);
      var rest := DetectRun(After(s, run), w, id, url, plan);
      Joined(s, run, rest);
      run := run + rest;
    } else {
      run := CheckoutFails(s, w, id, url, plan);
    }
  }

  lemma ComposeRun(s: State, w: nat, id: string, url: string, plan: Plan) returns (run: seq<Action>)
    requires w in s.workers && ChecksOut(url, plan) && plan.detect == Some(Compose)
    requires s.workers[w] == Handling(id, url, Chosen(Compose)) && s.worktrees == s.worktrees + {(url, id)}
    ensures Only(run, w) && Possible(s, run) && After(s, run) == Called(s, w, id, url, plan)
  {
    hide Possible, After;
    run := [Move(w, if plan.made then Ok else if plan.partly then Late else Fail)];
    One(s, run[0]);
    if plan.made { run := Step(s, run, w, Ok); }
  }

  lemma DockerfileFails(s: State, w: nat, id: string, url: string, plan: Plan) returns (run: seq<Action>)
    requires w in s.workers && ChecksOut(url, plan) && plan.detect == Some(Dockerfile) && !Makes(s, id, plan)
    requires s.workers[w] == Handling(id, url, Chosen(Dockerfile)) && s.worktrees == s.worktrees + {(url, id)}
    ensures Only(run, w) && Possible(s, run) && After(s, run) == Called(s, w, id, url, plan)
  {
    hide Possible, After;
    One(s, Move(w, Fail));
    run := [Move(w, Fail)];
  }

  lemma DockerfileRun(s: State, w: nat, id: string, url: string, plan: Plan) returns (run: seq<Action>)
    requires w in s.workers && ChecksOut(url, plan) && plan.detect == Some(Dockerfile) && Makes(s, id, plan)
    requires s.workers[w] == Handling(id, url, Chosen(Dockerfile)) && s.worktrees == s.worktrees + {(url, id)}
    ensures Only(run, w) && Possible(s, run) && After(s, run) == Called(s, w, id, url, plan)
  {
    hide Possible, After, Torn;
    One(s, Move(w, Ok));
    run := [Move(w, Ok)];
    assert s.containers[id := s.issued] - {id} == s.containers;
    run := Step(s, run, w, if plan.started then Ok else Fail);
    run := Step(s, run, w, Ok);
  }

  lemma ModeRun(s: State, w: nat, id: string, url: string, plan: Plan) returns (run: seq<Action>)
    requires w in s.workers && ChecksOut(url, plan) && plan.detect.Some?
    requires s.workers[w] == Handling(id, url, Chosen(plan.detect.value)) && s.worktrees == s.worktrees + {(url, id)}
    ensures Only(run, w) && Possible(s, run) && After(s, run) == Called(s, w, id, url, plan)
  {
    hide Possible, After, Called;
    match plan.detect.value
    case Compose => run := ComposeRun(s, w, id, url, plan);
    case Dockerfile =>
      if Makes(s, id, plan) {
        run := DockerfileRun(s, w, id, url, plan);
      } else {
        run := DockerfileFails(s, w, id, url, plan);
      }
  }

  function Entered(s: State, w: nat, id: string, url: string): State {
    To(s.(inFlight := s.inFlight + 1, building := s.building + {id}), w, Handling(id, url, Listed))
  }

  lemma SuccessMeets(s: State, w: nat, id: string, url: string, plan: Plan)
    requires w !in s.workers && !s.paused && Succeeds(s, id, url, plan)
    ensures Finished(Cleaned(Called(Entered(s, w, id, url), w, id, url, plan), id, url, ChecksOut(url, plan)), w)
         == HandleDone(s, id, url, plan)
  {
    assert s.building + {id} - {id} == s.building - {id};
    assert s.workers[w := Handling(id, url, Listed)][w := Handling(id, url, Over(true))] - {w} == s.workers;
  }

  lemma FailureMeets(s: State, w: nat, id: string, url: string, plan: Plan)
    requires w !in s.workers && !s.paused && !Succeeds(s, id, url, plan)
    ensures Finished(Cleaned(Called(Entered(s, w, id, url), w, id, url, plan), id, url, ChecksOut(url, plan)), w)
         == HandleDone(s, id, url, plan)
  {
    assert s.building + {id} - {id} == s.building - {id};
    assert s.workers[w := Handling(id, url, Listed)][w := Handling(id, url, Over(ChecksOut(url, plan)))] - {w} == s.workers;
    assert s.worktrees + {(url, id)} - {(url, id)} == s.worktrees - {(url, id)};
  }

  lemma StagesMeet(s: State, w: nat, id: string, url: string, plan: Plan)
    requires w !in s.workers && !s.paused
    ensures Finished(Cleaned(Called(Entered(s, w, id, url), w, id, url, plan), id, url, ChecksOut(url, plan)), w)
         == HandleDone(s, id, url, plan)
  {
    hide HandleDone, Finished, Cleaned, Called, Entered, Succeeds;
    if Succeeds(s, id, url, plan) {
      SuccessMeets(s, w, id, url, plan);
    } else {
      FailureMeets(s, w, id, url, plan);
    }
  }

  /** An uninterrupted Handle is a run of one worker's steps. */
  lemma HandleIsARun(s: State, w: nat, id: string, url: string, plan: Plan) returns (run: seq<Action>)
    requires w !in s.workers && !s.paused
    ensures Only(run, w) && Possible(s, run) && After(s, run) == HandleDone(s, id, url, plan)
  {
    StagesMeet(s, w, id, url, plan);
    hide Possible, After, HandleDone, Succeeds, UsesContainer, Cleaned, Finished;
    run := Enter(s, w, id, url);
    var call := CallRun(After(s, run), w, id, url, plan);
    Joined(s, run, call);
    run := run + call;
    var leave := Leave(After(s, run), w, id, url, ChecksOut(url, plan));
    Joined(s, run, leave);
    run := run + leave;
  }

  function Stopping(s: State, id: string): State
    requires id in s.jobs
  {
    s.(containers := if s.jobs[id].mode == Compose then s.containers else Without(s, id, s.jobs[id].container),
       projects := if s.jobs[id].mode == Compose then s.projects - {id} else s.projects)
  }

  lemma StopRun(s: State, w: nat, id: string) returns (run: seq<Action>)
    requires w !in s.workers && id in s.jobs
    ensures Only(run, w) && Possible(s, run)
    ensures After(s, run) == To(Stopping(s, id), w, Tearing(id, s.jobs[id], Stopped))
  {
    hide Possible, After, Handled, Offered;
    One(s, Load(w, id));
    run := Step(s, [Load(w, id)], w, Ok);
    assert s.workers[w := Tearing(id, s.jobs[id], Loaded)][w := Tearing(id, s.jobs[id], Stopped)]
      == s.workers[w := Tearing(id, s.jobs[id], Stopped)];
  }

  lemma LoadRun(s: State, w: nat, id: string) returns (run: seq<Action>)
    requires w !in s.workers && id in s.jobs
    ensures Only(run, w) && Possible(s, run)
    ensures After(s, run) == To(TeardownDone(s, id).(jobs := s.jobs), w, Tearing(id, s.jobs[id], Dropped))
  {
    hide Possible, After, Handled, Offered;
    run := StopRun(s, w, id);
    run := Step(s, run, w, Ok);
    assert s.workers[w := Tearing(id, s.jobs[id], Stopped)][w := Tearing(id, s.jobs[id], Dropped)]
      == s.workers[w := Tearing(id, s.jobs[id], Dropped)];
  }

  lemma TeardownIsARun(s: State, w: nat, id: string) returns (run: seq<Action>)
    requires w !in s.workers && id in s.jobs
    ensures Only(run, w) && Possible(s, run) && After(s, run) == TeardownDone(s, id)
  {
    hide Possible, After;
    run := LoadRun(s, w, id);
    run := Step(s, run, w, Ok);
  }

  /** From any quiet state with a Dockerfile job: a Teardown that has removed container and worktree but not
      yet deleted the job, and a rebuild in between, leave a running container and a worktree without a job,
      which no later Teardown of the preview removes. */
  lemma OverlapStrands(s: State, id: string) returns (run: seq<Action>)
    requires Inv(s) && s.workers == map[] && !s.paused
    requires JobHasContainer(s, id) && s.jobs[id].url != ""
    ensures Possible(s, run) && After(s, run).workers == map[] && !OrderlyRun(s, run)
    ensures var t := After(s, run);
      id !in t.jobs && id in t.containers && (s.jobs[id].url, id) in t.worktrees && TeardownDone(t, id) == t
  {
    hide Possible, After, Inv, OrderlyRun;
    InvSettles(s, id);
    var url := s.jobs[id].url;
    var plan := Plan(Ok, Some(Dockerfile), true, true, false);
    run := LoadRun(s, 0, id);
    var rest := HandleIsARun(After(s, run), 1, id, url, plan);
    Joined(s, run, rest);
    run := run + rest;
    run := Step(s, run, 0, Ok);
    if OrderlyRun(s, run) {
      InvAlong(s, run);
      InvSettles(After(s, run), id);
    }
  }

  lemma BothEnter(s: State, id: string, url: string) returns (run: seq<Action>)
    requires s.workers == map[] && !s.paused
    ensures Possible(s, run)
    ensures var t := After(s, run);
      && t.workers == map[0 := Handling(id, url, Listed), 1 := Handling(id, url, Listed)]
      && t.jobs == s.jobs && t.containers == s.containers
  {
    hide Possible, After;
    run := Enter(s, 0, id, url);
    var enter := Enter(After(s, run), 1, id, url);
    Joined(s, run, enter);
    run := run + enter;
  }

  lemma BothBuild(s: State, id: string, url: string) returns (run: seq<Action>)
    requires s.workers == map[] && !s.paused && id !in s.jobs && id !in s.containers && url != ""
    ensures Possible(s, run)
    ensures var t := After(s, run);
      && t.workers == map[0 := Handling(id, url, Over(true)), 1 := Handling(id, url, Over(true))]
      && id in t.jobs && t.jobs[id].mode == Compose && id in t.containers
  {
    hide Possible, After, Can, Do;
    run := BothEnter(s, id, url);
    var call := CallRun(After(s, run), 0, id, url, Plan(Ok, Some(Dockerfile), true, true, false));
    Joined(s, run, call);
    run := run + call;
    call := CallRun(After(s, run), 1, id, url, Plan(Ok, Some(Compose), true, true, false));
    Joined(s, run, call);
    run := run + call;
  }

  /** From any quiet state without a job: two Handle calls of one preview and one repository, the first a
      Dockerfile build and the second a compose build, leave a container that no job accounts for and no later
      Teardown of the preview removes, although both calls succeed. */
  lemma TwoModesStrand(s: State, id: string, url: string) returns (run: seq<Action>)
    requires Inv(s) && s.workers == map[] && !s.paused && id !in s.jobs && url != ""
    ensures Possible(s, run) && After(s, run).workers == map[] && !OrderlyRun(s, run)
    ensures var t := After(s, run);
      id in t.jobs && t.jobs[id].mode == Compose && id in t.containers && id in TeardownDone(t, id).containers
  {
    hide Possible, After, Inv, OrderlyRun;
    InvSettles(s, id);
    run := BothBuild(s, id, url);
    var leave := Leave(After(s, run), 0, id, url, true);
    Joined(s, run, leave);
    run := run + leave;
    assert After(s, run).workers == map[1 := Handling(id, url, Over(true))];
    leave := Leave(After(s, run), 1, id, url, true);
    Joined(s, run, leave);
    run := run + leave;
    if OrderlyRun(s, run) {
      InvAlong(s, run);
      InvSettles(After(s, run), id);
    }
  }
}
