/** The agent's runner: JOB_ASSIGN and JOB_TEARDOWN handlers running side by side over the jobs map, the
    building set, the in-flight counter, the worktrees on disk, the containers in Docker and the compose projects.

    A worker is one such handler; each of its statements that touches shared state is one step.  Docker
    never reuses a container ID and allows one container per name, and the name is made from the preview
    ID, so a container is its preview ID and a serial number. */
module Runners {
  import opened Previews

  datatype Mode = Compose | Dockerfile

  /** `url` is empty for a job restored from a container found at start-up. */
  datatype Job = Job(url: string, mode: Mode, container: nat)

  /** Where a Handle call is; the value of `checkedOutWorktree` is kept as `held`. */
  datatype Pc =
    | Passed | Counted | Listed | CheckedOut | Chosen(mode: Mode) | Created(container: nat)
    | Unstarted(container: nat) | Built(job: Job)
    | Over(held: bool) | Unlisted(held: bool) | Uncounted | Dropping

  datatype Stage = Loaded | Stopped | Dropped

  datatype Worker =
    | Handling(id: string, url: string, pc: Pc)
    | Tearing(id: string, job: Job, stage: Stage)

  datatype State = State(
    paused: bool, inFlight: int, building: set<string>, jobs: map<string, Job>,
    worktrees: set<(string, string)>, containers: map<string, nat>, issued: nat, projects: set<string>,
    workers: map<nat, Worker>)

  /** How an outside call ends; `Late` is a `worktree add` that fails after the stale one was deleted, or a
      `compose up` that fails with something started. */
  datatype Choice = Ok | Fail | Late | Use(mode: Mode)

  datatype Action = Begin(w: nat, id: string, url: string) | Load(w: nat, id: string) | Move(w: nat, choice: Choice) | Pause

  // ---------- steps ----------

  predicate Offered(s: State, id: string, url: string, pc: Pc, c: Choice) {
    match pc
    case Listed => if url == "" then c == Fail else c in {Ok, Fail, Late}
    case CheckedOut => c.Use? || c == Fail
    case Chosen(Dockerfile) => c == Fail || (c == Ok && id !in s.containers)
    case Chosen(Compose) => c in {Ok, Fail, Late}
    case Created(_) => c in {Ok, Fail}
    case _ => c == Ok
  }

  predicate Can(s: State, a: Action) {
    match a
    case Begin(w, _, _) => w !in s.workers && !s.paused
    case Load(w, _) => w !in s.workers
    case Move(w, c) => w in s.workers &&
      match s.workers[w] {
        case Handling(id, url, pc) => Offered(s, id, url, pc, c)
        case Tearing(_, _, _) => c == Ok
      }
    case Pause => true
  }

  function Without(s: State, id: string, container: nat): map<string, nat> {
    if id in s.containers && s.containers[id] == container then s.containers - {id} else s.containers
  }

  function To(s: State, w: nat, to: Worker): State { s.(workers := s.workers[w := to]) }

  function Finished(s: State, w: nat): State { s.(workers := s.workers - {w}) }

  /** The runner's Handle, one statement. */
  function Handled(s: State, w: nat, id: string, url: string, pc: Pc, c: Choice): State
    requires Offered(s, id, url, pc, c)
  {
    match pc
    case Passed => To(s.(inFlight := s.inFlight + 1), w, Handling(id, url, Counted))
    case Counted => To(s.(building := s.building + {id}), w, Handling(id, url, Listed))
    case Listed =>
      if c == Ok then To(s.(worktrees := s.worktrees + {(url, id)}), w, Handling(id, url, CheckedOut))
      else if c == Late then To(s.(worktrees := s.worktrees - {(url, id)}), w, Handling(id, url, Over(false)))
      else To(s, w, Handling(id, url, Over(false)))
    case CheckedOut =>
      To(s, w, Handling(id, url, if c.Use? then Chosen(c.mode) else Over(true)))
    case Chosen(Compose) =>
      To(if c == Fail then s else s.(projects := s.projects + {id}), w,
         Handling(id, url, if c == Ok then Built(Job(url, Compose, 0)) else Over(true)))
    case Chosen(Dockerfile) =>
      if c == Ok then
        To(s.(containers := s.containers[id := s.issued], issued := s.issued + 1), w, Handling(id, url, Created(s.issued)))
      else To(s, w, Handling(id, url, Over(true)))
    case Created(n) =>
      To(s, w, Handling(id, url, if c == Ok then Built(Job(url, Dockerfile, n)) else Unstarted(n)))
    case Unstarted(n) => To(s.(containers := Without(s, id, n)), w, Handling(id, url, Over(true)))
    case Built(job) => To(s.(jobs := s.jobs[id := job]), w, Handling(id, url, Over(true)))
    case Over(held) => To(s.(building := s.building - {id}), w, Handling(id, url, Unlisted(held)))
    case Unlisted(held) =>
      var counted := s.(inFlight := s.inFlight - 1);
      if held then To(counted, w, Handling(id, url, Uncounted)) else Finished(counted, w)
    case Uncounted => if id in s.jobs then Finished(s, w) else To(s, w, Handling(id, url, Dropping))
    case Dropping => Finished(s.(worktrees := s.worktrees - {(url, id)}), w)
  }

  /** The runner's Teardown, one statement. */
  function Torn(s: State, w: nat, id: string, job: Job, stage: Stage): State {
    match stage
    case Loaded =>
      To(if job.mode == Compose then s.(projects := s.projects - {id})
         else s.(containers := Without(s, id, job.container)), w, Tearing(id, job, Stopped))
    case Stopped =>
      To(if job.url == "" then s else s.(worktrees := s.worktrees - {(job.url, id)}), w, Tearing(id, job, Dropped))
    case Dropped => Finished(s.(jobs := s.jobs - {id}), w)
  }

  function Do(s: State, a: Action): State
    requires Can(s, a)
  {
    match a
    case Begin(w, id, url) => To(s, w, Handling(id, url, Passed))
    case Load(w, id) => if id in s.jobs then To(s, w, Tearing(id, s.jobs[id], Loaded)) else s
    case Move(w, c) =>
      (match s.workers[w]
       case Handling(id, url, pc) => Handled(s, w, id, url, pc, c)
       case Tearing(id, job, stage) => Torn(s, w, id, job, stage))
    case Pause => s.(paused := true)
  }

  // ---------- orderly callers ----------

  predicate JobHasContainer(s: State, id: string) { id in s.jobs && s.jobs[id].mode == Dockerfile }

  predicate JobHasProject(s: State, id: string) { id in s.jobs && s.jobs[id].mode == Compose }

  /** The call may still register a job. */
  predicate MayRegister(h: Worker) {
    h.Handling? && h.url != "" &&
    (h.pc.Passed? || h.pc.Counted? || h.pc.Listed? || h.pc.CheckedOut? || h.pc.Chosen? || h.pc.Created? || h.pc.Built?)
  }

  predicate Builds(h: Worker, m: Mode) {
    h.Handling? && (h.pc == Chosen(m) || (h.pc.Created? && m == Dockerfile) || (h.pc.Built? && h.pc.job.mode == m))
  }

  /** The call may still make a worktree or a container. */
  predicate MayAdd(h: Worker) { MayRegister(h) && !Builds(h, Compose) }

  /** The call is over but for its clean-up, which leaves the worktree to a job registered by then. */
  predicate CleansUp(h: Worker) {
    h.Handling? && (h.pc.Unstarted? || h.pc.Uncounted? || ((h.pc.Over? || h.pc.Unlisted?) && h.pc.held))
  }

  /** A call is about to remove the worktree, whatever is registered. */
  predicate Doomed(s: State, id: string, url: string) {
    exists w | w in s.workers :: s.workers[w] == Handling(id, url, Dropping)
  }

  /** The call may end with a worktree that only a job of its own repository accounts for. */
  predicate Claims(s: State, h: Worker) {
    MayRegister(h) || (CleansUp(h) && (h.url, h.id) in s.worktrees && !Doomed(s, h.id, h.url))
  }

  /** What the callers have to see to.  A Handle may run beside others of its preview as long as all are of
      one repository, but not beside a Teardown that found its job; a Teardown may find the job while Handle
      calls are in their clean-up; and builds of one preview in two modes do not overlap, nor does a compose
      build follow a Dockerfile job. */
  predicate Orderly(s: State, a: Action) {
    match a
    case Begin(_, id, url) =>
      url == "" ||
      ((id in s.jobs ==> s.jobs[id].url == url) &&
       forall v | v in s.workers && s.workers[v].id == id ::
         s.workers[v].Handling? && (Claims(s, s.workers[v]) ==> s.workers[v].url == url))
    case Load(_, id) => id in s.jobs ==> forall v | v in s.workers && s.workers[v].id == id :: !MayAdd(s.workers[v])
    case Move(w, c) => c.Use? && w in s.workers ==>
      && (c.mode == Compose ==> !JobHasContainer(s, s.workers[w].id))
      && (forall v | v in s.workers && v != w && s.workers[v].id == s.workers[w].id ::
            !Builds(s.workers[v], if c.mode == Compose then Dockerfile else Compose))
    case Pause => true
  }

  predicate Possible(s: State, run: seq<Action>)
    decreases |run|, 0
  {
    run == [] || (Possible(s, Front(run)) && Can(After(s, Front(run)), Last(run)))
  }

  function After(s: State, run: seq<Action>): State
    requires Possible(s, run)
    decreases |run|, 1
  {
    if run == [] then s else Do(After(s, Front(run)), Last(run))
  }

  predicate OrderlyRun(s: State, run: seq<Action>)
    requires Possible(s, run)
  {
    run == [] || (OrderlyRun(s, Front(run)) && Orderly(After(s, Front(run)), Last(run)))
  }

  /** A fresh process: every job was restored from a container that is still there. */
  predicate Start(s: State) {
    && !s.paused && s.inFlight == 0 && s.building == {} && s.worktrees == {} && s.workers == map[]
    && s.jobs.Keys == s.containers.Keys
    && forall id | id in s.jobs :: s.jobs[id] == Job("", Dockerfile, s.containers[id]) && s.containers[id] < s.issued
  }
}
