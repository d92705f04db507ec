/** Who owns each worktree and container, in every interleaving that orderly callers allow. */
module RunnerSafety {
  import opened Previews
  import opened Runners
  import opened RunnerFrames

  // ---------- the invariant ----------

  /** The container a call has made and not yet registered or removed, or -1. */
  function NumberOf(h: Worker): int {
    if h.Tearing? then -1
    else if h.pc.Created? || h.pc.Unstarted? then h.pc.container
    else if h.pc.Built? && h.pc.job.mode == Dockerfile then h.pc.job.container
    else -1
  }

  ghost predicate WorkerOk(s: State, h: Worker) {
    var id := h.id;
    match h
    case Handling(_, url, pc) =>
      && (HasTree(pc) ==> url != "")
      && (Claims(s, h) && id in s.jobs ==> s.jobs[id].url == url)
      && NumberOf(h) < s.issued
      && (JobHasContainer(s, id) ==> s.jobs[id].container != NumberOf(h))
      && (Builds(h, Dockerfile) && NumberOf(h) >= 0 ==> id in s.containers && s.containers[id] == NumberOf(h))
      && (pc.Built? ==> pc.job.url == url)
      && (Builds(h, Compose) ==> !JobHasContainer(s, id))
    case Tearing(_, job, stage) =>
      && (id in s.jobs ==> s.jobs[id].url == job.url && s.jobs[id].mode == job.mode)
      && (JobHasContainer(s, id) ==> s.jobs[id].container == job.container)
      && (stage != Loaded && JobHasContainer(s, id) && id in s.containers ==> s.containers[id] != job.container)
      && (stage == Dropped || id !in s.jobs ==> forall u | (u, id) in s.worktrees :: Doomed(s, id, u))
  }

  /** Two workers of one preview. */
  predicate PairOk(s: State, a: Worker, b: Worker) {
    && (NumberOf(a) == NumberOf(b) ==> NumberOf(a) == -1)
    && !(Builds(a, Compose) && Builds(b, Dockerfile))
    && (a.Tearing? ==> !MayAdd(b) && (MayRegister(b) ==> b.url == a.job.url && a.job.mode == Compose))
    && (Claims(s, a) && Claims(s, b) ==> a.url == b.url)
  }

  ghost predicate TreeOwned(s: State, url: string, id: string) {
    (id in s.jobs && s.jobs[id].url == url) ||
    exists w :: HandledBy(s, w, id) && s.workers[w].url == url && HasTree(s.workers[w].pc)
  }

  predicate JobOwns(s: State, id: string) {
    JobHasContainer(s, id) && id in s.containers && s.jobs[id].container == s.containers[id]
  }

  ghost predicate ContainerOwned(s: State, id: string) {
    id in s.containers ==>
      JobOwns(s, id) || exists w :: HandledBy(s, w, id) && NumberOf(s.workers[w]) == s.containers[id]
  }

  ghost predicate ContainerKept(s: State, id: string) {
    JobHasContainer(s, id) ==>
      JobOwns(s, id) ||
      exists w :: w in s.workers && s.workers[w].Tearing? && s.workers[w].id == id && s.workers[w].stage != Loaded
  }

  ghost predicate MarkOwned(s: State, id: string) {
    id in s.building ==> exists w :: HandledBy(s, w, id) && InBuilding(s.workers[w].pc)
  }

  ghost predicate WorkersOk(s: State, id: string) {
    forall w | w in s.workers && s.workers[w].id == id :: WorkerOk(s, s.workers[w])
  }

  ghost predicate PairsOk(s: State, id: string) {
    forall v, w | v in s.workers && w in s.workers && v != w && s.workers[v].id == id && s.workers[w].id == id ::
      PairOk(s, s.workers[v], s.workers[w])
  }

  ghost predicate TreesOwned(s: State, id: string) {
    forall url | (url, id) in s.worktrees :: url != "" && TreeOwned(s, url, id)
  }

  predicate NumbersOld(s: State, id: string) {
    (id in s.containers ==> s.containers[id] < s.issued) &&
    (JobHasContainer(s, id) ==> s.jobs[id].container < s.issued)
  }

  ghost predicate Tidy(s: State, id: string) {
    && WorkersOk(s, id) && PairsOk(s, id) && TreesOwned(s, id)
    && ContainerOwned(s, id) && ContainerKept(s, id) && MarkOwned(s, id) && NumbersOld(s, id)
  }

  ghost predicate Inv(s: State) { forall id: string :: Tidy(s, id) }

  // ---------- one statement of a Handle ----------

  /** Where the call goes next, or None when it is done. */
  function NextPc(s: State, id: string, url: string, pc: Pc, c: Choice): Option<Pc>
    requires Offered(s, id, url, pc, c)
  {
    match pc
    case Passed => Some(Counted)
    case Counted => Some(Listed)
    case Listed => Some(if c == Ok then CheckedOut else Over(false))
    case CheckedOut => Some(if c.Use? then Chosen(c.mode) else Over(true))
    case Chosen(Compose) => Some(if c == Ok then Built(Job(url, Compose, 0)) else Over(true))
    case Chosen(Dockerfile) => Some(if c == Ok then Created(s.issued) else Over(true))
    case Created(n) => Some(if c == Ok then Built(Job(url, Dockerfile, n)) else Unstarted(n))
    case Unstarted(_) => Some(Over(true))
    case Built(_) => Some(Over(true))
    case Over(held) => Some(Unlisted(held))
    case Unlisted(held) => if held then Some(Uncounted) else None
    case Uncounted => if id in s.jobs then None else Some(Dropping)
    case Dropping => None
  }

  predicate MakesContainer(pc: Pc, c: Choice) { pc == Chosen(Dockerfile) && c == Ok }

  /** The statement in one look: workers, jobs, worktrees, containers, marks. */
  ghost predicate Delta(s: State, t: State, w: nat, id: string, url: string, pc: Pc, c: Choice)
    requires Offered(s, id, url, pc, c)
  {
    && t.workers == (if NextPc(s, id, url, pc, c).Some? then s.workers[w := Handling(id, url, NextPc(s, id, url, pc, c).value)]
                     else s.workers - {w})
    && t.jobs == (if pc.Built? then s.jobs[id := pc.job] else s.jobs)
    && t.worktrees == (if pc.Listed? && c == Ok then s.worktrees + {(url, id)}
                       else if (pc.Listed? && c == Late) || pc.Dropping? then s.worktrees - {(url, id)} else s.worktrees)
    && t.containers == (if MakesContainer(pc, c) then s.containers[id := s.issued]
                        else if pc.Unstarted? then Without(s, id, pc.container) else s.containers)
    && t.issued == (if MakesContainer(pc, c) then s.issued + 1 else s.issued)
    && t.building == (if pc.Counted? then s.building + {id} else if pc.Over? then s.building - {id} else s.building)
  }

  lemma DeltaMakes(s: State, w: nat, id: string, url: string, pc: Pc, c: Choice)
    requires Offered(s, id, url, pc, c) && (pc.Listed? || pc.CheckedOut? || pc.Chosen? || pc.Created?)
    ensures Delta(s, Handled(s, w, id, url, pc, c), w, id, url, pc, c)
  {
  }

  lemma DeltaMarks(s: State, w: nat, id: string, url: string, pc: Pc, c: Choice)
    requires Offered(s, id, url, pc, c) && (pc.Passed? || pc.Counted? || pc.Unstarted? || pc.Built?)
    ensures Delta(s, Handled(s, w, id, url, pc, c), w, id, url, pc, c)
  {
  }

  lemma DeltaLeaves(s: State, w: nat, id: string, url: string, pc: Pc, c: Choice)
    requires Offered(s, id, url, pc, c) && (pc.Over? || pc.Unlisted? || pc.Uncounted? || pc.Dropping?)
    ensures Delta(s, Handled(s, w, id, url, pc, c), w, id, url, pc, c)
  {
  }

  lemma HandledDelta(s: State, w: nat, id: string, url: string, pc: Pc, c: Choice)
    requires Offered(s, id, url, pc, c)
    ensures Delta(s, Handled(s, w, id, url, pc, c), w, id, url, pc, c)
  {
    hide Delta, Handled, Offered;
    if pc.Listed? || pc.CheckedOut? || pc.Chosen? || pc.Created? {
      DeltaMakes(s, w, id, url, pc, c);
    } else if pc.Passed? || pc.Counted? || pc.Unstarted? || pc.Built? {
      DeltaMarks(s, w, id, url, pc, c);
    } else {
      DeltaLeaves(s, w, id, url, pc, c);
    }
  }

  /** A doomed worktree stays doomed until it is gone. */
  lemma DoomStays(s: State, t: State, w: nat, id: string, url: string, pc: Pc, c: Choice, u: string)
    requires Offered(s, id, url, pc, c) && Delta(s, t, w, id, url, pc, c)
    requires w in s.workers && s.workers[w] == Handling(id, url, pc)
    ensures Doomed(s, id, u) && (u, id) in t.worktrees ==> Doomed(t, id, u)
  {
    hide NextPc, Without;
    if Doomed(s, id, u) && (u, id) in t.worktrees {
      var x :| x in s.workers && s.workers[x] == Handling(id, u, Dropping);
      assert x != w ==> x in t.workers && t.workers[x] == s.workers[x];
    }
  }

  /** A call that claims a worktree claimed it before. */
  lemma ClaimsGoBack(s: State, t: State, w: nat, id: string, url: string, pc: Pc, c: Choice)
    requires Offered(s, id, url, pc, c) && Delta(s, t, w, id, url, pc, c)
    requires w in s.workers && s.workers[w] == Handling(id, url, pc)
    requires HasTree(pc) ==> url != ""
    ensures w in t.workers && Claims(t, t.workers[w]) ==> Claims(s, s.workers[w])
  {
    DoomStays(s, t, w, id, url, pc, c, url);
    hide Doomed, Without;
  }

  /** Another call that claims a worktree claimed it before, or the acting call has just made it. */
  lemma OthersClaimsGoBack(s: State, t: State, w: nat, id: string, url: string, pc: Pc, c: Choice, b: nat)
    requires Offered(s, id, url, pc, c) && Delta(s, t, w, id, url, pc, c)
    requires w in s.workers && s.workers[w] == Handling(id, url, pc)
    requires b in s.workers && b != w && s.workers[b].id == id
    ensures Claims(t, s.workers[b]) ==>
      Claims(s, s.workers[b]) || (Claims(s, s.workers[w]) && s.workers[b].Handling? && s.workers[b].url == url)
  {
    if s.workers[b].Handling? { DoomStays(s, t, w, id, url, pc, c, s.workers[b].url); }
    hide Doomed, Without, NextPc;
  }

  // ---------- the invariant after it ----------

  predicate CanUse(s: State, w: nat, id: string, c: Choice) {
    c.Use? ==>
      && (c.mode == Compose ==> !JobHasContainer(s, id))
      && (forall v | v in s.workers && v != w && s.workers[v].id == id ::
            !Builds(s.workers[v], if c.mode == Compose then Dockerfile else Compose))
  }

  lemma OwnWorkerOk(s: State, t: State, w: nat, id: string, url: string, pc: Pc, c: Choice)
    requires Offered(s, id, url, pc, c) && Delta(s, t, w, id, url, pc, c)
    requires w in s.workers && s.workers[w] == Handling(id, url, pc)
    requires WorkerOk(s, s.workers[w]) && NumbersOld(s, id) && CanUse(s, w, id, c) && w in t.workers
    ensures WorkerOk(t, t.workers[w])
  {
    ClaimsGoBack(s, t, w, id, url, pc, c);
    hide Claims, Doomed;
  }

  lemma OtherCallOk(s: State, t: State, w: nat, id: string, url: string, pc: Pc, c: Choice, b: nat)
    requires Offered(s, id, url, pc, c) && Delta(s, t, w, id, url, pc, c)
    requires w in s.workers && s.workers[w] == Handling(id, url, pc)
    requires WorkerOk(s, s.workers[w]) && ContainerOwned(s, id)
    requires b in s.workers && b != w && s.workers[b].id == id && s.workers[b].Handling?
    requires WorkerOk(s, s.workers[b]) && PairOk(s, s.workers[w], s.workers[b]) && PairOk(s, s.workers[b], s.workers[w])
    ensures WorkerOk(t, s.workers[b])
  {
    OthersClaimsGoBack(s, t, w, id, url, pc, c, b);
    hide Claims, Doomed, NextPc;
  }

  lemma OtherTeardownOk(s: State, t: State, w: nat, id: string, url: string, pc: Pc, c: Choice, b: nat)
    requires Offered(s, id, url, pc, c) && Delta(s, t, w, id, url, pc, c)
    requires w in s.workers && s.workers[w] == Handling(id, url, pc)
    requires WorkerOk(s, s.workers[w])
    requires b in s.workers && b != w && s.workers[b].id == id && s.workers[b].Tearing?
    requires WorkerOk(s, s.workers[b]) && PairOk(s, s.workers[b], s.workers[w])
    ensures WorkerOk(t, s.workers[b])
  {
    forall u ensures Doomed(s, id, u) && (u, id) in t.worktrees ==> Doomed(t, id, u) {
      DoomStays(s, t, w, id, url, pc, c, u);
    }
    hide Claims, Doomed, NextPc;
  }

  lemma OwnPairOk(s: State, t: State, w: nat, id: string, url: string, pc: Pc, c: Choice, b: nat)
    requires Offered(s, id, url, pc, c) && Delta(s, t, w, id, url, pc, c)
    requires w in s.workers && s.workers[w] == Handling(id, url, pc)
    requires WorkerOk(s, s.workers[w]) && CanUse(s, w, id, c) && w in t.workers
    requires b in s.workers && b != w && s.workers[b].id == id && WorkerOk(s, s.workers[b])
    requires PairOk(s, s.workers[w], s.workers[b]) && PairOk(s, s.workers[b], s.workers[w])
    ensures PairOk(t, t.workers[w], s.workers[b]) && PairOk(t, s.workers[b], t.workers[w])
  {
    ClaimsGoBack(s, t, w, id, url, pc, c);
    OthersClaimsGoBack(s, t, w, id, url, pc, c, b);
    hide Claims, Doomed;
    assert s.workers[b].Handling? ==> NumberOf(s.workers[b]) < s.issued;
  }

  lemma OthersPairOk(s: State, t: State, w: nat, id: string, url: string, pc: Pc, c: Choice, a: nat, b: nat)
    requires Offered(s, id, url, pc, c) && Delta(s, t, w, id, url, pc, c)
    requires w in s.workers && s.workers[w] == Handling(id, url, pc)
    requires a in s.workers && b in s.workers && a != w && b != w && s.workers[a].id == id && s.workers[b].id == id
    requires PairOk(s, s.workers[a], s.workers[b])
    requires PairOk(s, s.workers[w], s.workers[b]) && PairOk(s, s.workers[a], s.workers[w])
    ensures PairOk(t, s.workers[a], s.workers[b])
  {
    OthersClaimsGoBack(s, t, w, id, url, pc, c, a);
    OthersClaimsGoBack(s, t, w, id, url, pc, c, b);
    hide Claims, Doomed, NextPc, Delta;
  }

  lemma HandledWorkers(s: State, t: State, w: nat, id: string, url: string, pc: Pc, c: Choice)
    requires Offered(s, id, url, pc, c) && Delta(s, t, w, id, url, pc, c)
    requires w in s.workers && s.workers[w] == Handling(id, url, pc)
    requires Tidy(s, id) && CanUse(s, w, id, c)
    ensures WorkersOk(t, id)
  {
    forall b | b in t.workers && t.workers[b].id == id ensures WorkerOk(t, t.workers[b]) {
      if b == w {
        OwnWorkerOk(s, t, w, id, url, pc, c);
      } else if s.workers[b].Handling? {
        OtherCallOk(s, t, w, id, url, pc, c, b);
      } else {
        OtherTeardownOk(s, t, w, id, url, pc, c, b);
      }
      hide WorkerOk, PairOk, CanUse, NextPc;
    }
  }

  lemma HandledPairs(s: State, t: State, w: nat, id: string, url: string, pc: Pc, c: Choice)
    requires Offered(s, id, url, pc, c) && Delta(s, t, w, id, url, pc, c)
    requires w in s.workers && s.workers[w] == Handling(id, url, pc)
    requires Tidy(s, id) && CanUse(s, w, id, c)
    ensures PairsOk(t, id)
  {
    forall a, b | a in t.workers && b in t.workers && a != b && t.workers[a].id == id && t.workers[b].id == id
      ensures PairOk(t, t.workers[a], t.workers[b])
    {
      if a == w {
        OwnPairOk(s, t, w, id, url, pc, c, b);
      } else if b == w {
        OwnPairOk(s, t, w, id, url, pc, c, a);
      } else {
        OthersPairOk(s, t, w, id, url, pc, c, a, b);
      }
      hide WorkerOk, PairOk, CanUse, NextPc;
    }
  }

  lemma HandledTrees(s: State, t: State, w: nat, id: string, url: string, pc: Pc, c: Choice)
    requires Offered(s, id, url, pc, c) && Delta(s, t, w, id, url, pc, c)
    requires w in s.workers && s.workers[w] == Handling(id, url, pc)
    requires Tidy(s, id)
    ensures TreesOwned(t, id)
  {
    forall u | (u, id) in t.worktrees ensures u != "" && TreeOwned(t, u, id) {
      TreeStaysOwned(s, t, w, id, url, pc, c, u);
    }
  }

  lemma JobTreeStays(s: State, t: State, w: nat, id: string, url: string, pc: Pc, c: Choice, u: string)
    requires Offered(s, id, url, pc, c) && Delta(s, t, w, id, url, pc, c)
    requires w in s.workers && s.workers[w] == Handling(id, url, pc)
    requires WorkerOk(s, s.workers[w]) && id in s.jobs && s.jobs[id].url == u
    ensures id in t.jobs && t.jobs[id].url == u
  {
    hide NextPc, Doomed, Without;
  }

  lemma OwnTreeStays(s: State, t: State, w: nat, id: string, url: string, pc: Pc, c: Choice)
    requires Offered(s, id, url, pc, c) && Delta(s, t, w, id, url, pc, c)
    requires w in s.workers && s.workers[w] == Handling(id, url, pc)
    requires WorkerOk(s, s.workers[w]) && HasTree(pc) && (url, id) in s.worktrees && (url, id) in t.worktrees
    ensures TreeOwned(t, url, id)
  {
    if w in t.workers {
      assert HandledBy(t, w, id);
    } else if Doomed(s, id, url) {
      var x :| x in s.workers && s.workers[x] == Handling(id, url, Dropping);
      assert HandledBy(t, x, id);
    }
  }

  lemma TreeStaysOwned(s: State, t: State, w: nat, id: string, url: string, pc: Pc, c: Choice, u: string)
    requires Offered(s, id, url, pc, c) && Delta(s, t, w, id, url, pc, c)
    requires w in s.workers && s.workers[w] == Handling(id, url, pc)
    requires Tidy(s, id) && (u, id) in t.worktrees
    ensures u != "" && TreeOwned(t, u, id)
  {
    assert WorkerOk(s, s.workers[w]);
    if (u, id) !in s.worktrees {
      assert u == url && HandledBy(t, w, id) && HasTree(t.workers[w].pc);
    } else {
      assert TreeOwned(s, u, id);
      if id in s.jobs && s.jobs[id].url == u {
        JobTreeStays(s, t, w, id, url, pc, c, u);
      } else {
        var x :| HandledBy(s, x, id) && s.workers[x].url == u && HasTree(s.workers[x].pc);
        if x != w {
          assert HandledBy(t, x, id);
        } else {
          OwnTreeStays(s, t, w, id, url, pc, c);
        }
      }
    }
  }

  lemma HandledContainer(s: State, t: State, w: nat, id: string, url: string, pc: Pc, c: Choice)
    requires Offered(s, id, url, pc, c) && Delta(s, t, w, id, url, pc, c)
    requires w in s.workers && s.workers[w] == Handling(id, url, pc)
    requires Tidy(s, id)
    ensures ContainerOwned(t, id)
  {
    assert WorkerOk(s, s.workers[w]);
    if id in t.containers {
      if MakesContainer(pc, c) {
        assert HandledBy(t, w, id) && NumberOf(t.workers[w]) == t.containers[id];
      } else if id in s.containers && JobOwns(s, id) && !pc.Built? {
        assert JobOwns(t, id);
      } else if id in s.containers && !JobOwns(s, id) {
        var x :| HandledBy(s, x, id) && NumberOf(s.workers[x]) == s.containers[id];
        WorkerStillOwns(s, t, w, id, url, pc, c, x);
      }
    }
  }

  lemma WorkerStillOwns(s: State, t: State, w: nat, id: string, url: string, pc: Pc, c: Choice, x: nat)
    requires Offered(s, id, url, pc, c) && Delta(s, t, w, id, url, pc, c)
    requires w in s.workers && s.workers[w] == Handling(id, url, pc)
    requires WorkerOk(s, s.workers[w]) && id in s.containers && id in t.containers && !MakesContainer(pc, c)
    requires HandledBy(s, x, id) && NumberOf(s.workers[x]) == s.containers[id]
    ensures JobOwns(t, id) || exists y :: HandledBy(t, y, id) && NumberOf(t.workers[y]) == t.containers[id]
  {
    if x != w {
      assert HandledBy(t, x, id);
    } else if !pc.Built? {
      assert HandledBy(t, w, id);
    }
  }

  lemma HandledKept(s: State, t: State, w: nat, id: string, url: string, pc: Pc, c: Choice)
    requires Offered(s, id, url, pc, c) && Delta(s, t, w, id, url, pc, c)
    requires w in s.workers && s.workers[w] == Handling(id, url, pc)
    requires Tidy(s, id)
    ensures ContainerKept(t, id)
  {
    assert WorkerOk(s, s.workers[w]);
    if JobHasContainer(s, id) && !JobOwns(s, id) && !pc.Built? {
      var x :| x in s.workers && s.workers[x].Tearing? && s.workers[x].id == id && s.workers[x].stage != Loaded;
      assert x in t.workers && t.workers[x] == s.workers[x];
    }
  }

  lemma HandledMark(s: State, t: State, w: nat, id: string, url: string, pc: Pc, c: Choice)
    requires Offered(s, id, url, pc, c) && Delta(s, t, w, id, url, pc, c)
    requires w in s.workers && s.workers[w] == Handling(id, url, pc)
    requires MarkOwned(s, id)
    ensures MarkOwned(t, id)
  {
    if id in t.building {
      if pc.Counted? {
        assert HandledBy(t, w, id) && InBuilding(t.workers[w].pc);
      } else {
        var x :| HandledBy(s, x, id) && InBuilding(s.workers[x].pc);
        assert x == w ==> HandledBy(t, w, id) && InBuilding(t.workers[w].pc);
        assert x != w ==> HandledBy(t, x, id);
      }
    }
  }

  lemma HandledNumbers(s: State, t: State, w: nat, id: string, url: string, pc: Pc, c: Choice)
    requires Offered(s, id, url, pc, c) && Delta(s, t, w, id, url, pc, c)
    requires w in s.workers && s.workers[w] == Handling(id, url, pc)
    requires WorkerOk(s, s.workers[w]) && NumbersOld(s, id)
    ensures NumbersOld(t, id)
  {
    hide NextPc, Claims, Doomed;
  }

  lemma HandledTidy(s: State, t: State, w: nat, id: string, url: string, pc: Pc, c: Choice)
    requires Offered(s, id, url, pc, c) && Delta(s, t, w, id, url, pc, c)
    requires w in s.workers && s.workers[w] == Handling(id, url, pc)
    requires Tidy(s, id) && CanUse(s, w, id, c)
    ensures Tidy(t, id)
  {
    assert WorkerOk(s, s.workers[w]);
    hide WorkersOk, PairsOk, TreesOwned, ContainerOwned, ContainerKept, MarkOwned, NumbersOld, Delta, CanUse, WorkerOk;
    HandledWorkers(s, t, w, id, url, pc, c);
    HandledPairs(s, t, w, id, url, pc, c);
    HandledTrees(s, t, w, id, url, pc, c);
    HandledContainer(s, t, w, id, url, pc, c);
    HandledKept(s, t, w, id, url, pc, c);
    HandledMark(s, t, w, id, url, pc, c);
    HandledNumbers(s, t, w, id, url, pc, c);
  }

  // ---------- one statement of a Teardown ----------

  lemma TornDoom(s: State, w: nat, id: string, job: Job, stage: Stage, u: string)
    requires w in s.workers && s.workers[w] == Tearing(id, job, stage)
    ensures Doomed(s, id, u) <==> Doomed(Torn(s, w, id, job, stage), id, u)
  {
    var t := Torn(s, w, id, job, stage);
    assert forall x | x in s.workers && x != w :: x in t.workers && t.workers[x] == s.workers[x];
    assert forall x | x in t.workers && x != w :: x in s.workers && t.workers[x] == s.workers[x];
  }

  lemma TornClaims(s: State, w: nat, id: string, job: Job, stage: Stage, h: Worker)
    requires w in s.workers && s.workers[w] == Tearing(id, job, stage) && h.id == id
    ensures Claims(Torn(s, w, id, job, stage), h) ==> Claims(s, h)
  {
    if h.Handling? { TornDoom(s, w, id, job, stage, h.url); }
    hide Doomed;
  }

  /** Once its worktree is removed, every worktree of the preview is about to be removed by someone else. */
  lemma LastTreesDoomed(s: State, w: nat, id: string, job: Job, u: string)
    requires w in s.workers && s.workers[w] == Tearing(id, job, Stopped) && Tidy(s, id)
    requires (u, id) in s.worktrees && u != job.url
    ensures Doomed(s, id, u)
  {
    assert WorkerOk(s, s.workers[w]);
    assert TreeOwned(s, u, id);
    if id in s.jobs {
      var x :| HandledBy(s, x, id) && s.workers[x].url == u && HasTree(s.workers[x].pc);
      assert WorkerOk(s, s.workers[x]) && PairOk(s, s.workers[w], s.workers[x]);
      assert s.workers[x] == Handling(id, u, Dropping) || MayRegister(s.workers[x]) || CleansUp(s.workers[x]);
    }
  }

  lemma TornOwnOk(s: State, w: nat, id: string, job: Job, stage: Stage)
    requires w in s.workers && s.workers[w] == Tearing(id, job, stage) && Tidy(s, id) && stage != Dropped
    ensures WorkerOk(Torn(s, w, id, job, stage), Torn(s, w, id, job, stage).workers[w])
  {
    var t := Torn(s, w, id, job, stage);
    assert WorkerOk(s, s.workers[w]);
    forall u | (u, id) in t.worktrees && (t.workers[w].stage == Dropped || id !in t.jobs) ensures Doomed(t, id, u) {
      TornDoom(s, w, id, job, stage, u);
      assert u != "" by { assert TreesOwned(s, id); }
      if stage == Stopped && u != job.url { LastTreesDoomed(s, w, id, job, u); }
    }
    hide Doomed, WorkersOk, PairsOk, TreesOwned;
  }

  lemma TornOtherOk(s: State, w: nat, id: string, job: Job, stage: Stage, b: nat)
    requires w in s.workers && s.workers[w] == Tearing(id, job, stage) && WorkerOk(s, s.workers[w])
    requires b in s.workers && b != w && s.workers[b].id == id && WorkerOk(s, s.workers[b])
    requires PairOk(s, s.workers[w], s.workers[b])
    ensures WorkerOk(Torn(s, w, id, job, stage), s.workers[b])
  {
    TornClaims(s, w, id, job, stage, s.workers[b]);
    forall u ensures Doomed(s, id, u) <==> Doomed(Torn(s, w, id, job, stage), id, u) { TornDoom(s, w, id, job, stage, u); }
    hide Doomed, Claims;
  }

  lemma TornPairOk(s: State, w: nat, id: string, job: Job, stage: Stage, a: Worker, b: Worker)
    requires w in s.workers && s.workers[w] == Tearing(id, job, stage) && a.id == id && b.id == id && PairOk(s, a, b)
    ensures PairOk(Torn(s, w, id, job, stage), a, b)
  {
    TornClaims(s, w, id, job, stage, a);
    TornClaims(s, w, id, job, stage, b);
    hide Claims, Torn;
  }

  lemma TornWorkers(s: State, w: nat, id: string, job: Job, stage: Stage)
    requires w in s.workers && s.workers[w] == Tearing(id, job, stage) && Tidy(s, id)
    ensures WorkersOk(Torn(s, w, id, job, stage), id) && PairsOk(Torn(s, w, id, job, stage), id)
  {
    var t := Torn(s, w, id, job, stage);
    TornMoves(s, w, job, stage);
    forall b | b in t.workers && t.workers[b].id == id ensures WorkerOk(t, t.workers[b]) {
      if b == w { TornOwnOk(s, w, id, job, stage); } else { TornOtherOk(s, w, id, job, stage, b); }
    }
    forall a, b | a in t.workers && b in t.workers && a != b && t.workers[a].id == id && t.workers[b].id == id
      ensures PairOk(t, t.workers[a], t.workers[b])
    {
      TornSame(s, w, id, job, stage, a, b);
      TornPairOk(s, w, id, job, stage, t.workers[a], t.workers[b]);
    }
  }

  lemma TornSame(s: State, w: nat, id: string, job: Job, stage: Stage, a: nat, b: nat)
    requires w in s.workers && s.workers[w] == Tearing(id, job, stage) && PairsOk(s, id) && a != b
    requires var t := Torn(s, w, id, job, stage);
      a in t.workers && b in t.workers && t.workers[a].id == id && t.workers[b].id == id
    ensures PairOk(s, Torn(s, w, id, job, stage).workers[a], Torn(s, w, id, job, stage).workers[b])
  {
    assert PairOk(s, s.workers[a], s.workers[b]);
    hide Doomed;
  }

  lemma TornHandlers(s: State, w: nat, id: string, job: Job, stage: Stage, x: nat)
    requires w in s.workers && s.workers[w] == Tearing(id, job, stage)
    ensures var t := Torn(s, w, id, job, stage);
      HandledBy(s, x, id) <==> HandledBy(t, x, id) && (HandledBy(s, x, id) ==> t.workers[x] == s.workers[x])
  {
  }

  lemma TornTrees(s: State, w: nat, id: string, job: Job, stage: Stage)
    requires w in s.workers && s.workers[w] == Tearing(id, job, stage) && Tidy(s, id)
    ensures TreesOwned(Torn(s, w, id, job, stage), id)
  {
    var t := Torn(s, w, id, job, stage);
    assert WorkerOk(s, s.workers[w]);
    forall u | (u, id) in t.worktrees ensures u != "" && TreeOwned(t, u, id) {
      assert TreeOwned(s, u, id);
      hide WorkerOk;
      if stage == Dropped {
        var x :| x in s.workers && s.workers[x] == Handling(id, u, Dropping);
        TornHandlers(s, w, id, job, stage, x);
        assert HandledBy(s, x, id) && HandledBy(t, x, id);
      } else if !(id in s.jobs && s.jobs[id].url == u) {
        var x :| HandledBy(s, x, id) && s.workers[x].url == u && HasTree(s.workers[x].pc);
        TornHandlers(s, w, id, job, stage, x);
        assert HandledBy(t, x, id);
      }
    }
  }

  lemma TornContainer(s: State, w: nat, id: string, job: Job, stage: Stage)
    requires w in s.workers && s.workers[w] == Tearing(id, job, stage) && Tidy(s, id)
    ensures ContainerOwned(Torn(s, w, id, job, stage), id)
  {
    var t := Torn(s, w, id, job, stage);
    assert WorkerOk(s, s.workers[w]);
    hide WorkersOk, PairsOk, TreesOwned;
    if id in t.containers && !JobOwns(s, id) {
      var x :| HandledBy(s, x, id) && NumberOf(s.workers[x]) == s.containers[id];
      TornHandlers(s, w, id, job, stage, x);
      assert HandledBy(t, x, id);
    }
  }

  lemma TornKept(s: State, w: nat, id: string, job: Job, stage: Stage)
    requires w in s.workers && s.workers[w] == Tearing(id, job, stage) && Tidy(s, id)
    ensures ContainerKept(Torn(s, w, id, job, stage), id)
  {
    var t := Torn(s, w, id, job, stage);
    if stage != Dropped {
      if stage == Loaded || !JobOwns(s, id) {
        assert t.workers[w].Tearing? && t.workers[w].stage != Loaded;
      }
    }
    hide WorkersOk, PairsOk, TreesOwned, ContainerOwned;
  }

  lemma TornContainers(s: State, w: nat, id: string, job: Job, stage: Stage)
    requires w in s.workers && s.workers[w] == Tearing(id, job, stage) && Tidy(s, id)
    ensures var t := Torn(s, w, id, job, stage); ContainerOwned(t, id) && ContainerKept(t, id)
  {
    TornContainer(s, w, id, job, stage);
    TornKept(s, w, id, job, stage);
  }

  lemma TornMarkOwned(s: State, w: nat, id: string, job: Job, stage: Stage)
    requires w in s.workers && s.workers[w] == Tearing(id, job, stage) && MarkOwned(s, id) && NumbersOld(s, id)
    ensures var t := Torn(s, w, id, job, stage); MarkOwned(t, id) && NumbersOld(t, id)
  {
    assert forall x :: HandledBy(s, x, id) <==> HandledBy(Torn(s, w, id, job, stage), x, id);
  }

  lemma TornTidy(s: State, w: nat, id: string, job: Job, stage: Stage)
    requires w in s.workers && s.workers[w] == Tearing(id, job, stage) && Tidy(s, id)
    ensures Tidy(Torn(s, w, id, job, stage), id)
  {
    hide WorkersOk, PairsOk, TreesOwned, ContainerOwned, ContainerKept, MarkOwned, NumbersOld, Torn;
    TornWorkers(s, w, id, job, stage);
    TornTrees(s, w, id, job, stage);
    TornContainers(s, w, id, job, stage);
    TornMarkOwned(s, w, id, job, stage);
  }

  // ---------- calls that begin, other previews ----------

  lemma SameClaims(s: State, t: State, id: string, h: Worker)
    requires SameFor(s, t, id) && h.id == id
    ensures Claims(s, h) <==> Claims(t, h)
  {
    assert forall w | w in s.workers && s.workers[w].id == id :: w in t.workers && t.workers[w] == s.workers[w];
    assert forall w | w in t.workers && t.workers[w].id == id :: w in s.workers && t.workers[w] == s.workers[w];
  }

  lemma SameDoom(s: State, t: State, id: string, u: string)
    requires SameFor(s, t, id)
    ensures Doomed(s, id, u) <==> Doomed(t, id, u)
  {
    assert forall w | w in s.workers && s.workers[w].id == id :: w in t.workers && t.workers[w] == s.workers[w];
    assert forall w | w in t.workers && t.workers[w].id == id :: w in s.workers && t.workers[w] == s.workers[w];
  }

  lemma SameWorkers(s: State, t: State, id: string)
    requires SameFor(s, t, id) && s.issued <= t.issued && WorkersOk(s, id) && PairsOk(s, id)
    ensures WorkersOk(t, id) && PairsOk(t, id)
  {
    forall h: Worker | h.id == id ensures Claims(s, h) <==> Claims(t, h) { SameClaims(s, t, id, h); }
    forall u ensures Doomed(s, id, u) <==> Doomed(t, id, u) { SameDoom(s, t, id, u); }
    hide Claims, Doomed;
    forall w | w in t.workers && t.workers[w].id == id ensures WorkerOk(t, t.workers[w]) {
      assert WorkerOk(s, s.workers[w]);
    }
    forall v, w | v in t.workers && w in t.workers && v != w && t.workers[v].id == id && t.workers[w].id == id
      ensures PairOk(t, t.workers[v], t.workers[w])
    {
      assert PairOk(s, s.workers[v], s.workers[w]);
    }
  }

  lemma SameOwned(s: State, t: State, id: string)
    requires SameFor(s, t, id) && s.issued <= t.issued && Tidy(s, id)
    ensures TreesOwned(t, id) && ContainerOwned(t, id) && ContainerKept(t, id) && MarkOwned(t, id) && NumbersOld(t, id)
  {
    hide WorkersOk, PairsOk;
    assert forall w :: HandledBy(s, w, id) <==> HandledBy(t, w, id);
    assert forall w :: HandledBy(s, w, id) ==> s.workers[w] == t.workers[w];
    forall u | (u, id) in t.worktrees ensures u != "" && TreeOwned(t, u, id) { assert TreeOwned(s, u, id); }
  }

  lemma SameTidy(s: State, t: State, id: string)
    requires SameFor(s, t, id) && s.issued <= t.issued && Tidy(s, id)
    ensures Tidy(t, id)
  {
    SameWorkers(s, t, id);
    SameOwned(s, t, id);
    hide SameFor, WorkersOk, PairsOk;
  }

  /** A new worker beside the old ones, nothing else. */
  lemma JoinClaims(s: State, w: nat, h: Worker, b: Worker)
    requires w !in s.workers && (h.Tearing? || h.pc == Passed)
    ensures Claims(To(s, w, h), b) <==> Claims(s, b)
    ensures forall u :: Doomed(To(s, w, h), b.id, u) <==> Doomed(s, b.id, u)
  {
    assert forall v | v in s.workers :: To(s, w, h).workers[v] == s.workers[v];
  }

  lemma JoinWorkers(s: State, w: nat, h: Worker)
    requires w !in s.workers && (h.Tearing? || h.pc == Passed) && Tidy(s, h.id)
    requires WorkerOk(s, h)
    requires forall v | v in s.workers && s.workers[v].id == h.id :: PairOk(s, h, s.workers[v]) && PairOk(s, s.workers[v], h)
    ensures WorkersOk(To(s, w, h), h.id) && PairsOk(To(s, w, h), h.id)
  {
    var t := To(s, w, h);
    forall b: Worker ensures (Claims(t, b) <==> Claims(s, b)) && forall u :: Doomed(t, b.id, u) <==> Doomed(s, b.id, u) {
      JoinClaims(s, w, h, b);
    }
    hide Claims, Doomed, NumberOf, Builds;
    forall v | v in t.workers && t.workers[v].id == h.id ensures WorkerOk(t, t.workers[v]) {
      assert WorkerOk(s, t.workers[v]);
    }
    forall u, v | u in t.workers && v in t.workers && u != v && t.workers[u].id == h.id && t.workers[v].id == h.id
      ensures PairOk(t, t.workers[u], t.workers[v])
    {
      assert PairOk(s, t.workers[u], t.workers[v]);
    }
  }

  lemma JoinOwned(s: State, w: nat, h: Worker)
    requires w !in s.workers && Tidy(s, h.id)
    ensures var t := To(s, w, h);
      TreesOwned(t, h.id) && ContainerOwned(t, h.id) && ContainerKept(t, h.id) && MarkOwned(t, h.id) && NumbersOld(t, h.id)
  {
    var t := To(s, w, h);
    hide WorkersOk, PairsOk;
    assert forall v :: HandledBy(s, v, h.id) ==> HandledBy(t, v, h.id) && t.workers[v] == s.workers[v];
    forall u | (u, h.id) in t.worktrees ensures u != "" && TreeOwned(t, u, h.id) { assert TreeOwned(s, u, h.id); }
    assert forall v | v in s.workers :: t.workers[v] == s.workers[v];
  }

  lemma BeginTidy(s: State, w: nat, id: string, url: string)
    requires Can(s, Begin(w, id, url)) && Orderly(s, Begin(w, id, url)) && Tidy(s, id)
    ensures Tidy(Do(s, Begin(w, id, url)), id)
  {
    var h := Handling(id, url, Passed);
    JoinOwned(s, w, h);
    forall v | v in s.workers && s.workers[v].id == id ensures PairOk(s, h, s.workers[v]) && PairOk(s, s.workers[v], h) {
      assert Claims(s, h) <==> url != "";
    }
    assert WorkerOk(s, h) by { hide Doomed; }
    JoinWorkers(s, w, h);
    hide WorkersOk, PairsOk;
  }

  lemma LoadTidy(s: State, w: nat, id: string)
    requires Can(s, Load(w, id)) && Orderly(s, Load(w, id)) && Tidy(s, id) && id in s.jobs
    ensures Tidy(Do(s, Load(w, id)), id)
  {
    var h := Tearing(id, s.jobs[id], Loaded);
    JoinOwned(s, w, h);
    forall v | v in s.workers && s.workers[v].id == id ensures PairOk(s, h, s.workers[v]) && PairOk(s, s.workers[v], h) {
      assert WorkerOk(s, s.workers[v]);
      hide Doomed;
    }
    assert WorkerOk(s, h);
    JoinWorkers(s, w, h);
    hide WorkersOk, PairsOk;
  }

  // ---------- every run ----------

  lemma IssuedGrows(s: State, a: Action)
    requires Can(s, a)
    ensures s.issued <= Do(s, a).issued
  {
    hide Offered;
    if a.Move? && s.workers[a.w].Handling? {
      HandledDelta(s, a.w, s.workers[a.w].id, s.workers[a.w].url, s.workers[a.w].pc, a.choice);
      hide Handled, NextPc;
    }
  }

  lemma OwnTidy(s: State, a: Action)
    requires Can(s, a) && !a.Pause? && Orderly(s, a) && Tidy(s, IdOf(s, a))
    ensures Tidy(Do(s, a), IdOf(s, a))
  {
    hide Handled, Torn, Offered, Tidy;
    match a
    case Begin(w, id, url) => BeginTidy(s, w, id, url);
    case Load(w, id) => if id in s.jobs { LoadTidy(s, w, id); }
    case Move(w, c) => {
      match s.workers[w]
      case Handling(id, url, pc) =>
        HandledDelta(s, w, id, url, pc, c);
        HandledTidy(s, Do(s, a), w, id, url, pc, c);
      case Tearing(id, job, stage) => TornTidy(s, w, id, job, stage);
    }
  }

  lemma StepKeepsInv(s: State, a: Action)
    requires Inv(s) && Can(s, a) && Orderly(s, a)
    ensures Inv(Do(s, a))
  {
    hide Can, Do, Orderly, Tidy, SameFor;
    IssuedGrows(s, a);
    forall id: string ensures Tidy(Do(s, a), id) {
      if !a.Pause? && id == IdOf(s, a) {
        OwnTidy(s, a);
      } else {
        ElsewhereSame(s, a, id);
        SameTidy(s, Do(s, a), id);
      }
    }
  }

  lemma StartInv(s: State)
    requires Start(s)
    ensures Inv(s)
  {
  }

  lemma {:induction false} InvAlong(s: State, run: seq<Action>)
    requires Inv(s) && Possible(s, run) && OrderlyRun(s, run)
    ensures Inv(After(s, run))
    decreases |run|
  {
    hide Inv, Can, Do, Orderly;
    if run == [] {
    } else {
      InvAlong(s, Front(run));
      StepKeepsInv(After(s, Front(run)), Last(run));
    }
  }

  lemma InvAlways(s: State, run: seq<Action>)
    requires Start(s) && Possible(s, run) && OrderlyRun(s, run)
    ensures Inv(After(s, run))
  {
    hide Inv, Can, Do, Orderly, Start, OrderlyRun, Possible;
    StartInv(s);
    InvAlong(s, run);
  }

  predicate Quiet(s: State, id: string) { forall w | w in s.workers :: s.workers[w].id != id }

  /** Nothing of the preview is left over: no building mark, no worktree and no container but its job's. */
  ghost predicate Settled(s: State, id: string) {
    && id !in s.building
    && (forall url | (url, id) in s.worktrees :: id in s.jobs && s.jobs[id].url == url)
    && (id in s.containers <==> JobHasContainer(s, id))
    && (JobHasContainer(s, id) ==> s.containers[id] == s.jobs[id].container)
  }

  lemma InvSettles(s: State, id: string)
    requires Inv(s) && Quiet(s, id)
    ensures Settled(s, id)
  {
    assert Tidy(s, id);
    assert forall w :: !HandledBy(s, w, id);
    hide WorkersOk, PairsOk;
  }

  /** Whenever no handler works on a preview, on every success and failure path, with any overlap of calls that
      the orderly condition allows. */
  lemma SettledBetweenHandlers(s: State, run: seq<Action>, id: string)
    requires Start(s) && Possible(s, run) && OrderlyRun(s, run) && Quiet(After(s, run), id)
    ensures Settled(After(s, run), id)
    ensures var t := After(s, run);
      && id !in t.building
      && (forall url | (url, id) in t.worktrees :: id in t.jobs && t.jobs[id].url == url)
      && (id in t.containers <==> id in t.jobs && t.jobs[id].mode == Dockerfile)
      && (id in t.containers && id in t.jobs ==> t.containers[id] == t.jobs[id].container)
  {
    InvAlways(s, run);
    InvSettles(After(s, run), id);
  }
}
