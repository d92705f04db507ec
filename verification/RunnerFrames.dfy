/** What one step of the runner touches, and how runs of steps join. */
module RunnerFrames {
  import opened Previews
  import opened Runners

  predicate InBuilding(pc: Pc) { pc !in {Passed, Counted, Uncounted, Dropping} && !pc.Unlisted? }

  predicate InFlight(pc: Pc) { pc !in {Passed, Uncounted, Dropping} }

  /** The call has a worktree it will either leave to its job or remove. */
  predicate HasTree(pc: Pc) {
    pc !in {Passed, Counted, Listed} && (pc.Over? || pc.Unlisted? ==> pc.held)
  }

  function Counting(s: State): set<nat> {
    set w | w in s.workers && s.workers[w].Handling? && InFlight(s.workers[w].pc)
  }

  predicate HandledBy(s: State, w: nat, id: string) { w in s.workers && s.workers[w].Handling? && s.workers[w].id == id }

  // ---------- one step ----------

  function IdOf(s: State, a: Action): string
    requires Can(s, a)
  {
    match a
    case Begin(_, id, _) => id
    case Load(_, id) => id
    case Move(w, _) => s.workers[w].id
    case Pause => ""
  }

  ghost predicate SameThings(s: State, t: State, id: string) {
    && (id in s.jobs <==> id in t.jobs) && (id in s.jobs ==> s.jobs[id] == t.jobs[id])
    && (id in s.containers <==> id in t.containers) && (id in s.containers ==> s.containers[id] == t.containers[id])
    && (id in s.building <==> id in t.building)
    && (forall url :: (url, id) in s.worktrees <==> (url, id) in t.worktrees)
  }

  ghost predicate SameFor(s: State, t: State, id: string) {
    && SameThings(s, t, id)
    && (forall w :: (w in s.workers && s.workers[w].id == id) <==> (w in t.workers && t.workers[w].id == id))
    && (forall w | w in s.workers && s.workers[w].id == id :: s.workers[w] == t.workers[w])
  }

  predicate WorkerMoved(s: State, t: State, w: nat) {
    if w in t.workers then w in s.workers && t.workers[w].id == s.workers[w].id && t.workers == s.workers[w := t.workers[w]]
    else t.workers == s.workers - {w}
  }

  lemma MovedElsewhere(s: State, t: State, w: nat, id: string)
    requires w in s.workers && s.workers[w].id != id && SameThings(s, t, id) && WorkerMoved(s, t, w)
    ensures SameFor(s, t, id)
  {
  }

  lemma HandledElsewhere(s: State, w: nat, url: string, pc: Pc, c: Choice, id: string)
    requires w in s.workers && s.workers[w].id != id && Offered(s, s.workers[w].id, url, pc, c)
    ensures SameThings(s, Handled(s, w, s.workers[w].id, url, pc, c), id)
  {
  }

  lemma HandledMoves(s: State, w: nat, url: string, pc: Pc, c: Choice)
    requires w in s.workers && Offered(s, s.workers[w].id, url, pc, c)
    ensures WorkerMoved(s, Handled(s, w, s.workers[w].id, url, pc, c), w)
  {
  }

  lemma TornElsewhere(s: State, w: nat, job: Job, stage: Stage, id: string)
    requires w in s.workers && s.workers[w].id != id
    ensures SameThings(s, Torn(s, w, s.workers[w].id, job, stage), id)
    ensures WorkerMoved(s, Torn(s, w, s.workers[w].id, job, stage), w)
  {
  }

  lemma ElsewhereSame(s: State, a: Action, id: string)
    requires Can(s, a) && (a.Pause? || IdOf(s, a) != id)
    ensures SameFor(s, Do(s, a), id)
  {
    hide Handled, Torn, WorkerMoved, Offered;
    match a
    case Move(w, c) =>
      match s.workers[w] {
        case Handling(_, url, pc) =>
          HandledElsewhere(s, w, url, pc, c, id);
          HandledMoves(s, w, url, pc, c);
          MovedElsewhere(s, Do(s, a), w, id);
        case Tearing(_, job, stage) =>
          TornElsewhere(s, w, job, stage, id);
          MovedElsewhere(s, Do(s, a), w, id);
      }
    case _ =>
  }

  lemma HandledHandles(s: State, w: nat, id: string, url: string, pc: Pc, c: Choice)
    requires w in s.workers && s.workers[w] == Handling(id, url, pc) && Offered(s, id, url, pc, c)
    ensures w in Handled(s, w, id, url, pc, c).workers ==> Handled(s, w, id, url, pc, c).workers[w].Handling?
  {
  }

  lemma MoveMoves(s: State, w: nat, c: Choice)
    requires Can(s, Move(w, c))
    ensures WorkerMoved(s, Do(s, Move(w, c)), w)
  {
    hide Handled, Torn, Offered, WorkerMoved, SameThings;
    match s.workers[w]
    case Handling(_, url, pc) => HandledMoves(s, w, url, pc, c);
    case Tearing(_, job, stage) => TornMoves(s, w, job, stage);
  }

  lemma TornMoves(s: State, w: nat, job: Job, stage: Stage)
    requires w in s.workers
    ensures WorkerMoved(s, Torn(s, w, s.workers[w].id, job, stage), w)
  {
  }

  // ---------- runs ----------

  lemma {:induction false} Joined(s: State, r1: seq<Action>, r2: seq<Action>)
    requires Possible(s, r1) && Possible(After(s, r1), r2)
    ensures Possible(s, r1 + r2) && After(s, r1 + r2) == After(After(s, r1), r2)
    decreases |r2|
  {
    hide Can, Do;
    if r2 == [] {
      assert r1 + r2 == r1;
    } else {
      Joined(s, r1, Front(r2));
      assert Front(r1 + r2) == r1 + Front(r2) && Last(r1 + r2) == Last(r2);
    }
  }

  lemma One(s: State, a: Action)
    requires Can(s, a)
    ensures Possible(s, [a]) && After(s, [a]) == Do(s, a)
  {
    hide Can, Do;
    assert Front([a]) == [];
    assert Possible(s, []) && After(s, []) == s;
  }
}
