/** The orderly condition asks no more than it must: any call or build that does not meet it can go on, by
    steps already under way, to leave behind a worktree or a container that no job accounts for. */
module RunnerStrands {
  import opened Previews
  import opened Runners
  import opened RunnerFrames
  import opened RunnerSafety

  // ---------- steps already under way ----------

  predicate OnlyMoves(run: seq<Action>) { forall a | a in run :: a.Move? }

  /** The workers of s, moving in an orderly way and with no new ones, can bring about t. */
  ghost predicate Reaches(s: State, t: State) {
    exists run :: Possible(s, run) && OrderlyRun(s, run) && OnlyMoves(run) && After(s, run) == t
  }

  /** They can all finish and leave something of the preview behind. */
  ghost predicate Strandable(s: State, id: string) {
    exists t :: Reaches(s, t) && Quiet(t, id) && !Settled(t, id)
  }

  lemma ReachSelf(s: State)
    ensures Reaches(s, s)
  {
    assert Possible(s, []) && OrderlyRun(s, []) && After(s, []) == s;
  }

  lemma {:induction false} OrderlyJoined(s: State, r1: seq<Action>, r2: seq<Action>)
    requires Possible(s, r1) && OrderlyRun(s, r1) && Possible(After(s, r1), r2) && OrderlyRun(After(s, r1), r2)
    ensures Possible(s, r1 + r2) && OrderlyRun(s, r1 + r2)
    decreases |r2|
  {
    hide Can, Do, Orderly;
    Joined(s, r1, r2);
    if r2 == [] {
      assert r1 + r2 == r1;
    } else {
      OrderlyJoined(s, r1, Front(r2));
      Joined(s, r1, Front(r2));
      assert Front(r1 + r2) == r1 + Front(r2) && Last(r1 + r2) == Last(r2);
    }
  }

  lemma ReachTrans(s: State, t: State, u: State)
    requires Reaches(s, t) && Reaches(t, u)
    ensures Reaches(s, u)
  {
    hide Can, Do, Orderly, Possible, After, OrderlyRun;
    var r1 :| Possible(s, r1) && OrderlyRun(s, r1) && OnlyMoves(r1) && After(s, r1) == t;
    var r2 :| Possible(t, r2) && OrderlyRun(t, r2) && OnlyMoves(r2) && After(t, r2) == u;
    OrderlyJoined(s, r1, r2);
    Joined(s, r1, r2);
    assert OnlyMoves(r1 + r2);
  }

  lemma ReachOne(s: State, w: nat, c: Choice)
    requires Can(s, Move(w, c)) && Orderly(s, Move(w, c))
    ensures Reaches(s, Do(s, Move(w, c)))
  {
    hide Can, Do, Orderly;
    var run := [Move(w, c)];
    assert Front(run) == [] && Last(run) == Move(w, c);
    assert Possible(s, []) && After(s, []) == s && OrderlyRun(s, []);
    assert Possible(s, run) && OrderlyRun(s, run) && OnlyMoves(run);
  }

  /** One statement of a Handle, known by its delta. */
  lemma Advance(s: State, w: nat, c: Choice) returns (t: State)
    requires w in s.workers && s.workers[w].Handling?
    requires Offered(s, s.workers[w].id, s.workers[w].url, s.workers[w].pc, c)
    requires c.Use? ==> Orderly(s, Move(w, c))
    ensures Reaches(s, t) && Delta(s, t, w, s.workers[w].id, s.workers[w].url, s.workers[w].pc, c)
  {
    hide Handled, Offered, Delta, Reaches;
    t := Do(s, Move(w, c));
    HandledDelta(s, w, s.workers[w].id, s.workers[w].url, s.workers[w].pc, c);
    ReachOne(s, w, c);
  }

  // ---------- a call that fails as soon as it can ----------

  function QuitChoice(pc: Pc): Choice {
    if pc.Listed? || pc.CheckedOut? || pc.Chosen? || pc.Created? then Fail else Ok
  }

  /** Statements left at most. */
  function Rank(pc: Pc): nat {
    match pc
    case Passed => 11
    case Counted => 10
    case Listed => 9
    case CheckedOut => 8
    case Chosen(_) => 7
    case Created(_) => 6
    case Unstarted(_) => 5
    case Built(_) => 5
    case Over(_) => 4
    case Unlisted(_) => 3
    case Uncounted => 2
    case Dropping => 1
  }

  ghost predicate QuitEffect(s: State, t: State, w: nat, id: string, url: string, pc: Pc) {
    && t.workers == s.workers - {w}
    && t.jobs == (if pc.Built? then s.jobs[id := pc.job] else s.jobs)
    && t.containers == (if pc.Created? || pc.Unstarted? then Without(s, id, pc.container) else s.containers)
    && t.issued == s.issued
    && t.worktrees <= s.worktrees
    && (forall x | x in s.worktrees && x !in t.worktrees :: x == (url, id) && (pc.Dropping? || id !in t.jobs))
  }

  lemma QuitLast(s: State, t: State, w: nat, id: string, url: string, pc: Pc)
    requires w in s.workers && s.workers[w] == Handling(id, url, pc) && Offered(s, id, url, pc, QuitChoice(pc))
    requires Delta(s, t, w, id, url, pc, QuitChoice(pc)) && w !in t.workers
    ensures QuitEffect(s, t, w, id, url, pc)
  {
  }

  lemma QuitThen(s: State, mid: State, t: State, w: nat, id: string, url: string, pc: Pc)
    requires w in s.workers && s.workers[w] == Handling(id, url, pc) && Offered(s, id, url, pc, QuitChoice(pc))
    requires Delta(s, mid, w, id, url, pc, QuitChoice(pc)) && w in mid.workers
    requires mid.workers[w].Handling? && QuitEffect(mid, t, w, id, url, mid.workers[w].pc)
    ensures QuitEffect(s, t, w, id, url, pc)
  {
  }

  predicate Onward(h: Worker, id: string, url: string) { h.Handling? && h.id == id && h.url == url }

  /** The call fails at the next chance and cleans up. */
  lemma Quit(s: State, w: nat) returns (t: State)
    requires w in s.workers && s.workers[w].Handling?
    ensures Reaches(s, t) && QuitEffect(s, t, w, s.workers[w].id, s.workers[w].url, s.workers[w].pc)
    decreases Rank(s.workers[w].pc)
  {
    hide Reaches, QuitEffect, Delta;
    var h := s.workers[w];
    var mid := Advance(s, w, QuitChoice(h.pc));
    Declines(s, mid, w, h.id, h.url, h.pc);
    if w in mid.workers {
      t := Quit(mid, w);
      ReachTrans(s, mid, t);
      QuitThen(s, mid, t, w, h.id, h.url, h.pc);
    } else {
      t := mid;
      QuitLast(s, t, w, h.id, h.url, h.pc);
    }
  }

  lemma Declines(s: State, t: State, w: nat, id: string, url: string, pc: Pc)
    requires w in s.workers && s.workers[w] == Handling(id, url, pc) && Offered(s, id, url, pc, QuitChoice(pc))
    requires Delta(s, t, w, id, url, pc, QuitChoice(pc))
    ensures w in t.workers ==> Onward(t.workers[w], id, url) && Rank(t.workers[w].pc) < Rank(pc)
  {
  }

  // ---------- a call that succeeds ----------

  function WinChoice(pc: Pc): Choice { if pc.CheckedOut? then Use(Dockerfile) else Ok }

  /** The call can go on to register a job: as a Dockerfile build unless it has chosen compose. */
  predicate CanWin(s: State, w: nat)
    requires w in s.workers && s.workers[w].Handling?
  {
    var h := s.workers[w];
    && MayRegister(h)
    && (h.pc.Built? ==> h.pc.job.url == h.url)
    && (NumberOf(h) >= 0 ==> h.id in s.containers && s.containers[h.id] == NumberOf(h))
    && (NumberOf(h) < 0 && !Builds(h, Compose) ==> h.id !in s.containers)
    && (h.pc.Chosen? || h.pc.Created? || h.pc.Built? ||
        forall v | v in s.workers && v != w && s.workers[v].id == h.id :: !Builds(s.workers[v], Compose))
  }

  ghost predicate WinEffect(s: State, t: State, w: nat, h: Worker)
    requires h.Handling?
  {
    && t.workers == s.workers - {w}
    && s.worktrees <= t.worktrees
    && h.id in t.jobs && t.jobs[h.id].url == h.url
    && (if Builds(h, Compose) then t.containers == s.containers && t.jobs[h.id].mode == Compose
        else JobOwns(t, h.id) && t.jobs[h.id].container == (if NumberOf(h) >= 0 then NumberOf(h) else s.issued))
  }

  lemma WinOffered(s: State, w: nat)
    requires w in s.workers && s.workers[w].Handling? && CanWin(s, w)
    ensures var h := s.workers[w];
      Offered(s, h.id, h.url, h.pc, WinChoice(h.pc)) && (WinChoice(h.pc).Use? ==> Orderly(s, Move(w, WinChoice(h.pc))))
  {
  }

  lemma WinStep(s: State, t: State, w: nat)
    requires w in s.workers && s.workers[w].Handling? && CanWin(s, w) && !s.workers[w].pc.Built?
    requires var h := s.workers[w];
      Offered(s, h.id, h.url, h.pc, WinChoice(h.pc)) && Delta(s, t, w, h.id, h.url, h.pc, WinChoice(h.pc))
    ensures w in t.workers && Onward(t.workers[w], s.workers[w].id, s.workers[w].url) && CanWin(t, w)
    ensures Rank(t.workers[w].pc) < Rank(s.workers[w].pc)
    ensures s.worktrees <= t.worktrees && t.workers - {w} == s.workers - {w}
    ensures Builds(s.workers[w], Compose) <==> Builds(t.workers[w], Compose)
    ensures Builds(s.workers[w], Compose) ==> t.containers == s.containers
    ensures (if NumberOf(t.workers[w]) >= 0 then NumberOf(t.workers[w]) else t.issued)
         == (if NumberOf(s.workers[w]) >= 0 then NumberOf(s.workers[w]) else s.issued)
  {
    assert forall v | v in s.workers && v != w :: v in t.workers && t.workers[v] == s.workers[v];
    assert forall v | v in t.workers && v != w :: v in s.workers;
  }

  lemma WinLast(s: State, mid: State, t: State, w: nat)
    requires w in s.workers && s.workers[w].Handling? && CanWin(s, w) && s.workers[w].pc.Built?
    requires Delta(s, mid, w, s.workers[w].id, s.workers[w].url, s.workers[w].pc, Ok)
    requires QuitEffect(mid, t, w, s.workers[w].id, s.workers[w].url, Over(true))
    ensures WinEffect(s, t, w, s.workers[w])
  {
  }

  lemma Win(s: State, w: nat) returns (t: State)
    requires w in s.workers && s.workers[w].Handling? && CanWin(s, w)
    ensures Reaches(s, t) && WinEffect(s, t, w, s.workers[w])
    decreases Rank(s.workers[w].pc)
  {
    hide Reaches, QuitEffect, Delta, CanWin, Offered, Orderly;
    var h := s.workers[w];
    WinOffered(s, w);
    var mid := Advance(s, w, WinChoice(h.pc));
    if h.pc.Built? {
      assert w in mid.workers && mid.workers[w] == Handling(h.id, h.url, Over(true)) by { BuiltGoesOver(s, mid, w); }
      t := Quit(mid, w);
      WinLast(s, mid, t, w);
    } else {
      WinStep(s, mid, w);
      t := Win(mid, w);
    }
    ReachTrans(s, mid, t);
  }

  lemma BuiltGoesOver(s: State, t: State, w: nat)
    requires w in s.workers && s.workers[w].Handling? && s.workers[w].pc.Built?
    requires Delta(s, t, w, s.workers[w].id, s.workers[w].url, s.workers[w].pc, Ok)
    ensures w in t.workers && t.workers[w] == Handling(s.workers[w].id, s.workers[w].url, Over(true))
  {
  }

  // ---------- a call that checks out and then fails ----------

  lemma Slip(s: State, w: nat, id: string, url: string) returns (t: State)
    requires w in s.workers && s.workers[w] == Handling(id, url, Passed) && url != "" && id in s.jobs
    ensures Reaches(s, t) && t.workers == s.workers - {w} && t.jobs == s.jobs && t.containers == s.containers
    ensures (url, id) in t.worktrees
  {
    hide Reaches, QuitEffect, Orderly;
    var s1 := Advance(s, w, Ok);
    var s2 := Advance(s1, w, Ok);
    var s3 := Advance(s2, w, Ok);
    ReachTrans(s, s1, s2);
    ReachTrans(s, s2, s3);
    assert s3.workers[w] == Handling(id, url, CheckedOut) && s3.workers - {w} == s.workers - {w};
    t := Quit(s3, w);
    ReachTrans(s, s3, t);
    SlipLast(s3, t, w, id, url);
  }

  lemma SlipLast(s: State, t: State, w: nat, id: string, url: string)
    requires QuitEffect(s, t, w, id, url, CheckedOut) && id in s.jobs && (url, id) in s.worktrees
    ensures t.workers == s.workers - {w} && t.jobs == s.jobs && t.containers == s.containers && (url, id) in t.worktrees
  {
  }

  // ---------- what cannot be put right any more ----------

  /** No job of this repository is registered, nor about to be by a call that has finished building. */
  ghost predicate Alien(s: State, id: string, url: string) {
    (id in s.jobs ==> s.jobs[id].url != url) &&
    forall w | HandledBy(s, w, id) && s.workers[w].pc.Built? :: s.workers[w].pc.job.url != url
  }

  /** A worktree under a job of another repository. */
  ghost predicate Stray(s: State, id: string, url: string) {
    (url, id) in s.worktrees && id in s.jobs && Alien(s, id, url) && !Doomed(s, id, url)
  }

  /** A container that neither the job nor any call owns. */
  ghost predicate Loose(s: State, id: string, n: nat) {
    id in s.containers && s.containers[id] == n && !JobOwns(s, id) &&
    forall w | HandledBy(s, w, id) :: NumberOf(s.workers[w]) != n
  }

  lemma StraySettlesNot(s: State, id: string, url: string)
    requires Stray(s, id, url)
    ensures !Settled(s, id)
  {
  }

  lemma LooseSettlesNot(s: State, id: string, n: nat)
    requires Loose(s, id, n)
    ensures !Settled(s, id)
  {
  }

  ghost predicate Kept(s: State, t: State, id: string) {
    && (id in s.jobs ==> id in t.jobs)
    && (forall url :: Alien(s, id, url) ==> Alien(t, id, url))
    && (forall url :: Stray(s, id, url) ==> Stray(t, id, url))
    && (forall n: nat :: Loose(s, id, n) ==> Loose(t, id, n))
  }

  lemma QuitKeepsAlien(s: State, t: State, w: nat, id: string, url: string, pc: Pc, u: string)
    requires w in s.workers && s.workers[w] == Handling(id, url, pc) && QuitEffect(s, t, w, id, url, pc)
    ensures Alien(s, id, u) ==> Alien(t, id, u)
  {
    if Alien(s, id, u) {
      assert HandledBy(s, w, id);
      forall x | HandledBy(t, x, id) && t.workers[x].pc.Built? ensures t.workers[x].pc.job.url != u {
        assert HandledBy(s, x, id);
      }
    }
  }

  lemma QuitKeepsStray(s: State, t: State, w: nat, id: string, url: string, pc: Pc, u: string)
    requires w in s.workers && s.workers[w] == Handling(id, url, pc) && QuitEffect(s, t, w, id, url, pc)
    ensures Stray(s, id, u) ==> Stray(t, id, u)
  {
    QuitKeepsAlien(s, t, w, id, url, pc, u);
    hide Alien;
    assert s.workers[w] == Handling(id, url, Dropping) ==> Doomed(s, id, url);
    assert forall x | x in t.workers :: x in s.workers && s.workers[x] == t.workers[x];
  }

  lemma QuitKeepsLoose(s: State, t: State, w: nat, id: string, url: string, pc: Pc, n: nat)
    requires w in s.workers && s.workers[w] == Handling(id, url, pc) && QuitEffect(s, t, w, id, url, pc)
    ensures Loose(s, id, n) ==> Loose(t, id, n)
  {
    if Loose(s, id, n) {
      assert HandledBy(s, w, id) && NumberOf(s.workers[w]) != n;
      forall x | HandledBy(t, x, id) ensures NumberOf(t.workers[x]) != n { assert HandledBy(s, x, id); }
    }
  }

  lemma QuitKeeps(s: State, t: State, w: nat, id: string, url: string, pc: Pc)
    requires w in s.workers && s.workers[w] == Handling(id, url, pc) && QuitEffect(s, t, w, id, url, pc)
    ensures Kept(s, t, id)
  {
    forall u ensures (Alien(s, id, u) ==> Alien(t, id, u)) && (Stray(s, id, u) ==> Stray(t, id, u)) {
      QuitKeepsAlien(s, t, w, id, url, pc, u);
      QuitKeepsStray(s, t, w, id, url, pc, u);
    }
    forall n: nat ensures Loose(s, id, n) ==> Loose(t, id, n) { QuitKeepsLoose(s, t, w, id, url, pc, n); }
    hide Alien, Stray, Loose;
  }

  lemma KeptTrans(s: State, mid: State, t: State, id: string)
    requires Kept(s, mid, id) && Kept(mid, t, id)
    ensures Kept(s, t, id)
  {
    hide Alien, Stray, Loose;
  }

  // ---------- teardowns ----------

  /** The Teardown up to its last statement. */
  lemma Unload(s: State, w: nat) returns (t: State)
    requires w in s.workers && s.workers[w].Tearing?
    ensures var r := s.workers[w];
      && Reaches(s, t)
      && t.workers == s.workers[w := Tearing(r.id, r.job, Dropped)] && t.jobs == s.jobs && t.issued == s.issued
      && t.containers == (if r.stage == Loaded && r.job.mode == Dockerfile then Without(s, r.id, r.job.container) else s.containers)
    decreases if s.workers[w].stage == Loaded then 2 else if s.workers[w].stage == Stopped then 1 else 0
  {
    hide Reaches, Orderly, Handled, Offered;
    var r := s.workers[w];
    if r.stage == Dropped {
      ReachSelf(s);
      t := s;
      assert s.workers[w := r] == s.workers;
    } else {
      assert Orderly(s, Move(w, Ok)) by { NoUse(s, w); }
      ReachOne(s, w, Ok);
      t := Unload(Do(s, Move(w, Ok)), w);
      ReachTrans(s, Do(s, Move(w, Ok)), t);
    }
  }

  lemma NoUse(s: State, w: nat)
    ensures Orderly(s, Move(w, Ok))
  {
  }

  /** Its last statement. */
  lemma Unregister(s: State, w: nat) returns (t: State)
    requires w in s.workers && s.workers[w].Tearing? && s.workers[w].stage == Dropped
    ensures Reaches(s, t) && t == s.(workers := s.workers - {w}, jobs := s.jobs - {s.workers[w].id})
  {
    hide Reaches, Orderly, Handled, Offered;
    NoUse(s, w);
    ReachOne(s, w, Ok);
    t := Do(s, Move(w, Ok));
  }

  // ---------- everyone else finishes ----------

  function Others(s: State, id: string, keep: set<nat>): set<nat> {
    set w | w in s.workers && s.workers[w].id == id && w !in keep
  }

  /** All workers of the preview but the kept ones finish, calls by failing. */
  lemma Drain(s: State, id: string, keep: set<nat>) returns (t: State)
    ensures Reaches(s, t) && t.workers == s.workers - Others(s, id, keep)
    ensures (forall w | w in Others(s, id, keep) :: s.workers[w].Handling?) ==> Kept(s, t, id)
    decreases |Others(s, id, keep)|
  {
    hide Reaches, Kept, QuitEffect;
    if Others(s, id, keep) == {} {
      ReachSelf(s);
      t := s;
      assert Kept(s, s, id) by { KeptSelf(s, id); }
    } else {
      var w :| w in Others(s, id, keep);
      var mid := FinishOne(s, w, id);
      assert Others(mid, id, keep) == Others(s, id, keep) - {w};
      t := Drain(mid, id, keep);
      ReachTrans(s, mid, t);
      if forall x | x in Others(s, id, keep) :: s.workers[x].Handling? {
        assert forall x | x in Others(mid, id, keep) :: mid.workers[x].Handling?;
        KeptTrans(s, mid, t, id);
      }
    }
  }

  lemma KeptSelf(s: State, id: string)
    ensures Kept(s, s, id)
  {
  }

  lemma FinishOne(s: State, w: nat, id: string) returns (t: State)
    requires w in s.workers && s.workers[w].id == id
    ensures Reaches(s, t) && t.workers == s.workers - {w}
    ensures s.workers[w].Handling? ==> Kept(s, t, id)
  {
    hide Reaches, Kept;
    if s.workers[w].Handling? {
      t := Quit(s, w);
      QuitKeeps(s, t, w, id, s.workers[w].url, s.workers[w].pc);
    } else {
      var mid := Unload(s, w);
      t := Unregister(mid, w);
      ReachTrans(s, mid, t);
    }
  }

  // ---------- calls that may not begin ----------

  predicate AllHandle(s: State, id: string) {
    forall w | w in s.workers && s.workers[w].id == id :: s.workers[w].Handling?
  }

  predicate IsNew(s: State, h: nat, id: string, url: string) {
    h in s.workers && s.workers[h] == Handling(id, url, Passed) && url != ""
  }

  lemma StrandsFrom(s: State, t: State, id: string)
    requires Reaches(s, t) && Strandable(t, id)
    ensures Strandable(s, id)
  {
    hide Reaches, Quiet, Settled;
    var u :| Reaches(t, u) && Quiet(u, id) && !Settled(u, id);
    ReachTrans(s, t, u);
  }

  /** A build beside a Teardown that found its job. */
  lemma TeardownStrands(s: State, h: nat, w: nat, id: string, url: string)
    requires IsNew(s, h, id, url) && w in s.workers && s.workers[w].Tearing? && s.workers[w].id == id
    ensures Strandable(s, id)
  {
    hide Reaches, Kept, QuitEffect, WinEffect;
    var s1 := Drain(s, id, {h, w});
    var s2 := Unload(s1, w);
    ReachTrans(s, s1, s2);
    var s3;
    if id in s2.jobs {
      s3 := Slip(s2, h, id, url);
    } else if id in s2.containers {
      s3 := Quit(s2, h);
      assert s3.containers == s2.containers && s3.workers == s2.workers - {h} by { QuitPlain(s2, s3, h, id, url, Passed); }
    } else {
      s3 := Win(s2, h);
      assert id in s3.containers && s3.workers == s2.workers - {h} by { WinOwns(s2, s3, h); }
    }
    ReachTrans(s, s2, s3);
    var s4 := Unregister(s3, w);
    ReachTrans(s, s3, s4);
  }

  lemma QuitPlain(s: State, t: State, w: nat, id: string, url: string, pc: Pc)
    requires QuitEffect(s, t, w, id, url, pc) && !pc.Built? && !pc.Created? && !pc.Unstarted?
    ensures t.containers == s.containers && t.jobs == s.jobs && t.workers == s.workers - {w}
  {
  }

  lemma WinOwns(s: State, t: State, w: nat)
    requires w in s.workers && s.workers[w].Handling? && WinEffect(s, t, w, s.workers[w])
    ensures t.workers == s.workers - {w}
    ensures var id := s.workers[w].id;
      && id in t.jobs && t.jobs[id].url == s.workers[w].url && s.worktrees <= t.worktrees
      && (!Builds(s.workers[w], Compose) ==> JobOwns(t, id))
  {
  }

  /** A build beside a registered job of another repository. */
  lemma ForeignStrands(s: State, h: nat, id: string, url: string)
    requires IsNew(s, h, id, url) && AllHandle(s, id) && id in s.jobs && Alien(s, id, url)
    ensures Strandable(s, id)
  {
    hide Reaches;
    var s1 := Drain(s, id, {h});
    assert id in s1.jobs && Alien(s1, id, url);
    hide Kept, Alien;
    assert s1.jobs[id].url != url by { assert Alien(s1, id, url); AlienMeans(s1, id, url); }
    var s2 := Slip(s1, h, id, url);
    ReachTrans(s, s1, s2);
  }

  lemma AlienMeans(s: State, id: string, url: string)
    requires Alien(s, id, url) && id in s.jobs
    ensures s.jobs[id].url != url
  {
  }

  lemma WonIsForeign(s: State, t: State, g: nat, h: nat, id: string, url: string)
    requires IsNew(s, h, id, url) && AllHandle(s, id) && Alien(s, id, url)
    requires g in s.workers && g != h && s.workers[g].id == id && s.workers[g].Handling? && s.workers[g].url != url
    requires Reaches(s, t) && WinEffect(s, t, g, s.workers[g])
    ensures Strandable(s, id)
  {
    hide Reaches;
    assert IsNew(t, h, id, url) && AllHandle(t, id) && id in t.jobs;
    assert Alien(t, id, url) by {
      forall x | HandledBy(t, x, id) && t.workers[x].pc.Built? ensures t.workers[x].pc.job.url != url {
        assert HandledBy(s, x, id);
      }
    }
    ForeignStrands(t, h, id, url);
    StrandsFrom(s, t, id);
  }

  /** A build beside one of another repository that may still register its job. */
  lemma RivalStrands(s: State, g: nat, h: nat, id: string, url: string)
    requires IsNew(s, h, id, url) && AllHandle(s, id) && Alien(s, id, url)
    requires g in s.workers && g != h && s.workers[g].id == id && MayRegister(s.workers[g]) && s.workers[g].url != url
    requires s.workers[g].pc.Built? ==> s.workers[g].pc.job.url == s.workers[g].url
    requires NumberOf(s.workers[g]) >= 0 ==> id in s.containers && s.containers[id] == NumberOf(s.workers[g])
    ensures Strandable(s, id)
  {
    hide Reaches, WinEffect, Alien;
    if NumberOf(s.workers[g]) >= 0 || Builds(s.workers[g], Compose) {
      var t := Win(s, g);
      WonIsForeign(s, t, g, h, id, url);
    } else {
      var s1 := Drain(s, id, {g, h});
      assert Alien(s1, id, url);
      hide Kept;
      if id in s1.jobs {
        ForeignStrands(s1, h, id, url);
      } else if id in s1.containers {
        BothQuit(s1, g, h, id);
      } else {
        var t := Win(s1, g);
        WonIsForeign(s1, t, g, h, id, url);
      }
      StrandsFrom(s, s1, id);
    }
  }

  lemma BothQuit(s: State, g: nat, h: nat, id: string)
    requires g in s.workers && h in s.workers && g != h && s.workers[g].Handling? && s.workers[h].Handling?
    requires forall w | w in s.workers && s.workers[w].id == id :: w in {g, h}
    requires NumberOf(s.workers[g]) < 0 && NumberOf(s.workers[h]) < 0
    requires !s.workers[g].pc.Built? && !s.workers[h].pc.Built?
    requires id !in s.jobs && id in s.containers
    ensures Strandable(s, id)
  {
    hide Reaches, QuitEffect;
    var s1 := Quit(s, g);
    QuitPlain(s, s1, g, s.workers[g].id, s.workers[g].url, s.workers[g].pc);
    var s2 := Quit(s1, h);
    QuitPlain(s1, s2, h, s.workers[h].id, s.workers[h].url, s.workers[h].pc);
    ReachTrans(s, s1, s2);
  }

  /** The call is about to remove the container that is there. */
  predicate RemovesOwn(s: State, x: nat, id: string)
    requires x in s.workers && id in s.containers
  { s.workers[x].Handling? && s.workers[x].id == id && s.workers[x].pc == Unstarted(s.containers[id]) }

  /** Nobody but the new call builds, and a container still there is being removed. */
  predicate OnlyLeftovers(s: State, h: nat, id: string) {
    && (forall w | w in s.workers && w != h && s.workers[w].id == id ::
          s.workers[w].Handling? && !s.workers[w].pc.Built? && !Builds(s.workers[w], Compose))
    && (id in s.containers ==> exists x | x in s.workers :: x != h && RemovesOwn(s, x, id))
  }

  /** A build beside the clean-up of one of another repository that still has its worktree. */
  lemma LeftoverStrands(s: State, h: nat, id: string, url: string, v: string)
    requires IsNew(s, h, id, url) && OnlyLeftovers(s, h, id) && id !in s.jobs
    requires (v, id) in s.worktrees && v != url && !Doomed(s, id, v)
    ensures Strandable(s, id)
  {
    hide Reaches, WinEffect;
    var s1 := s;
    if id in s.containers {
      var x :| x in s.workers && x != h && RemovesOwn(s, x, id);
      s1 := Advance(s, x, Ok);
      assert s1.workers == s.workers[x := Handling(id, s.workers[x].url, Over(true))];
      assert !Doomed(s1, id, v);
    } else {
      ReachSelf(s);
    }
    assert OnlyLeftovers(s1, h, id) && id !in s1.containers;
    LeftoverWins(s1, h, id, url, v);
    StrandsFrom(s, s1, id);
  }

  lemma LeftoverWins(s: State, h: nat, id: string, url: string, v: string)
    requires IsNew(s, h, id, url) && OnlyLeftovers(s, h, id) && id !in s.jobs && id !in s.containers
    requires (v, id) in s.worktrees && v != url && !Doomed(s, id, v)
    ensures Strandable(s, id)
  {
    hide Reaches, WinEffect;
    var t := Win(s, h);
    WinOwns(s, t, h);
    assert Stray(t, id, v) by {
      assert forall x | x in t.workers :: x in s.workers && t.workers[x] == s.workers[x];
    }
    assert AllHandle(t, id);
    hide Stray, Doomed;
    var u := Drain(t, id, {});
    StraySettlesNot(u, id, v);
    ReachTrans(s, t, u);
  }

  lemma BeginStrands(s: State, h: nat, id: string, url: string)
    requires Inv(s) && Can(s, Begin(h, id, url)) && !Orderly(s, Begin(h, id, url))
    ensures Strandable(Do(s, Begin(h, id, url)), id)
  {
    hide Strandable, WorkersOk, PairsOk, TreesOwned, ContainerOwned, ContainerKept, MarkOwned, NumbersOld;
    var t := Do(s, Begin(h, id, url));
    assert Tidy(s, id);
    if w :| w in s.workers && s.workers[w].id == id && s.workers[w].Tearing? {
      TeardownStrands(t, h, w, id, url);
    } else if id in s.jobs {
      JobIsAlien(s, h, id, url);
      ForeignStrands(t, h, id, url);
    } else if g :| g in s.workers && s.workers[g].id == id && MayRegister(s.workers[g]) && s.workers[g].url != url {
      RivalIsAlien(s, h, g, id, url);
      RivalStrands(t, g, h, id, url);
    } else {
      var g :| g in s.workers && s.workers[g].id == id && Claims(s, s.workers[g]) && s.workers[g].url != url;
      OnlyLeftoversThere(s, h, g, id, url);
      LeftoverStrands(t, h, id, url, s.workers[g].url);
    }
  }

  lemma ClaimAgrees(s: State, w: nat, id: string)
    requires Tidy(s, id) && w in s.workers && s.workers[w].id == id
    ensures WorkerOk(s, s.workers[w])
    ensures forall v | v in s.workers && v != w && s.workers[v].id == id :: PairOk(s, s.workers[v], s.workers[w])
  {
    hide WorkerOk, PairOk;
  }

  lemma JobIsAlien(s: State, h: nat, id: string, url: string)
    requires Tidy(s, id) && Can(s, Begin(h, id, url)) && !Orderly(s, Begin(h, id, url)) && id in s.jobs && AllHandle(s, id)
    ensures Alien(Do(s, Begin(h, id, url)), id, url)
  {
    hide Tidy;
    var t := Do(s, Begin(h, id, url));
    if s.jobs[id].url == url {
      var v :| v in s.workers && s.workers[v].id == id && Claims(s, s.workers[v]) && s.workers[v].url != url;
      ClaimAgrees(s, v, id);
    }
    forall x | HandledBy(t, x, id) && t.workers[x].pc.Built? ensures t.workers[x].pc.job.url != url {
      ClaimAgrees(s, x, id);
    }
  }

  lemma RivalIsAlien(s: State, h: nat, g: nat, id: string, url: string)
    requires Tidy(s, id) && Can(s, Begin(h, id, url)) && url != "" && id !in s.jobs && AllHandle(s, id)
    requires g in s.workers && s.workers[g].id == id && MayRegister(s.workers[g]) && s.workers[g].url != url
    ensures Alien(Do(s, Begin(h, id, url)), id, url)
    ensures s.workers[g].pc.Built? ==> s.workers[g].pc.job.url == s.workers[g].url
    ensures NumberOf(s.workers[g]) >= 0 ==> id in s.containers && s.containers[id] == NumberOf(s.workers[g])
  {
    hide Tidy;
    var t := Do(s, Begin(h, id, url));
    ClaimAgrees(s, g, id);
    forall x | HandledBy(t, x, id) && t.workers[x].pc.Built? ensures t.workers[x].pc.job.url != url {
      ClaimAgrees(s, x, id);
      assert x != g ==> PairOk(s, s.workers[x], s.workers[g]);
    }
  }

  lemma OnlyLeftoversThere(s: State, h: nat, g: nat, id: string, url: string)
    requires Tidy(s, id) && Can(s, Begin(h, id, url)) && id !in s.jobs && AllHandle(s, id)
    requires forall w | w in s.workers && s.workers[w].id == id && MayRegister(s.workers[w]) :: s.workers[w].url == url
    requires g in s.workers && s.workers[g].id == id && Claims(s, s.workers[g]) && s.workers[g].url != url
    ensures var t := Do(s, Begin(h, id, url)); var v := s.workers[g].url;
      OnlyLeftovers(t, h, id) && (v, id) in t.worktrees && !Doomed(t, id, v)
  {
    var t := Do(s, Begin(h, id, url));
    ClaimAgrees(s, g, id);
    forall w | w in s.workers && s.workers[w].id == id ensures !MayRegister(s.workers[w]) {
      if w != g { assert PairOk(s, s.workers[w], s.workers[g]); }
    }
    forall w | w in s.workers && s.workers[w].id == id ensures WorkerOk(s, s.workers[w]) { ClaimAgrees(s, w, id); }
    if id in s.containers {
      assert ContainerOwned(s, id);
      var x :| HandledBy(s, x, id) && NumberOf(s.workers[x]) == s.containers[id];
      assert RemovesOwn(t, x, id);
    }
    assert !Doomed(t, id, s.workers[g].url) by {
      assert forall x | x in t.workers && x != h :: x in s.workers && t.workers[x] == s.workers[x];
    }
  }

  // ---------- teardowns that may not find their job ----------

  /** A Teardown beside a call that has its container. */
  lemma LoadedOverContainer(s: State, w: nat, h: nat, id: string)
    requires w in s.workers && s.workers[w].Tearing? && s.workers[w].id == id
    requires h in s.workers && s.workers[h].Handling? && s.workers[h].id == id && CanWin(s, h) && NumberOf(s.workers[h]) >= 0
    requires s.workers[w].job.mode == Dockerfile ==> s.workers[w].job.container != NumberOf(s.workers[h])
    requires forall v | v in s.workers && v != w && v != h && s.workers[v].id == id ::
      s.workers[v].Handling? && NumberOf(s.workers[v]) != NumberOf(s.workers[h])
    ensures Strandable(s, id)
  {
    hide Reaches, WinEffect;
    var s1 := Unload(s, w);
    assert CanWin(s1, h);
    var s2 := Win(s1, h);
    assert s2.workers == s1.workers - {h} && JobOwns(s2, id) && s2.jobs[id].container == NumberOf(s.workers[h]) by {
      WinOwns(s1, s2, h);
      WinNumber(s1, s2, h);
    }
    ReachTrans(s, s1, s2);
    var s3 := Unregister(s2, w);
    ReachTrans(s, s2, s3);
    assert Loose(s3, id, NumberOf(s.workers[h]));
    hide Loose;
    var s4 := Drain(s3, id, {});
    LooseSettlesNot(s4, id, NumberOf(s.workers[h]));
    ReachTrans(s, s3, s4);
  }

  lemma WinNumber(s: State, t: State, w: nat)
    requires w in s.workers && s.workers[w].Handling? && WinEffect(s, t, w, s.workers[w]) && !Builds(s.workers[w], Compose)
    ensures JobOwns(t, s.workers[w].id)
    ensures t.jobs[s.workers[w].id].container == if NumberOf(s.workers[w]) >= 0 then NumberOf(s.workers[w]) else s.issued
  {
  }

  /** A Teardown beside a call that has none yet. */
  lemma LoadedOverBuild(s: State, w: nat, h: nat, id: string)
    requires w in s.workers && s.workers[w].Tearing? && s.workers[w].id == id
    requires h in s.workers && s.workers[h].id == id && MayAdd(s.workers[h]) && NumberOf(s.workers[h]) < 0
    ensures Strandable(s, id)
  {
    hide Reaches, WinEffect, QuitEffect, Kept;
    var s1 := Drain(s, id, {h, w});
    var s2 := Unload(s1, w);
    ReachTrans(s, s1, s2);
    var s3;
    if id in s2.containers {
      s3 := Quit(s2, h);
      QuitPlain(s2, s3, h, id, s.workers[h].url, s.workers[h].pc);
    } else {
      s3 := Win(s2, h);
      WinOwns(s2, s3, h);
    }
    ReachTrans(s, s2, s3);
    var s4 := Unregister(s3, w);
    ReachTrans(s, s3, s4);
  }

  lemma LoadStrands(s: State, w: nat, id: string)
    requires Inv(s) && Can(s, Load(w, id)) && !Orderly(s, Load(w, id))
    ensures Strandable(Do(s, Load(w, id)), id)
  {
    hide Strandable, WorkersOk, PairsOk, TreesOwned, ContainerOwned, ContainerKept, MarkOwned, NumbersOld, Claims;
    assert Tidy(s, id);
    var t := Do(s, Load(w, id));
    var h :| h in s.workers && s.workers[h].id == id && MayAdd(s.workers[h]);
    if NumberOf(s.workers[h]) < 0 {
      LoadedOverBuild(t, w, h, id);
    } else {
      ClaimAgrees(s, h, id);
      LoadedOverContainer(t, w, h, id);
    }
  }

  // ---------- builds in two modes ----------

  /** A compose job about to be registered over a Dockerfile job. */
  lemma ComposeStrands(s: State, k: nat, id: string)
    requires AllHandle(s, id) && JobOwns(s, id)
    requires k in s.workers && s.workers[k].Handling? && s.workers[k].id == id && Builds(s.workers[k], Compose) && CanWin(s, k)
    requires forall v | v in s.workers && v != k && s.workers[v].id == id :: NumberOf(s.workers[v]) != s.containers[id]
    ensures Strandable(s, id)
  {
    hide Reaches;
    var t := Win(s, k);
    assert Loose(t, id, s.containers[id]);
    assert AllHandle(t, id);
    var n := s.containers[id];
    hide Loose, WinEffect;
    var u := Drain(t, id, {});
    LooseSettlesNot(u, id, n);
    ReachTrans(s, t, u);
  }

  /** What the calls of a preview know of each other, without a Teardown. */
  ghost predicate Sound(s: State, id: string) {
    && AllHandle(s, id)
    && (forall v, w | v in s.workers && w in s.workers && v != w && s.workers[v].id == id && s.workers[w].id == id ::
          NumberOf(s.workers[v]) == NumberOf(s.workers[w]) ==> NumberOf(s.workers[v]) == -1)
    && (forall w | w in s.workers && s.workers[w].id == id :: SoundCall(s, s.workers[w]))
    && ContainerOwned(s, id)
  }

  predicate SoundCall(s: State, h: Worker)
    requires h.Handling?
  {
    && NumberOf(h) < s.issued
    && (HasTree(h.pc) ==> h.url != "")
    && (h.pc.Built? ==> h.pc.job.url == h.url)
    && (Builds(h, Dockerfile) && NumberOf(h) >= 0 ==> h.id in s.containers && s.containers[h.id] == NumberOf(h))
    && (JobOwns(s, h.id) ==> NumberOf(h) != s.containers[h.id])
  }

  /** The Dockerfile build registers first, then the compose build. */
  lemma DockerfileThenCompose(s: State, d: nat, k: nat, id: string)
    requires Sound(s, id) && d != k
    requires d in s.workers && s.workers[d].id == id && Builds(s.workers[d], Dockerfile) && CanWin(s, d)
    requires k in s.workers && s.workers[k].id == id && Builds(s.workers[k], Compose)
    ensures Strandable(s, id)
  {
    hide Reaches, ContainerOwned;
    var t := Win(s, d);
    WinNumber(s, t, d);
    assert SoundCall(s, s.workers[k]) && SoundCall(s, s.workers[d]);
    forall v | v in t.workers && v != k && t.workers[v].id == id ensures NumberOf(t.workers[v]) != t.containers[id] {
      assert v in s.workers && v != d && t.workers[v] == s.workers[v];
      assert SoundCall(s, s.workers[v]);
    }
    assert AllHandle(t, id) && CanWin(t, k);
    hide WinEffect;
    ComposeStrands(t, k, id);
    StrandsFrom(s, t, id);
  }

  lemma ModesStrand(s: State, d: nat, k: nat, id: string)
    requires Sound(s, id) && d != k
    requires d in s.workers && s.workers[d].id == id && Builds(s.workers[d], Dockerfile)
    requires k in s.workers && s.workers[k].id == id && Builds(s.workers[k], Compose)
    ensures Strandable(s, id)
  {
    assert SoundCall(s, s.workers[d]) && SoundCall(s, s.workers[k]);
    if JobOwns(s, id) {
      JobThenCompose(s, k, id);
    } else if NumberOf(s.workers[d]) >= 0 || id !in s.containers {
      DockerfileThenCompose(s, d, k, id);
    } else {
      var x :| HandledBy(s, x, id) && NumberOf(s.workers[x]) == s.containers[id];
      assert SoundCall(s, s.workers[x]);
      if Builds(s.workers[x], Dockerfile) {
        DockerfileThenCompose(s, x, k, id);
      } else {
        RemovedFirst(s, x, d, k, id);
      }
    }
  }

  lemma JobThenCompose(s: State, k: nat, id: string)
    requires Sound(s, id) && JobOwns(s, id)
    requires k in s.workers && s.workers[k].id == id && Builds(s.workers[k], Compose)
    ensures Strandable(s, id)
  {
    forall v | v in s.workers && v != k && s.workers[v].id == id ensures NumberOf(s.workers[v]) != s.containers[id] {
      assert SoundCall(s, s.workers[v]);
    }
    assert SoundCall(s, s.workers[k]);
    ComposeStrands(s, k, id);
  }

  /** The name of the container is taken by one that another call is about to remove. */
  lemma RemovedFirst(s: State, x: nat, d: nat, k: nat, id: string)
    requires Sound(s, id) && d != k && !JobOwns(s, id)
    requires d in s.workers && s.workers[d].id == id && s.workers[d].Handling? && s.workers[d].pc == Chosen(Dockerfile)
    requires k in s.workers && s.workers[k].id == id && Builds(s.workers[k], Compose)
    requires x in s.workers && id in s.containers && RemovesOwn(s, x, id)
    ensures Strandable(s, id)
  {
    hide Reaches;
    var t := Advance(s, x, Ok);
    assert t.workers == s.workers[x := Handling(id, s.workers[x].url, Over(true))];
    assert id !in t.containers && t.jobs == s.jobs && t.issued == s.issued;
    hide Delta;
    assert SoundCall(s, s.workers[d]) && SoundCall(s, s.workers[x]);
    forall v | v in t.workers && t.workers[v].id == id ensures t.workers[v].Handling? && SoundCall(t, t.workers[v]) {
      assert SoundCall(s, s.workers[v]);
      assert v != x ==> NumberOf(s.workers[v]) != NumberOf(s.workers[x]);
    }
    assert Sound(t, id);
    DockerfileThenCompose(t, d, k, id);
    StrandsFrom(s, t, id);
  }

  lemma AddsBesideCalls(s: State, w: nat, id: string)
    requires Tidy(s, id) && w in s.workers && s.workers[w].id == id && MayAdd(s.workers[w])
    ensures AllHandle(s, id) && (JobHasContainer(s, id) ==> JobOwns(s, id))
  {
    forall v | v in s.workers && s.workers[v].id == id ensures s.workers[v].Handling? {
      assert v != w ==> PairOk(s, s.workers[v], s.workers[w]);
    }
    hide WorkersOk, PairsOk, TreesOwned, MarkOwned;
  }

  lemma UseIsSoundCall(s: State, w: nat, m: Mode, id: string, v: nat)
    requires WorkersOk(s, id) && w in s.workers && s.workers[w].Handling? && s.workers[w].id == id && s.workers[w].pc == CheckedOut
    requires v in s.workers && s.workers[v].id == id && s.workers[v].Handling?
    ensures var t := To(s, w, Handling(id, s.workers[w].url, Chosen(m)));
      SoundCall(t, t.workers[v]) && NumberOf(t.workers[v]) == NumberOf(s.workers[v])
  {
    assert WorkerOk(s, s.workers[v]);
    hide Claims, Doomed;
  }

  lemma UseIsSound(s: State, w: nat, m: Mode, id: string)
    requires Tidy(s, id) && AllHandle(s, id)
    requires w in s.workers && s.workers[w].Handling? && s.workers[w].id == id && s.workers[w].pc == CheckedOut
    ensures Sound(To(s, w, Handling(id, s.workers[w].url, Chosen(m))), id)
  {
    var t := To(s, w, Handling(id, s.workers[w].url, Chosen(m)));
    forall v | v in s.workers && s.workers[v].id == id
      ensures SoundCall(t, t.workers[v]) && NumberOf(t.workers[v]) == NumberOf(s.workers[v])
    {
      UseIsSoundCall(s, w, m, id, v);
    }
    hide WorkersOk, TreesOwned, MarkOwned, ContainerKept, SoundCall, NumberOf, Builds, Claims;
    forall u, v | u in s.workers && v in s.workers && u != v && s.workers[u].id == id && s.workers[v].id == id
      ensures NumberOf(s.workers[u]) == NumberOf(s.workers[v]) ==> NumberOf(s.workers[u]) == -1
    {
      assert PairOk(s, s.workers[u], s.workers[v]);
    }
    assert ContainerOwned(t, id) by { UseOwned(s, t, w, id); }
  }

  lemma UseOwned(s: State, t: State, w: nat, id: string)
    requires ContainerOwned(s, id) && w in s.workers && w in t.workers && t == To(s, w, t.workers[w])
    requires s.workers[w].id == id == t.workers[w].id && NumberOf(t.workers[w]) == NumberOf(s.workers[w]) == -1
    requires s.workers[w].Handling? && t.workers[w].Handling?
    ensures ContainerOwned(t, id)
  {
    if id in s.containers && !JobOwns(s, id) {
      var x :| HandledBy(s, x, id) && NumberOf(s.workers[x]) == s.containers[id];
      assert HandledBy(t, x, id) && NumberOf(t.workers[x]) == NumberOf(s.workers[x]);
    }
  }

  lemma UseMayAdd(s: State, w: nat, m: Mode)
    requires Can(s, Move(w, Use(m))) && Tidy(s, s.workers[w].id)
    ensures s.workers[w].Handling? && s.workers[w].pc == CheckedOut && MayAdd(s.workers[w])
  {
    ClaimAgrees(s, w, s.workers[w].id);
    hide Tidy;
  }

  lemma UseStrands(s: State, w: nat, m: Mode)
    requires Inv(s) && Can(s, Move(w, Use(m))) && !Orderly(s, Move(w, Use(m)))
    ensures Strandable(Do(s, Move(w, Use(m))), s.workers[w].id)
  {
    hide Strandable, Sound;
    var id := s.workers[w].id;
    var t := Do(s, Move(w, Use(m)));
    assert Tidy(s, id);
    hide Tidy;
    UseMayAdd(s, w, m);
    AddsBesideCalls(s, w, id);
    UseIsSound(s, w, m, id);
    if m == Compose && JobHasContainer(s, id) {
      JobThenCompose(t, w, id);
    } else {
      var v :| v in s.workers && v != w && s.workers[v].id == id && Builds(s.workers[v], if m == Compose then Dockerfile else Compose);
      if m == Compose { ModesStrand(t, v, w, id); } else { ModesStrand(t, w, v, id); }
    }
  }

  // ---------- exactly orderly ----------

  /** As long as callers are orderly, nothing can be stranded by what is already under way. */
  lemma TidyStrandsNot(s: State, id: string)
    requires Inv(s)
    ensures !Strandable(s, id)
  {
    hide Inv, Quiet, Settled, Orderly, Can, Do;
    if Strandable(s, id) {
      var t :| Reaches(s, t) && Quiet(t, id) && !Settled(t, id);
      var run :| Possible(s, run) && OrderlyRun(s, run) && OnlyMoves(run) && After(s, run) == t;
      InvAlong(s, run);
      InvSettles(t, id);
    }
  }

  /** Which overlaps break it: after an orderly run, a call that begins, a Teardown that looks for its job or a
      build that chooses its mode meets the orderly condition exactly when the workers then under way cannot
      end with a worktree or a container left over. */
  lemma OrderlyIff(s: State, run: seq<Action>, a: Action)
    requires Start(s) && Possible(s, run) && OrderlyRun(s, run) && Can(After(s, run), a) && !a.Pause?
    ensures Orderly(After(s, run), a) <==> !Strandable(Do(After(s, run), a), IdOf(After(s, run), a))
  {
    InvAlways(s, run);
    hide Possible, OrderlyRun, Strandable, Inv, Start;
    var t := After(s, run);
    if Orderly(t, a) {
      StepKeepsInv(t, a);
      TidyStrandsNot(Do(t, a), IdOf(t, a));
    } else {
      match a
      case Begin(h, id, url) => BeginStrands(t, h, id, url);
      case Load(w, id) => LoadStrands(t, w, id);
      case Move(w, c) => UseStrands(t, w, c.mode);
    }
  }
}
