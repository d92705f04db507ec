/** Build secrets of all repositories, and the admin form's replacement of one repository's set. */
module SecretStore {
  import opened SecretText
  import opened Dotenv
  import opened Sets

  class RepoSecretStore {
    /** Rows keyed by (repository, key); repository names arrive in lower case. */
    var values: map<(string, string), string>
    /** Number of successful writes so far. */
    var upserts: nat
    var deletes: nat
    /** Whether each of the next writes fails; past the end they succeed. */
    var faults: seq<bool>

    constructor (faults: seq<bool>)
      ensures values == map[] && upserts == deletes == 0 && this.faults == faults
    {
      values, upserts, deletes, this.faults := map[], 0, 0, faults;
    }

    function Of(repo: string): Env
      reads this
    {
      map rk | rk in values && rk.0 == repo :: rk.1 := values[rk]
    }

    lemma OfMeans(repo: string)
      ensures forall k :: k in Of(repo) <==> (repo, k) in values
      ensures forall k | k in Of(repo) && (repo, k) in values :: Of(repo)[k] == values[(repo, k)]
    {
      forall k ensures k in Of(repo) <==> (repo, k) in values {
        if (repo, k) in values { assert (repo, k).0 == repo && (repo, k).1 == k; }
      }
    }

    /** Rows of one repository, by key. */
    method List(repo: string) returns (rows: Rows)
      ensures ListsEnv(rows, Of(repo))
      ensures forall i, j | 0 <= i < j < |rows| :: StrLess(rows[i].0, rows[j].0)
      ensures forall i | 0 <= i < |rows| :: (repo, rows[i].0) in values && values[(repo, rows[i].0)] == rows[i].1
      ensures forall k | (repo, k) in values :: exists i | 0 <= i < |rows| :: rows[i].0 == k
    {
      OfMeans(repo);
      var keys := Collect(Of(repo).Keys);
      var sorted := SortStrings(keys);
      var env := Of(repo);
      assert forall k | k in sorted :: k in env;
      assert forall i | 0 <= i < |sorted| :: sorted[i] in sorted;
      rows := seq(|sorted|, i requires 0 <= i < |sorted| => (sorted[i], env[sorted[i]]));
      forall i, j | 0 <= i < j < |rows| ensures rows[i].0 != rows[j].0 { LessTotal(sorted[i], sorted[j]); }
      forall k | k in env ensures exists i :: 0 <= i < |rows| && rows[i].0 == k {
        var i :| 0 <= i < |sorted| && sorted[i] == k;
        assert rows[i].0 == k;
      }
    }

    method Faulty() returns (fails: bool)
      modifies this`faults
      ensures old(faults) == [] ==> !fails && faults == []
      ensures old(faults) != [] ==> fails == old(faults)[0] && faults == old(faults)[1..]
    {
      fails := false;
      if faults != [] { fails, faults := faults[0], faults[1..]; }
    }

    method Upsert(repo: string, key: string, value: string) returns (ok: bool)
      modifies this
      ensures ok ==> values == old(values)[(repo, key) := value] && upserts == old(upserts) + 1
      ensures !ok ==> values == old(values) && upserts == old(upserts) && old(faults) != []
      ensures deletes == old(deletes) && (old(faults) == [] ==> faults == [])
    {
      var fails := Faulty();
      if fails { return false; }
      values, upserts, ok := values[(repo, key) := value], upserts + 1, true;
    }

    method Delete(repo: string, key: string) returns (ok: bool)
      modifies this
      ensures ok ==> values == old(values) - {(repo, key)} && deletes == old(deletes) + 1
      ensures !ok ==> values == old(values) && deletes == old(deletes) && old(faults) != []
      ensures upserts == old(upserts) && (old(faults) == [] ==> faults == [])
    {
      var fails := Faulty();
      if fails { return false; }
      values, deletes, ok := values - {(repo, key)}, deletes + 1, true;
    }
  }

  // ---------- set-replace ----------

  datatype Cell = Absent | Present(value: string)

  function Lookup(env: Env, k: string): Cell { if k in env then Present(env[k]) else Absent }

  function CellAt(values: map<(string, string), string>, repo: string, k: string): Cell {
    if (repo, k) in values then Present(values[(repo, k)]) else Absent
  }

  /** Keys in `done` hold their target; every other cell of the table is as it was. */
  ghost predicate Progress(before: map<(string, string), string>, after: map<(string, string), string>,
                           repo: string, target: Env, done: set<string>) {
    && (forall k | k in done :: CellAt(after, repo, k) == Lookup(target, k))
    && (forall r, k | r != repo || k !in done :: CellAt(after, r, k) == CellAt(before, r, k))
  }

  function AddedKeys(current: Env, target: Env): set<string> { target.Keys - current.Keys }

  function UpdatedKeys(current: Env, target: Env): set<string> {
    set k | k in target && k in current && current[k] != target[k]
  }

  function RemovedKeys(current: Env, target: Env): set<string> { current.Keys - target.Keys }

  datatype DiffResult = Saved(added: nat, updated: nat, removed: nat) | Failed

  ghost predicate Mirrors(values: map<(string, string), string>, repo: string, env: Env) {
    forall k :: CellAt(values, repo, k) == Lookup(env, k)
  }

  lemma OfMirrors(store: RepoSecretStore, repo: string)
    ensures Mirrors(store.values, repo, store.Of(repo))
  {
    forall k ensures CellAt(store.values, repo, k) == Lookup(store.Of(repo), k) {
      if (repo, k) in store.values { assert (repo, k).0 == repo && (repo, k).1 == k; }
    }
  }

  lemma MirrorIsUnique(values: map<(string, string), string>, repo: string, a: Env, b: Env)
    requires Mirrors(values, repo, a) && Mirrors(values, repo, b)
    ensures a == b
  {
    forall k ensures Lookup(a, k) == Lookup(b, k) { assert CellAt(values, repo, k) == Lookup(a, k); }
    assert forall k :: k in a <==> Lookup(a, k).Present?;
    assert forall k :: k in b <==> Lookup(b, k).Present?;
    assert a.Keys == b.Keys;
    forall k | k in a ensures a[k] == b[k] { assert Lookup(a, k) == Lookup(b, k); }
  }

  method UpsertOne(store: RepoSecretStore, repo: string, target: Env, k: string,
                   ghost before: map<(string, string), string>, ghost done: set<string>)
    returns (ok: bool)
    requires k in target && Progress(before, store.values, repo, target, done)
    modifies store
    ensures Progress(before, store.values, repo, target, if ok then done + {k} else done)
    ensures ok ==> store.upserts == old(store.upserts) + 1 && store.deletes == old(store.deletes)
    ensures old(store.faults) == [] ==> ok && store.faults == []
  {
    WriteProgress(before, store.values, repo, target, done, k);
    hide Progress;
    ok := store.Upsert(repo, k, target[k]);
  }

  method DeleteOne(store: RepoSecretStore, repo: string, target: Env, k: string,
                   ghost before: map<(string, string), string>, ghost done: set<string>)
    returns (ok: bool)
    requires k !in target && Progress(before, store.values, repo, target, done)
    modifies store
    ensures Progress(before, store.values, repo, target, if ok then done + {k} else done)
    ensures ok ==> store.deletes == old(store.deletes) + 1 && store.upserts == old(store.upserts)
    ensures old(store.faults) == [] ==> ok && store.faults == []
  {
    DropProgress(before, store.values, repo, target, done, k);
    hide Progress;
    ok := store.Delete(repo, k);
  }

  /** The first loop: write every wanted key whose stored value differs. */
  method UpsertAll(store: RepoSecretStore, repo: string, current: Env, target: Env, keys: seq<string>)
    returns (ok: bool, added: nat, updated: nat, ghost done: set<string>)
    requires Mirrors(store.values, repo, current) && SortsSet(target.Keys, keys)
    modifies store
    ensures Progress(old(store.values), store.values, repo, target, done)
    ensures ok ==>
      && done == target.Keys
      && added == |AddedKeys(current, target)| && updated == |UpdatedKeys(current, target)|
      && store.upserts == old(store.upserts) + added + updated && store.deletes == old(store.deletes)
    ensures old(store.faults) == [] ==> ok && store.faults == []
  {
    hide Progress, Mirrors, Counted, SortsSet, Increasing, StrLess, AddedKeys, UpdatedKeys;
    added, updated, done := 0, 0, {};
    var i := 0;
    ghost var untouched := store.values;
    NothingDone(untouched, repo, current, target, keys);
    while i < |keys|
      invariant 0 <= i <= |keys|
      invariant Counted(current, target, keys, i, done, added, updated)
      invariant Progress(untouched, store.values, repo, target, done)
      invariant store.upserts == old(store.upserts) + added + updated && store.deletes == old(store.deletes)
      invariant old(store.faults) == [] ==> store.faults == []
    {
      var k := keys[i];
      CountKey(current, target, keys, i, done, added, updated);
      StillOld(untouched, store.values, repo, current, target, done, k);
      if k !in current || current[k] != target[k] {
        var wrote := UpsertOne(store, repo, target, k, untouched, done);
        if !wrote { return false, added, updated, done; }
        if k in current { updated := updated + 1; } else { added := added + 1; }
      } else {
        KeepProgress(untouched, store.values, repo, target, done, k);
      }
      done := done + {k};
      i := i + 1;
    }
    AllCounted(current, target, keys, done, added, updated);
    ok := true;
  }

  /** After the first `i` keys: which are done, and how many of them were new or changed. */
  ghost predicate Counted(current: Env, target: Env, keys: seq<string>, i: nat, done: set<string>, added: nat, updated: nat) {
    && i <= |keys| && SortsSet(target.Keys, keys) && done == Firsts(keys, i)
    && added == |AddedKeys(current, target) * done|
    && updated == |UpdatedKeys(current, target) * done|
  }

  lemma NothingDone(values: map<(string, string), string>, repo: string, current: Env, target: Env, keys: seq<string>)
    requires SortsSet(target.Keys, keys)
    ensures Counted(current, target, keys, 0, {}, 0, 0)
    ensures Progress(values, values, repo, target, {})
  {
  }

  lemma CountKey(current: Env, target: Env, keys: seq<string>, i: nat, done: set<string>, added: nat, updated: nat)
    requires Counted(current, target, keys, i, done, added, updated) && i < |keys|
    ensures var k := keys[i];
      && k in target && k !in done
      && Counted(current, target, keys, i + 1, done + {k},
                 added + (if k in current then 0 else 1),
                 updated + (if k in current && current[k] != target[k] then 1 else 0))
  {
    var k := keys[i];
    assert k in keys;
    SortedIsNew(keys, i);
    NextFirst(keys, i);
    CountOne(AddedKeys(current, target), done, k);
    CountOne(UpdatedKeys(current, target), done, k);
    hide Firsts, StrLess, Increasing;
  }

  lemma AllCounted(current: Env, target: Env, keys: seq<string>, done: set<string>, added: nat, updated: nat)
    requires Counted(current, target, keys, |keys|, done, added, updated)
    ensures done == target.Keys
    ensures added == |AddedKeys(current, target)| && updated == |UpdatedKeys(current, target)|
  {
    assert forall k :: k in done <==> k in keys;
    assert done == target.Keys;
    assert AddedKeys(current, target) <= target.Keys && UpdatedKeys(current, target) <= target.Keys;
    hide AddedKeys, UpdatedKeys, Firsts, SortsSet;
    WithinAll(AddedKeys(current, target), target.Keys);
    WithinAll(UpdatedKeys(current, target), target.Keys);
  }

  lemma StillOld(before: map<(string, string), string>, now: map<(string, string), string>, repo: string,
                 current: Env, target: Env, done: set<string>, k: string)
    requires Mirrors(before, repo, current) && Progress(before, now, repo, target, done) && k !in done
    ensures CellAt(now, repo, k) == Lookup(current, k)
  {
    assert CellAt(before, repo, k) == Lookup(current, k);
  }

  lemma WriteProgress(before: map<(string, string), string>, mid: map<(string, string), string>, repo: string,
                      target: Env, done: set<string>, k: string)
    requires Progress(before, mid, repo, target, done) && k in target
    ensures Progress(before, mid[(repo, k) := target[k]], repo, target, done + {k})
  {
  }

  lemma DropProgress(before: map<(string, string), string>, mid: map<(string, string), string>, repo: string,
                     target: Env, done: set<string>, k: string)
    requires Progress(before, mid, repo, target, done) && k !in target
    ensures Progress(before, mid - {(repo, k)}, repo, target, done + {k})
  {
  }

  lemma KeepProgress(before: map<(string, string), string>, mid: map<(string, string), string>, repo: string,
                     target: Env, done: set<string>, k: string)
    requires Progress(before, mid, repo, target, done) && CellAt(mid, repo, k) == Lookup(target, k)
    ensures Progress(before, mid, repo, target, done + {k})
  {
  }

  lemma SortedIsNew(keys: seq<string>, i: nat)
    requires Increasing(keys) && i < |keys|
    ensures keys[i] !in Firsts(keys, i)
  {
    forall j | 0 <= j < i ensures keys[j] != keys[i] {
      LessTotal(keys[j], keys[i]);
    }
  }

  /** `done` is what the walk has deleted once `todo` is left to visit. */
  ghost predicate Deleted(part: set<string>, todo: set<string>, done: set<string>, removed: nat) {
    done == part - todo && removed == |done|
  }

  lemma VisitKey(part: set<string>, todo: set<string>, done: set<string>, removed: nat, k: string)
    requires Deleted(part, todo, done, removed) && k in todo
    ensures if k in part then Deleted(part, todo - {k}, done + {k}, removed + 1)
            else Deleted(part, todo - {k}, done, removed)
  {
    Visit(part, todo, k);
  }

  lemma InRemoved(current: Env, target: Env, k: string)
    requires k in current
    ensures k in RemovedKeys(current, target) <==> k !in target
  {
  }

  lemma NothingDeleted(current: Env, target: Env)
    ensures Deleted(RemovedKeys(current, target), current.Keys, {}, 0)
  {
  }

  /** The second loop: delete every stored key that is not wanted, in any order. */
  method DeleteStale(store: RepoSecretStore, repo: string, current: Env, target: Env)
    returns (ok: bool, removed: nat, ghost done: set<string>)
    modifies store
    ensures Progress(old(store.values), store.values, repo, target, done)
    ensures ok ==>
      && done == RemovedKeys(current, target) && removed == |done|
      && store.deletes == old(store.deletes) + removed && store.upserts == old(store.upserts)
    ensures old(store.faults) == [] ==> ok
  {
    removed, done := 0, {};
    assert Progress(old(store.values), store.values, repo, target, done);
    var todo := current.Keys;
    NothingDeleted(current, target);
    hide Progress, Deleted, RemovedKeys;
    while todo != {}
      invariant todo <= current.Keys && Deleted(RemovedKeys(current, target), todo, done, removed)
      invariant Progress(old(store.values), store.values, repo, target, done)
      invariant store.deletes == old(store.deletes) + removed && store.upserts == old(store.upserts)
      invariant old(store.faults) == [] ==> store.faults == []
      decreases todo
    {
      var k :| k in todo;
      InRemoved(current, target, k);
      VisitKey(RemovedKeys(current, target), todo, done, removed, k);
      if k !in target {
        var gone := DeleteOne(store, repo, target, k, old(store.values), done);
        if !gone { return false, removed, done; }
        removed, done := removed + 1, done + {k};
      }
      todo := todo - {k};
    }
    AllVisited(current, target, done, removed);
    ok := true;
  }

  lemma AllVisited(current: Env, target: Env, done: set<string>, removed: nat)
    requires Deleted(RemovedKeys(current, target), {}, done, removed)
    ensures done == RemovedKeys(current, target) && removed == |done|
  {
  }

  /** Saving the form.  If every write succeeds the stored set is the wanted one; if one fails midway,
      every key of the repository holds its old or its wanted value.  Other repositories never change. */
  method ApplySecretDiff(store: RepoSecretStore, repo: string, target: Env)
    returns (r: DiffResult, ghost done: set<string>)
    modifies store
    ensures old(store.faults) == [] ==> r.Saved?
    ensures Progress(old(store.values), store.values, repo, target, done)
    ensures r.Saved? ==>
      && store.Of(repo) == target
      && r.added == |AddedKeys(old(store.Of(repo)), target)|
      && r.updated == |UpdatedKeys(old(store.Of(repo)), target)|
      && r.removed == |RemovedKeys(old(store.Of(repo)), target)|
      && store.upserts == old(store.upserts) + r.added + r.updated
      && store.deletes == old(store.deletes) + r.removed
    // The table: the wanted set, or for each key its old or its wanted value; other repositories as they were.
    ensures r.Saved? ==> forall k :: (repo, k) in store.values <==> k in target
    ensures forall k | (repo, k) in store.values ::
      (k in target && store.values[(repo, k)] == target[k]) ||
      (!r.Saved? && (repo, k) in old(store.values) && store.values[(repo, k)] == old(store.values)[(repo, k)])
    ensures forall k | (repo, k) in old(store.values) && (repo, k) !in store.values :: k !in target
    ensures forall other, k | other != repo ::
      && ((other, k) in store.values <==> (other, k) in old(store.values))
      && ((other, k) in store.values && (other, k) in old(store.values) ==> store.values[(other, k)] == old(store.values)[(other, k)])
    // The counts: new keys, keys with another value, and keys no longer wanted.
    ensures r.Saved? ==>
      && r.added == |set k | k in target && (repo, k) !in old(store.values)|
      && r.updated == |set k | k in target && (repo, k) in old(store.values) && old(store.values)[(repo, k)] != target[k]|
      && r.removed == |set rk | rk in old(store.values) && rk.0 == repo && rk.1 !in target :: rk.1|
  {
    hide Progress, Mirrors, AddedKeys, UpdatedKeys, RemovedKeys, CellAt, Lookup, SortsSet, Increasing;
    var current := store.Of(repo);
    OfMirrors(store, repo);
    var keys := Collect(target.Keys);
    var sorted := SortStrings(keys);
    assert SortsSet(target.Keys, sorted) by { Sorts(target.Keys, sorted); }
    var ok, added, updated;
    ok, added, updated, done := UpsertAll(store, repo, current, target, sorted);
    ghost var mid, written := store.values, done;
    CellsMean(old(store.values), store.values, repo, target, done);
    if !ok { return Failed, done; }
    var removed;
    ghost var deleted;
    ok, removed, deleted := DeleteStale(store, repo, current, target);
    done := written + deleted;
    ProgressTwice(old(store.values), mid, store.values, repo, target, written, deleted);
    CellsMean(old(store.values), store.values, repo, target, done);
    if !ok { return Failed, done; }
    AllDone(old(store.values), store.values, repo, current, target);
    OfMirrors(store, repo);
    MirrorIsUnique(store.values, repo, store.Of(repo), target);
    CountsMean(old(store.values), repo, current, target);
    WantedMeans(store.values, repo, target);
    r := Saved(added, updated, removed);
  }

  lemma Sorts(s: set<string>, keys: seq<string>)
    requires Increasing(keys) && forall k :: k in keys <==> k in s
    ensures SortsSet(s, keys)
  {
  }

  lemma ProgressTwice(before: map<(string, string), string>, mid: map<(string, string), string>,
                      after: map<(string, string), string>, repo: string, target: Env, d1: set<string>, d2: set<string>)
    requires Progress(before, mid, repo, target, d1) && Progress(mid, after, repo, target, d2)
    ensures Progress(before, after, repo, target, d1 + d2)
  {
  }

  /** What progress is, cell by cell. */
  lemma CellsMean(before: map<(string, string), string>, after: map<(string, string), string>, repo: string, target: Env,
                  done: set<string>)
    requires Progress(before, after, repo, target, done)
    ensures forall k | (repo, k) in after ::
      (k in target && after[(repo, k)] == target[k]) || ((repo, k) in before && after[(repo, k)] == before[(repo, k)])
    ensures forall k | (repo, k) in before && (repo, k) !in after :: k !in target
    ensures forall other, k | other != repo ::
      && ((other, k) in after <==> (other, k) in before)
      && ((other, k) in after && (other, k) in before ==> after[(other, k)] == before[(other, k)])
  {
    hide Progress;
    forall k
      ensures (repo, k) in after ==>
        (k in target && after[(repo, k)] == target[k]) || ((repo, k) in before && after[(repo, k)] == before[(repo, k)])
      ensures (repo, k) in before && (repo, k) !in after ==> k !in target
    {
      CellMeans(before, after, repo, target, done, repo, k);
    }
    forall other, k | other != repo
      ensures (other, k) in after <==> (other, k) in before
      ensures (other, k) in after && (other, k) in before ==> after[(other, k)] == before[(other, k)]
    {
      CellMeans(before, after, repo, target, done, other, k);
    }
  }

  lemma CellMeans(before: map<(string, string), string>, after: map<(string, string), string>, repo: string, target: Env,
                  done: set<string>, r: string, k: string)
    requires Progress(before, after, repo, target, done)
    ensures CellAt(after, r, k) == CellAt(before, r, k) || (r == repo && CellAt(after, r, k) == Lookup(target, k))
    ensures (r, k) in before && (r, k) !in after ==> r == repo && k !in target
  {
    OldOrWanted(before, after, repo, target, done, r, k);
    hide Progress;
  }

  lemma WantedMeans(values: map<(string, string), string>, repo: string, target: Env)
    requires Mirrors(values, repo, target)
    ensures forall k :: (repo, k) in values <==> k in target
    ensures forall k | (repo, k) in values && k in target :: values[(repo, k)] == target[k]
  {
    forall k ensures (repo, k) in values <==> k in target
      ensures (repo, k) in values && k in target ==> values[(repo, k)] == target[k]
    {
      assert CellAt(values, repo, k) == Lookup(target, k);
    }
    hide Mirrors;
  }

  lemma CountsMean(values: map<(string, string), string>, repo: string, current: Env, target: Env)
    requires Mirrors(values, repo, current)
    ensures AddedKeys(current, target) == set k | k in target && (repo, k) !in values
    ensures UpdatedKeys(current, target) == set k | k in target && (repo, k) in values && values[(repo, k)] != target[k]
    ensures RemovedKeys(current, target) == set rk | rk in values && rk.0 == repo && rk.1 !in target :: rk.1
  {
    WantedMeans(values, repo, current);
    forall k ensures k in RemovedKeys(current, target) <==> k in set rk | rk in values && rk.0 == repo && rk.1 !in target :: rk.1 {
      if (repo, k) in values { assert (repo, k).0 == repo && (repo, k).1 == k; }
    }
  }

  lemma AllDone(before: map<(string, string), string>, after: map<(string, string), string>, repo: string,
                current: Env, target: Env)
    requires Mirrors(before, repo, current)
    requires Progress(before, after, repo, target, target.Keys + RemovedKeys(current, target))
    ensures Mirrors(after, repo, target)
  {
    forall k ensures CellAt(after, repo, k) == Lookup(target, k) {
      assert CellAt(before, repo, k) == Lookup(current, k);
    }
  }

  /** Even after a failure no key is left with anything but its old or its wanted value. */
  lemma OldOrWanted(before: map<(string, string), string>, after: map<(string, string), string>, repo: string,
                    target: Env, done: set<string>, r: string, k: string)
    requires Progress(before, after, repo, target, done)
    ensures CellAt(after, r, k) == CellAt(before, r, k) || (r == repo && CellAt(after, r, k) == Lookup(target, k))
  {
  }
}
