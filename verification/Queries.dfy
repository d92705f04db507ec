/** The relational meaning of the store's SELECT statements. */
module Queries {
  import opened Previews

  function ActiveIds(db: Db, repo: string, pr: int): set<string> {
    set id | id in db.rows && db.rows[id].repo == repo && db.rows[id].pr == pr && Active(db.rows[id].status)
  }

  function PrIds(db: Db, repo: string, pr: int): set<string> {
    set id | id in db.rows && db.rows[id].repo == repo && db.rows[id].pr == pr
  }

  function AdhocIds(db: Db, repo: string, branch: string): set<string> {
    set id | id in db.rows && db.rows[id].repo == repo && db.rows[id].branch == branch && db.rows[id].adhoc
  }

  function ShaIds(db: Db, repo: string, sha: string): set<string> {
    set id | id in db.rows && db.rows[id].repo == repo && db.rows[id].sha == Some(sha)
  }

  function HeldIds(db: Db, agent: string, statuses: set<Status>): set<string> {
    set id | id in db.rows && db.rows[id].agent == Some(agent) && db.rows[id].status in statuses
  }

  function StaleIds(db: Db, cutoff: int): set<string> {
    set id | id in db.rows && db.rows[id].status == Assigned && db.rows[id].updatedAt < cutoff
  }

  function AssignedIds(db: Db): set<string> {
    set id | id in db.rows && db.rows[id].status == Assigned
  }

  function ChangedIds(before: Db, after: Db): set<string> {
    set id | id in before.rows && id in after.rows && after.rows[id] != before.rows[id]
  }

  function QueuedIds(db: Db): set<string> {
    set id | id in db.rows && db.rows[id].status == Queued
  }

  /** `found` is an answer to ORDER BY created_at DESC LIMIT 1 over the rows in `ids`; ties are open. */
  predicate IsNewest(db: Db, ids: set<string>, found: Option<string>)
    requires ids <= db.rows.Keys
  {
    && (found.None? <==> ids == {})
    && (found.Some? ==> found.value in ids && forall i | i in ids :: db.rows[i].createdAt <= db.rows[found.value].createdAt)
  }

  ghost predicate IsListing(ids: set<string>, found: seq<string>) {
    Distinct(found) && (forall id :: id in found <==> id in ids)
  }

  const CANDIDATE_LIMIT := 50

  /** `found` is an answer to: queued rows ORDER BY created_at ASC LIMIT 50. */
  predicate IsOldestQueued(db: Db, found: seq<string>) {
    && Distinct(found)
    && |found| <= CANDIDATE_LIMIT
    && (forall id | id in found :: id in QueuedIds(db))
    && (forall i, j | 0 <= i < j < |found| ::
          found[i] in db.rows && found[j] in db.rows && db.rows[found[i]].createdAt <= db.rows[found[j]].createdAt)
    && (forall id, c | id in QueuedIds(db) && id !in found && c in found :: db.rows[c].createdAt <= db.rows[id].createdAt)
    && (|found| < CANDIDATE_LIMIT ==> forall id | id in QueuedIds(db) :: id in found)
  }

  /** `id` is an answer to: oldest still queued row among `candidates`. */
  predicate IsOldestOf(db: Db, candidates: seq<string>, id: string) {
    && id in candidates && id in QueuedIds(db)
    && forall c | c in candidates && c in QueuedIds(db) :: db.rows[id].createdAt <= db.rows[c].createdAt
  }

  /** A listing of a finite set has as many entries as the set. */
  lemma {:induction false} ListingSize(ids: set<string>, found: seq<string>)
    requires IsListing(ids, found)
    ensures |found| == |ids|
  {
    if found == [] {
      assert ids == {};
    } else {
      var rest := ids - {Last(found)};
      forall id ensures id in Front(found) <==> id in rest {
        if id in Front(found) {
          var i :| 0 <= i < |found| - 1 && found[i] == id;
          assert found[i] != found[|found| - 1];
        }
        if id in rest {
          var i :| 0 <= i < |found| && found[i] == id;
          assert Front(found)[i] == id;
        }
      }
      ListingSize(rest, Front(found));
      assert Last(found) in ids;
    }
  }

  lemma TakenIffListed(db: Db, repo: string, sha: string)
    ensures ShaTaken(db, repo, sha) <==> ShaIds(db, repo, sha) != {}
  {
    if ShaTaken(db, repo, sha) {
      var id :| id in db.rows && db.rows[id].repo == repo && db.rows[id].sha == Some(sha);
      assert id in ShaIds(db, repo, sha);
    }
  }
}
