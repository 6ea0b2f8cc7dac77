/** Each database transaction of the publisher as one atomic function (publish-target.ts). */
module Transactions {
  import opened Wrappers
  import opened PublishRecords
  import opened Rollup
  import opened FollowUps

  function StatusesOf(db: Database, postId: string): set<TargetStatus> {
    set t | t in db.targets && db.targets[t].postId == postId :: db.targets[t].status
  }

  function WriteTarget(db: Database, t: string, target: Target): Database {
    db.(targets := db.targets[t := target])
  }

  /** `UPDATE posts SET status`, which touches no row when the post is gone. */
  function SetPostStatus(db: Database, postId: string, status: PostStatus): Database {
    if postId in db.posts then db.(posts := db.posts[postId := db.posts[postId].(status := status)]) else db
  }

  /** `failBeforePublish` (lines 197-209): it checks neither the status nor the fencing token. */
  function FailBefore(db: Database, t: string, postId: string, message: string, now: int): Database {
    var failed :=
      if t in db.targets
      then WriteTarget(db, t, db.targets[t].(status := Failed, error := Some(message), updatedAt := now))
      else db;
    SetPostStatus(failed, postId, RollupSet(StatusesOf(failed, postId)))
  }

  const UNCERTAIN :=
    "Publication outcome is uncertain. Verify the provider account before retrying to avoid a duplicate."

  datatype Lease = NotAcquired | Token(token: nat)

  /** Lines 354-363: pending, or publishing with an expired lease. */
  predicate Leasable(db: Database, t: string, now: int) {
    && t in db.targets
    && var target := db.targets[t];
       target.status == Pending || (target.status == Publishing && target.updatedAt < now - LEASE)
  }

  /** Lines 364-371: an expired lease whose provider call cannot be resumed. */
  predicate Uncertain(db: Database, row: Row) {
    && row.id in db.targets
    && db.targets[row.id].status == Publishing
    && row.state.executionOutcome.None?
    && !(row.platform == "YOUTUBE" && row.state.Resumable())
  }

  /** The acquire transaction (lines 345-381). */
  function Acquire(db: Database, row: Row, now: int): (Database, Lease) {
    if !Leasable(db, row.id, now) then (db, NotAcquired)
    else if Uncertain(db, row) then (FailBefore(db, row.id, row.postId, UNCERTAIN, now), NotAcquired)
    else
      var target := db.targets[row.id];
      var held := target.(status := Publishing, attempts := target.attempts + 1, updatedAt := now);
      (SetPostStatus(WriteTarget(db, row.id, held), row.postId, PostPublishing), Token(held.attempts))
  }

  /** The guard shared by every write of a lease holder. */
  predicate LeaseActive(db: Database, t: string, token: nat) {
    t in db.targets && db.targets[t].status == Publishing && db.targets[t].attempts == token
  }

  /** `persistProviderState` (lines 401-411): replaces the whole column; false is the thrown lease error. */
  function PersistProgress(db: Database, t: string, token: nat, state: ProviderState, now: int): (Database, bool) {
    if LeaseActive(db, t, token)
    then (WriteTarget(db, t, db.targets[t].(state := state, updatedAt := now)), true)
    else (db, false)
  }

  /** Lines 416-419. */
  function Continue(db: Database, t: string, token: nat, now: int): Database {
    if LeaseActive(db, t, token)
    then WriteTarget(db, t, db.targets[t].(status := Pending, updatedAt := now))
    else db
  }

  /** Lines 423-430: merges the confirmed outcome into the column; false is "superseded". */
  function SaveOutcome(db: Database, t: string, token: nat, outcome: Outcome, now: int): (Database, bool) {
    if LeaseActive(db, t, token)
    then
      var target := db.targets[t];
      (WriteTarget(db, t, target.(state := target.state.(executionOutcome := Some(outcome)), updatedAt := now)), true)
    else (db, false)
  }

  /** The fence of `finalizeOutcome` (lines 68-74). */
  predicate FinalizeFence(db: Database, t: string, token: nat) {
    && t in db.targets
    && db.targets[t].status in {Pending, Publishing, Failed}
    && db.targets[t].attempts == token
  }

  function SettledTarget(target: Target, outcome: Outcome, now: int): Target
    requires !outcome.ContinueAt?
  {
    match outcome
    case Confirmed(result) =>
      target.(status := Published, platformPostId := Some(result.platformPostId), error := None, updatedAt := now)
    case Rejected(message, retryable) =>
      target.(status := if retryable then Pending else Failed, error := Some(message), updatedAt := now)
  }

  /** Lines 160-166: the roll-up, and `published_at`, which is only ever filled in. */
  function RollUpAndStamp(db: Database, postId: string, now: int): Database {
    if postId in db.posts then
      var status := RollupSet(StatusesOf(db, postId));
      var post := db.posts[postId];
      var stamp :=
        if status in {PostPublished, PartiallyFailed} then Some(post.publishedAt.GetOr(now)) else post.publishedAt;
      db.(posts := db.posts[postId := post.(status := status, publishedAt := stamp)])
    else db
  }

  /** `finalizeOutcome` (lines 56-169); false is the thrown "superseded" error, which rolls back. */
  function Finalize(db: Database, row: Row, outcome: Outcome, mediaIds: seq<string>, token: nat, now: int): (Database, bool)
    requires !outcome.ContinueAt?
  {
    if !FinalizeFence(db, row.id, token) then (db, false)
    else
      var settled := WriteTarget(db, row.id, SettledTarget(db.targets[row.id], outcome, now));
      var followed :=
        if outcome.Confirmed? then FollowUp(settled, row, outcome.result.platformPostId, mediaIds, now) else settled;
      (RollUpAndStamp(followed, row.postId, now), true)
  }

  // What each transaction does to the target rows, in one place.

  lemma AcquireTargets(db: Database, row: Row, now: int)
    ensures var (after, lease) := Acquire(db, row, now);
            if lease.Token? then
              && row.id in db.targets
              && lease.token == db.targets[row.id].attempts + 1
              && after.targets == db.targets[row.id :=
                   db.targets[row.id].(status := Publishing, attempts := lease.token, updatedAt := now)]
            else if Leasable(db, row.id, now) then
              && row.id in db.targets
              && after.targets == db.targets[row.id :=
                   db.targets[row.id].(status := Failed, error := Some(UNCERTAIN), updatedAt := now)]
            else after == db
  {
  }

  lemma FinalizeTargets(db: Database, row: Row, outcome: Outcome, mediaIds: seq<string>, token: nat, now: int)
    requires !outcome.ContinueAt?
    ensures var (after, ok) := Finalize(db, row, outcome, mediaIds, token, now);
            if ok then
              && row.id in db.targets
              && after.targets == db.targets[row.id := SettledTarget(db.targets[row.id], outcome, now)]
              && after.posts.Keys == db.posts.Keys
              && (forall p | p in db.posts && p != row.postId :: after.posts[p] == db.posts[p])
              && (row.postId in db.posts ==>
                    && after.posts[row.postId] == db.posts[row.postId].(
                         status := RollupSet(StatusesOf(after, row.postId)),
                         publishedAt := after.posts[row.postId].publishedAt)
                    && (db.posts[row.postId].publishedAt.Some? ==>
                          after.posts[row.postId].publishedAt == db.posts[row.postId].publishedAt))
            else after == db
  {
    if FinalizeFence(db, row.id, token) {
      var settled := WriteTarget(db, row.id, SettledTarget(db.targets[row.id], outcome, now));
      var followed :=
        if outcome.Confirmed? then FollowUp(settled, row, outcome.result.platformPostId, mediaIds, now) else settled;
      assert followed.targets == settled.targets && followed.posts == db.posts;
      var after := RollUpAndStamp(followed, row.postId, now);
      assert StatusesOf(after, row.postId) == StatusesOf(followed, row.postId);
    }
  }

  /** The follow-up state of a finalized publication: everything but the roll-up. */
  function Followed(db: Database, row: Row, result: PostResult, mediaIds: seq<string>, now: int): Database
    requires row.id in db.targets
  {
    FollowUp(WriteTarget(db, row.id, SettledTarget(db.targets[row.id], Confirmed(result), now)),
             row, result.platformPostId, mediaIds, now)
  }

  predicate SamePublication(db: Database, row: Row, again: Row) {
    && row.id in db.targets
    && db.targets[row.id].postId == row.postId
    && again.id == row.id && again.postId == row.postId
    && again.workspaceId == row.workspaceId && again.connectionId == row.connectionId
  }

  lemma RefollowAddsNothing(db: Database, row: Row, result: PostResult, mediaIds: seq<string>, now: int,
      reopened: Database, again: Row, later: int)
    requires SamePublication(db, row, again)
    requires var first := Followed(db, row, result, mediaIds, now);
             && again.id in reopened.targets
             && reopened.automations == first.automations && reopened.index == first.index
             && reopened.jobs == first.jobs && reopened.retention == first.retention
    ensures var first := Followed(db, row, result, mediaIds, now);
            var second := Followed(reopened, again, result, mediaIds, later);
            && second.automations == first.automations
            && second.index == first.index
            && second.jobs.Keys == first.jobs.Keys
            && (forall k | k in first.jobs :: second.jobs[k].payload == first.jobs[k].payload)
  {
    var settled := WriteTarget(db, row.id, SettledTarget(db.targets[row.id], Confirmed(result), now));
    var first := FollowUp(settled, row, result.platformPostId, mediaIds, now);
    var resettled := WriteTarget(reopened, again.id, SettledTarget(reopened.targets[again.id], Confirmed(result), later));
    SecondPassAddsNothing(settled, row, result.platformPostId, mediaIds, now, again, later);
    FollowUpReadsNoTargets(first, resettled, again, result.platformPostId, mediaIds, later);
  }

  lemma FinalizeConfirmed(db: Database, row: Row, result: PostResult, mediaIds: seq<string>, token: nat, now: int)
    requires FinalizeFence(db, row.id, token)
    ensures Finalize(db, row, Confirmed(result), mediaIds, token, now)
         == (RollUpAndStamp(Followed(db, row, result, mediaIds, now), row.postId, now), true)
    ensures Followed(db, row, result, mediaIds, now).targets
         == db.targets[row.id := SettledTarget(db.targets[row.id], Confirmed(result), now)]
    ensures Followed(db, row, result, mediaIds, now).posts == db.posts
  {
  }

  /**
   * Finalizing a confirmed publication, then again after a stale failure re-opened the row: triggers, index,
   * job keys and job payloads, the target, the post and `published_at` are those of the first pass.
   */
  lemma RefinalizeAddsNothing(db: Database, row: Row, result: PostResult, mediaIds: seq<string>, token: nat, now: int,
      message: string, failedAt: int, again: Row, later: int)
    requires FinalizeFence(db, row.id, token) && SamePublication(db, row, again)
    ensures var first := Finalize(db, row, Confirmed(result), mediaIds, token, now).0;
            var reopened := FailBefore(first, row.id, row.postId, message, failedAt);
            var (second, ok) := Finalize(reopened, again, Confirmed(result), mediaIds, token, later);
            && ok
            && row.id in first.targets
            && second.targets == first.targets[row.id := first.targets[row.id].(updatedAt := later)]
            && second.automations == first.automations
            && second.index == first.index
            && second.jobs.Keys == first.jobs.Keys
            && (forall k | k in first.jobs :: k in second.jobs && second.jobs[k].payload == first.jobs[k].payload)
            && second.posts == first.posts
  {
    hide Followed, FollowUp, RollupSet, StatusesOf;
    var followed := Followed(db, row, result, mediaIds, now);
    var first := RollUpAndStamp(followed, row.postId, now);
    FinalizeConfirmed(db, row, result, mediaIds, token, now);
    ReopenedRow(db, followed, row, result, now, message, failedAt, later);
    var reopened := FailBefore(first, row.id, row.postId, message, failedAt);
    FinalizeConfirmed(reopened, again, result, mediaIds, token, later);
    var refollowed := Followed(reopened, again, result, mediaIds, later);
    var second := RollUpAndStamp(refollowed, row.postId, later);
    assert second.automations == first.automations && second.index == first.index
        && second.jobs.Keys == first.jobs.Keys
        && (forall k | k in first.jobs :: k in second.jobs && second.jobs[k].payload == first.jobs[k].payload) by {
      RefollowAddsNothing(db, row, result, mediaIds, now, reopened, again, later);
    }
    assert second.posts == first.posts by {
      SameStatuses(followed, refollowed, row.postId);
      var failed := WriteTarget(first, row.id,
        first.targets[row.id].(status := Failed, error := Some(message), updatedAt := failedAt));
      RestampIsStable(followed, refollowed, row.postId, RollupSet(StatusesOf(failed, row.postId)), now, later);
    }
  }

  /** A failure before publishing re-opens the row for finalization under the same token and keeps its platform id. */
  lemma ReopenedRow(db: Database, followed: Database, row: Row, result: PostResult, now: int,
      message: string, failedAt: int, later: int)
    requires row.id in db.targets && db.targets[row.id].postId == row.postId
    requires followed.targets == db.targets[row.id := SettledTarget(db.targets[row.id], Confirmed(result), now)]
    ensures var reopened := FailBefore(RollUpAndStamp(followed, row.postId, now), row.id, row.postId, message, failedAt);
            && FinalizeFence(reopened, row.id, db.targets[row.id].attempts)
            && reopened.targets[row.id := SettledTarget(reopened.targets[row.id], Confirmed(result), later)]
                 == followed.targets[row.id := followed.targets[row.id].(updatedAt := later)]
  {
    hide RollupSet, StatusesOf;
    assert RollUpAndStamp(followed, row.postId, now).targets == followed.targets;
    hide RollUpAndStamp;
  }

  lemma SameStatuses(a: Database, b: Database, postId: string)
    requires a.targets.Keys == b.targets.Keys
    requires forall t | t in a.targets ::
      a.targets[t].status == b.targets[t].status && a.targets[t].postId == b.targets[t].postId
    ensures StatusesOf(a, postId) == StatusesOf(b, postId)
  {
  }

  /** Rolling the same statuses up again writes the same post, whatever its status became in between. */
  lemma RestampIsStable(a: Database, b: Database, postId: string, status: PostStatus, now: int, later: int)
    requires StatusesOf(a, postId) == StatusesOf(b, postId)
    requires b.posts == SetPostStatus(RollUpAndStamp(a, postId, now), postId, status).posts
    ensures RollUpAndStamp(b, postId, later).posts == RollUpAndStamp(a, postId, now).posts
  {
  }

  /** The follow-up work reads and writes the automation, index and job tables only. */
  lemma FollowUpReadsNoTargets(a: Database, b: Database, row: Row, mediaId: string, mediaIds: seq<string>, now: int)
    requires a.automations == b.automations && a.index == b.index && a.jobs == b.jobs && a.retention == b.retention
    ensures var x := FollowUp(a, row, mediaId, mediaIds, now);
            var y := FollowUp(b, row, mediaId, mediaIds, now);
            x.automations == y.automations && x.index == y.index && x.jobs == y.jobs
  {
  }
}
