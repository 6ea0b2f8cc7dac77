/**
 * What each transaction promises, read off the tables alone: statuses are counted by quantifying over the targets, and
 * guards, periods and messages are those of the source (publish-target.ts).
 */
module TransactionContracts {
  import opened Wrappers
  import opened PublishRecords
  import opened Rollup
  import opened FollowUps
  import opened Transactions

  /** Some target of the post has this status. */
  ghost predicate Has(db: Database, postId: string, status: TargetStatus) {
    exists t | t in db.targets :: db.targets[t].postId == postId && db.targets[t].status == status
  }

  /** `status` is the one a post with these targets should show. */
  ghost predicate Shows(db: Database, postId: string, status: PostStatus) {
    var pending, publishing := Has(db, postId, Pending), Has(db, postId, Publishing);
    var published, failed := Has(db, postId, Published), Has(db, postId, Failed);
    && (status == PostPublishing <==> publishing)
    && (status == PostPublished <==> published && !failed && !pending && !publishing)
    && (status == PostFailed <==> failed && !published && !pending && !publishing)
    && (status == PartiallyFailed <==> published && failed && !publishing)
    && (status == Scheduled <==> !publishing && !(published && failed) && (pending || !(published || failed)))
  }

  lemma HasStatus(db: Database, postId: string, status: TargetStatus)
    ensures status in StatusesOf(db, postId) <==> Has(db, postId, status)
  {
    if status in StatusesOf(db, postId) {
      var t :| t in db.targets && db.targets[t].postId == postId && db.targets[t].status == status;
    }
  }

  lemma RollupShows(db: Database, postId: string)
    ensures Shows(db, postId, RollupSet(StatusesOf(db, postId)))
  {
    hide RollupSet, StatusesOf, Has;
    var statuses := StatusesOf(db, postId);
    HasStatus(db, postId, Pending);
    HasStatus(db, postId, Publishing);
    HasStatus(db, postId, Published);
    HasStatus(db, postId, Failed);
    RollupCases(statuses);
    forall s | s in statuses ensures s in {Pending, Publishing, Published, Failed} {
      match s case Pending => case Publishing => case Published => case Failed =>
    }
  }

  /** Only the named post may have changed, and of it only status and `published_at`. */
  predicate OnlyPost(before: Database, after: Database, postId: string) {
    && after.posts.Keys == before.posts.Keys
    && (forall p | p in before.posts && p != postId :: after.posts[p] == before.posts[p])
    && (postId in before.posts ==>
          after.posts[postId] == before.posts[postId].(
            status := after.posts[postId].status, publishedAt := after.posts[postId].publishedAt))
  }

  predicate SameFollowUps(before: Database, after: Database) {
    && after.automations == before.automations && after.index == before.index && after.jobs == before.jobs
    && after.retention == before.retention
  }

  /** A failure before publishing fails the target, whatever its status and token, and shows it on the post. */
  lemma FailBeforeExactly(db: Database, t: string, postId: string, message: string, now: int)
    ensures var after := FailBefore(db, t, postId, message, now);
            && SameFollowUps(db, after) && OnlyPost(db, after, postId)
            && after.targets ==
                 (if t in db.targets
                  then db.targets[t := db.targets[t].(status := Failed, error := Some(message), updatedAt := now)]
                  else db.targets)
            && (postId in db.posts ==>
                  && Shows(after, postId, after.posts[postId].status)
                  && after.posts[postId].publishedAt == db.posts[postId].publishedAt)
  {
    hide RollupSet, StatusesOf, SetPostStatus, Shows, OnlyPost;
    var failed :=
      if t in db.targets
      then WriteTarget(db, t, db.targets[t].(status := Failed, error := Some(message), updatedAt := now)) else db;
    SetShows(failed, postId);
    SamePosts(db, failed, FailBefore(db, t, postId, message, now), postId);
  }

  lemma SetShows(db: Database, postId: string)
    ensures var after := SetPostStatus(db, postId, RollupSet(StatusesOf(db, postId)));
            && after == db.(posts := after.posts) && OnlyPost(db, after, postId)
            && (postId in db.posts ==>
                  && Shows(after, postId, after.posts[postId].status)
                  && after.posts[postId].publishedAt == db.posts[postId].publishedAt)
  {
    hide RollupSet, Has, StatusesOf;
    var after := SetPostStatus(db, postId, RollupSet(StatusesOf(db, postId)));
    SameTargets(after, db, postId);
    RollupShows(after, postId);
  }

  lemma SamePosts(a: Database, b: Database, after: Database, postId: string)
    requires a.posts == b.posts && OnlyPost(b, after, postId)
    ensures OnlyPost(a, after, postId)
  {
  }

  /** The roll-up reads the targets only. */
  lemma SameTargets(a: Database, b: Database, postId: string)
    requires a.targets == b.targets
    ensures StatusesOf(a, postId) == StatusesOf(b, postId)
  {
  }

  /** A lease is granted, refused, or turned into a failure, by the row as it is under the lock. */
  lemma AcquireExactly(db: Database, row: Row, now: int)
    ensures var (after, lease) := Acquire(db, row, now);
            var expired := row.id in db.targets
              && db.targets[row.id].status == Publishing && db.targets[row.id].updatedAt < now - 900_000;
            var resumable := row.platform == "YOUTUBE"
              && row.state.youtubeUploadUrl.Some? && row.state.youtubeUploadUrl.value != "";
            if row.id !in db.targets || (db.targets[row.id].status != Pending && !expired) then
              (after, lease) == (db, NotAcquired)
            else if expired && row.state.executionOutcome.None? && !resumable then
              lease == NotAcquired && after == FailBefore(db, row.id, row.postId,
                "Publication outcome is uncertain. Verify the provider account before retrying to avoid a duplicate.", now)
            else
              var target := db.targets[row.id];
              && lease == Token(target.attempts + 1)
              && after.targets == db.targets[row.id :=
                   target.(status := Publishing, attempts := target.attempts + 1, updatedAt := now)]
              && SameFollowUps(db, after) && OnlyPost(db, after, row.postId)
              && (row.postId in db.posts ==>
                    after.posts[row.postId] == db.posts[row.postId].(status := PostPublishing))
  {
    hide FailBefore;
  }

  /** A holder's writes: they take effect exactly while the row is publishing under the holder's token. */
  lemma HolderWritesExactly(db: Database, t: string, token: nat, state: ProviderState, outcome: Outcome, now: int)
    ensures var held := t in db.targets && db.targets[t].status == Publishing && db.targets[t].attempts == token;
            && PersistProgress(db, t, token, state, now) ==
                 (if held then db.(targets := db.targets[t := db.targets[t].(state := state, updatedAt := now)]) else db, held)
            && Continue(db, t, token, now) ==
                 (if held then db.(targets := db.targets[t := db.targets[t].(status := Pending, updatedAt := now)]) else db)
            && SaveOutcome(db, t, token, outcome, now).1 == held
            && var after := SaveOutcome(db, t, token, outcome, now).0;
               if !held then after == db
               else
                 && after == db.(targets := db.targets[t := after.targets[t]])
                 && after.targets[t] == db.targets[t].(state := after.targets[t].state, updatedAt := now)
                 && after.targets[t].state.executionOutcome == Some(outcome)
                 && after.targets[t].state.youtubeUploadUrl == db.targets[t].state.youtubeUploadUrl
                 && after.targets[t].state.rest == db.targets[t].state.rest
  {
  }

  /** What `published_at` should be after a roll-up: set, if it was not, once the post counts as published. */
  ghost predicate Stamped(after: Database, postId: string, was: Option<int>, now: int)
    requires postId in after.posts
  {
    var counts := Has(after, postId, Published) && !Has(after, postId, Publishing)
      && (Has(after, postId, Failed) || !Has(after, postId, Pending));
    after.posts[postId].publishedAt == if counts && was.None? then Some(now) else was
  }

  lemma RollUpExactly(db: Database, postId: string, now: int)
    ensures var after := RollUpAndStamp(db, postId, now);
            && after == db.(posts := after.posts) && OnlyPost(db, after, postId)
            && (postId in db.posts ==>
                  && Shows(after, postId, after.posts[postId].status)
                  && Stamped(after, postId, db.posts[postId].publishedAt, now))
  {
    hide RollupSet, Has, StatusesOf;
    var after := RollUpAndStamp(db, postId, now);
    SameTargets(after, db, postId);
    RollupShows(after, postId);
  }

  /**
   * Finalizing commits exactly under the current token on an unpublished row, and otherwise changes nothing. It settles
   * that one row by its outcome, makes one pass of follow-up work for a confirmed outcome and none for a rejection, and
   * leaves the post showing its targets, with `published_at` set once it counts as published.
   */
  lemma FinalizeExactly(db: Database, row: Row, outcome: Outcome, mediaIds: seq<string>, token: nat, now: int)
    requires !outcome.ContinueAt?
    ensures var (after, ok) := Finalize(db, row, outcome, mediaIds, token, now);
            && (ok <==> row.id in db.targets && db.targets[row.id].attempts == token && db.targets[row.id].status != Published)
            && if !ok then after == db
               else
                 var before := db.targets[row.id];
                 && after.targets == db.targets[row.id := after.targets[row.id]]
                 && after.targets[row.id] ==
                      (match outcome
                       case Confirmed(result) => before.(
                         status := Published, platformPostId := Some(result.platformPostId), error := None, updatedAt := now)
                       case Rejected(message, retryable) => before.(
                         status := if retryable then Pending else Failed, error := Some(message), updatedAt := now))
                 && SameFollowUps(
                      if outcome.Confirmed?
                      then FollowUp(db, row, outcome.result.platformPostId, mediaIds, now) else db, after)
                 && OnlyPost(db, after, row.postId)
                 && (row.postId in db.posts ==>
                       && Shows(after, row.postId, after.posts[row.postId].status)
                       && Stamped(after, row.postId, db.posts[row.postId].publishedAt, now))
  {
    hide FollowUp, RollUpAndStamp, Shows, Stamped;
    if FinalizeFence(db, row.id, token) {
      var settled := WriteTarget(db, row.id, SettledTarget(db.targets[row.id], outcome, now));
      var followed := settled;
      if outcome.Confirmed? {
        followed := FollowUp(settled, row, outcome.result.platformPostId, mediaIds, now);
        FollowUpReadsNoTargets(db, settled, row, outcome.result.platformPostId, mediaIds, now);
      }
      RollUpExactly(followed, row.postId, now);
    }
  }
}
