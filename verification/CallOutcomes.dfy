/**
 * What one uninterrupted call of `publishTarget` does to the tables, outcome by outcome and read off the tables alone
 * (publish-target.ts:171-486).
 */
module CallOutcomes {
  import opened Wrappers
  import opened PublishRecords
  import opened FollowUps
  import opened Transactions
  import opened TransactionContracts
  import opened Preflight
  import opened PreflightContract
  import opened Protocol
  import opened UninterruptedRun

  /** The target of a live post is pending, or its lease has expired in the middle of a resumable YouTube upload. */
  predicate Due(db: Database, t: string, now: int) {
    && t in db.targets && db.targets[t].postId in db.posts && !db.posts[db.targets[t].postId].deleted
    && var target := db.targets[t];
       && target.state.executionOutcome.None?
       && (target.status == Pending
           || (target.status == Publishing && target.updatedAt < now - 900_000 && target.platform == "YOUTUBE"
               && target.state.youtubeUploadUrl.Some? && target.state.youtubeUploadUrl.value != ""))
  }

  /** Its content, media, platform and rules are in order. */
  ghost predicate InOrder(db: Database, t: string, library: Library)
    requires t in db.targets && db.targets[t].postId in db.posts
  {
    var target, post := db.targets[t], db.posts[db.targets[t].postId];
    exists input :: Publishable(post.content, target.groupId, post.workspaceId, target.platform, library, input)
  }

  /** The provider state after the runner's saves: each replaces the whole column. */
  function Progressed(state: ProviderState, saves: seq<ProviderState>): ProviderState {
    if saves == [] then state else saves[|saves| - 1]
  }

  /** A due target after its lease was granted and the runner made its saves. */
  function Worked(target: Target, saves: seq<ProviderState>, now: int): Target {
    target.(status := Publishing, attempts := target.attempts + 1, state := Progressed(target.state, saves), updatedAt := now)
  }

  /** The lease has been granted in `held`: only the target and the status of its post have moved. */
  ghost predicate Granted(db: Database, held: Database, t: string, now: int)
    requires t in db.targets && db.targets[t].postId in db.posts
  {
    var p := db.targets[t].postId;
    && held.targets == db.targets[t := Worked(db.targets[t], [], now)]
    && SameFollowUps(db, held) && OnlyPost(db, held, p)
    && held.posts[p] == db.posts[p].(status := PostPublishing)
  }

  lemma VisitHolds(db: Database, t: string, now: int, world: World)
    requires Due(db, t, now) && InOrder(db, t, world.library)
    ensures var row, token := RowOf(db, t), db.targets[t].attempts + 1;
            var held := Acquire(db, row, now).0;
            && Granted(db, held, t, now) && row.id == t && row.postId == db.targets[t].postId
            && row.connectionId == db.targets[t].connectionId
            && row.workspaceId == db.posts[db.targets[t].postId].workspaceId
            && row.state.executionOutcome.None?
            && Visit(db, t, now, world) == Hold(held, row, token, now, world)
  {
    hide CheckRow, Hold, Acquire, InOrder, Publish, Granted;
    DuePasses(db, t, world.library);
    DueIsGranted(db, t, now);
    GrantHolds(db, RowOf(db, t), now, world);
  }

  lemma DuePasses(db: Database, t: string, library: Library)
    requires Readable(db, t) && InOrder(db, t, library)
    ensures CheckRow(RowOf(db, t), library).Passed?
  {
    hide Publishable, CheckRow;
    var target, post := db.targets[t], db.posts[db.targets[t].postId];
    var input :| Publishable(post.content, target.groupId, post.workspaceId, target.platform, library, input);
    PassedExactly(RowOf(db, t), library, input);
  }

  lemma DueIsGranted(db: Database, t: string, now: int)
    requires Due(db, t, now)
    ensures var (held, lease) := Acquire(db, RowOf(db, t), now);
            lease == Token(db.targets[t].attempts + 1) && Granted(db, held, t, now)
  {
    hide Acquire;
    DueIsLeasable(db, t, now);
    LeasableIsGranted(db, t, RowOf(db, t), now);
  }

  lemma DueIsLeasable(db: Database, t: string, now: int)
    requires Due(db, t, now)
    ensures Readable(db, t) && Leasable(db, t, now) && !Uncertain(db, RowOf(db, t))
  {
  }

  lemma LeasableIsGranted(db: Database, t: string, row: Row, now: int)
    requires Leasable(db, t, now) && !Uncertain(db, row) && row.id == t
    requires row.postId == db.targets[t].postId && row.postId in db.posts
    ensures var (held, lease) := Acquire(db, row, now);
            lease == Token(db.targets[t].attempts + 1) && Granted(db, held, t, now)
  {
    hide FailBefore, Leasable, Uncertain;
  }

  lemma GrantHolds(db: Database, row: Row, now: int, world: World)
    requires Acquire(db, row, now).1.Token?
    ensures Publish(db, row, now, world) == Hold(Acquire(db, row, now).0, row, Acquire(db, row, now).1.token, now, world)
  {
    hide Acquire, Hold;
  }

  lemma {:induction false} SaveAllExactly(db: Database, t: string, saves: seq<ProviderState>, now: int)
    requires t in db.targets && db.targets[t].status == Publishing && db.targets[t].updatedAt == now
    ensures SaveAll(db, t, db.targets[t].attempts, saves, now)
         == db.(targets := db.targets[t := db.targets[t].(state := Progressed(db.targets[t].state, saves))])
    decreases |saves|
  {
    if saves == [] {
      assert db.targets[t := db.targets[t]] == db.targets;
    } else {
      var next := PersistProgress(db, t, db.targets[t].attempts, saves[0], now).0;
      SaveAllExactly(next, t, saves[1..], now);
      assert next.targets[t := next.targets[t].(state := Progressed(saves[0], saves[1..]))]
          == db.targets[t := db.targets[t].(state := Progressed(saves[0], saves[1..]))];
    }
  }

  lemma RunnerWorks(db: Database, held: Database, t: string, saves: seq<ProviderState>, now: int)
    requires t in db.targets && db.targets[t].postId in db.posts && Granted(db, held, t, now)
    ensures var progressed := SaveAll(held, t, db.targets[t].attempts + 1, saves, now);
            && progressed == held.(targets := progressed.targets)
            && progressed.targets == db.targets[t := Worked(db.targets[t], saves, now)]
  {
    hide OnlyPost, SameFollowUps, SaveAll;
    SaveAllExactly(held, t, saves, now);
  }

  /** The post shows its targets, and `published_at` is as it should be. */
  ghost predicate PostFollows(db: Database, after: Database, t: string, now: int)
    requires t in db.targets && db.targets[t].postId in db.posts
  {
    var p := db.targets[t].postId;
    && OnlyPost(db, after, p)
    && Shows(after, p, after.posts[p].status)
    && Stamped(after, p, db.posts[p].publishedAt, now)
  }

  /** The reference ids and thumbnail ids of the target's group. */
  ghost predicate IsMediaOf(mediaIds: seq<string>, content: seq<Group>, groupId: string) {
    forall m, g | IsFirstGroup(content, groupId, g) ::
      m in mediaIds <==> exists i, j | 0 <= i < |content[g].segments| && 0 <= j < |content[g].segments[i].media| ::
        content[g].segments[i].media[j].id == m || ThumbnailIs(content[g].segments[i].media[j], m)
  }

  /** One pass of follow-up work for the target's own workspace, connection, post and media. */
  ghost predicate Follows(db: Database, after: Database, t: string, platformPostId: string, now: int)
    requires t in db.targets && db.targets[t].postId in db.posts
  {
    exists row: Row, mediaIds: seq<string> ::
      && row.postId == db.targets[t].postId && row.connectionId == db.targets[t].connectionId
      && row.workspaceId == db.posts[db.targets[t].postId].workspaceId
      && IsMediaOf(mediaIds, db.posts[db.targets[t].postId].content, db.targets[t].groupId)
      && SameFollowUps(FollowUp(db, row, platformPostId, mediaIds, now), after)
  }

  lemma MediaOfRow(db: Database, t: string)
    requires Readable(db, t)
    ensures IsMediaOf(MediaIdsOf(RowOf(db, t)), db.posts[db.targets[t].postId].content, db.targets[t].groupId)
  {
    var row := RowOf(db, t);
    var content := db.posts[db.targets[t].postId].content;
    forall m, g | IsFirstGroup(content, row.groupId, g)
      ensures m in MediaIdsOf(row) <==>
        exists i, j | 0 <= i < |content[g].segments| && 0 <= j < |content[g].segments[i].media| ::
          content[g].segments[i].media[j].id == m || ThumbnailIs(content[g].segments[i].media[j], m)
    {
      assert SegmentsOf(row) == content[g].segments;
      MediaIdsAre(SegmentsOf(row), m);
    }
  }

  /** What the runner's answer is finalized on: the tables after the granted lease and the saves. */
  lemma FinalizeWorked(db: Database, worked: Database, t: string, row: Row, outcome: Outcome, now: int)
    requires t in db.targets && db.targets[t].postId in db.posts && !outcome.ContinueAt?
    requires row.id == t && row.postId == db.targets[t].postId
    requires worked.targets.Keys == db.targets.Keys && worked.targets == db.targets[t := worked.targets[t]]
    requires worked.targets[t].status == Publishing && worked.targets[t].attempts == db.targets[t].attempts + 1
    requires SameFollowUps(db, worked) && OnlyPost(db, worked, row.postId)
    requires worked.posts[row.postId] == db.posts[row.postId].(status := PostPublishing)
    ensures var (after, ok) := Finalize(worked, row, outcome, MediaIdsOf(row), db.targets[t].attempts + 1, now);
            && ok && PostFollows(db, after, t, now)
            && after.targets == db.targets[t := after.targets[t]]
            && after.targets[t] ==
                 (match outcome
                  case Confirmed(result) => worked.targets[t].(
                    status := Published, platformPostId := Some(result.platformPostId), error := None, updatedAt := now)
                  case Rejected(message, retryable) => worked.targets[t].(
                    status := if retryable then Pending else Failed, error := Some(message), updatedAt := now))
            && SameFollowUps(
                 if outcome.Confirmed?
                 then FollowUp(db, row, outcome.result.platformPostId, MediaIdsOf(row), now) else db, after)
  {
    hide FollowUp, Finalize, Shows, Stamped, MediaIdsOf;
    FinalizeExactly(worked, row, outcome, MediaIdsOf(row), db.targets[t].attempts + 1, now);
    if outcome.Confirmed? {
      FollowUpReadsNoTargets(db, worked, row, outcome.result.platformPostId, MediaIdsOf(row), now);
    }
  }

  /**
   * The runner confirms: the target is published under the confirmed id, its outcome is saved beside the runner's own
   * progress, the follow-up work is done once, and the post shows it.
   */
  lemma ConfirmedCallPublishes(db: Database, t: string, now: int, world: World, result: PostResult)
    requires Due(db, t, now) && InOrder(db, t, world.library) && world.resolvable
    requires world.report == Some(Confirmed(result))
    ensures var v := Visit(db, t, now, world);
            && v.reply == Null && v.called
            && v.db.targets == db.targets[t := Worked(db.targets[t], world.saves, now).(
                 status := Published,
                 platformPostId := Some(result.platformPostId),
                 error := None,
                 state := Progressed(db.targets[t].state, world.saves).(executionOutcome := Some(Confirmed(result))))]
            && Follows(db, v.db, t, result.platformPostId, now)
            && PostFollows(db, v.db, t, now)
  {
    hide Visit, InOrder, Finalize, SaveAll, FollowUp, Acquire, PostFollows, MediaIdsOf, IsMediaOf, FailBefore;
    var row, token := RowOf(db, t), db.targets[t].attempts + 1;
    VisitHolds(db, t, now, world);
    var held := Acquire(db, row, now).0;
    RunnerWorks(db, held, t, world.saves, now);
    var progressed := SaveAll(held, t, token, world.saves, now);
    HolderWritesExactly(progressed, t, token, row.state, Confirmed(result), now);
    var worked := SaveOutcome(progressed, t, token, Confirmed(result), now).0;
    FinalizeWorked(db, worked, t, row, Confirmed(result), now);
    MediaOfRow(db, t);
  }

  /** An outcome saved earlier is finalized under the row's own token, without the content being looked at. */
  lemma SavedOutcomePublishes(db: Database, t: string, now: int, world: World)
    requires t in db.targets && db.targets[t].postId in db.posts && !db.posts[db.targets[t].postId].deleted
    requires db.targets[t].state.HasConfirmed() && db.targets[t].status != Published
    ensures var v := Visit(db, t, now, world);
            var id := db.targets[t].state.executionOutcome.value.result.platformPostId;
            && v.reply == Null && !v.called
            && v.db.targets == db.targets[t := db.targets[t].(
                 status := Published, platformPostId := Some(id), error := None, updatedAt := now)]
            && Follows(db, v.db, t, id, now)
            && PostFollows(db, v.db, t, now)
  {
    hide Finalize, FollowUp, MediaIdsOf, IsMediaOf, Shows, Stamped, CheckRow, Publish;
    var row := RowOf(db, t);
    FinalizeExactly(db, row, row.state.executionOutcome.value, MediaIdsOf(row), row.attempts, now);
    MediaOfRow(db, t);
  }

  /** The runner rejects the post: the target goes back to pending, with an error thrown, or fails. */
  lemma RejectedCallFails(db: Database, t: string, now: int, world: World, message: string, retryable: bool)
    requires Due(db, t, now) && InOrder(db, t, world.library) && world.resolvable
    requires world.report == Some(Rejected(message, retryable))
    ensures var v := Visit(db, t, now, world);
            && v.reply == (if retryable then Threw else Null) && v.called
            && v.db.targets == db.targets[t := Worked(db.targets[t], world.saves, now).(
                 status := if retryable then Pending else Failed,
                 error := Some(message))]
            && SameFollowUps(db, v.db) && PostFollows(db, v.db, t, now)
  {
    hide Visit, InOrder, Finalize, SaveAll, FollowUp, Acquire, PostFollows, MediaIdsOf, FailBefore;
    var row, token := RowOf(db, t), db.targets[t].attempts + 1;
    VisitHolds(db, t, now, world);
    var held := Acquire(db, row, now).0;
    RunnerWorks(db, held, t, world.saves, now);
    FinalizeWorked(db, SaveAll(held, t, token, world.saves, now), t, row, Rejected(message, retryable), now);
  }

  /** The runner asks to be resumed: the target is pending again with its progress, and the reply is the resume time. */
  lemma ContinuedCallYields(db: Database, t: string, now: int, world: World, at: int)
    requires Due(db, t, now) && InOrder(db, t, world.library) && world.resolvable
    requires world.report == Some(ContinueAt(at))
    ensures var v := Visit(db, t, now, world);
            var p := db.targets[t].postId;
            && v.reply == ResumeAt(at) && v.called
            && v.db.targets == db.targets[t := Worked(db.targets[t], world.saves, now).(status := Pending)]
            && SameFollowUps(db, v.db) && OnlyPost(db, v.db, p)
            && v.db.posts[p] == db.posts[p].(status := PostPublishing)
  {
    hide Visit, InOrder, Finalize, SaveAll, FollowUp, Acquire, FailBefore;
    var row, token := RowOf(db, t), db.targets[t].attempts + 1;
    VisitHolds(db, t, now, world);
    var held := Acquire(db, row, now).0;
    RunnerWorks(db, held, t, world.saves, now);
    var progressed := SaveAll(held, t, token, world.saves, now);
    HolderWritesExactly(progressed, t, token, row.state, ContinueAt(at), now);
  }

  /** The runner dies: the call throws and leaves the target leased, with the progress saved so far. */
  lemma DyingCallThrows(db: Database, t: string, now: int, world: World)
    requires Due(db, t, now) && InOrder(db, t, world.library) && world.resolvable && world.report.None?
    ensures var v := Visit(db, t, now, world);
            var p := db.targets[t].postId;
            && v.reply == Threw && v.called
            && v.db.targets == db.targets[t := Worked(db.targets[t], world.saves, now)]
            && SameFollowUps(db, v.db) && OnlyPost(db, v.db, p)
            && v.db.posts[p] == db.posts[p].(status := PostPublishing)
  {
    hide Visit, InOrder, Finalize, SaveAll, FollowUp, Acquire, FailBefore, Settle;
    VisitHolds(db, t, now, world);
    RunnerWorks(db, Acquire(db, RowOf(db, t), now).0, t, world.saves, now);
  }

  /** Media URLs that cannot be resolved fail the target without a provider call. */
  lemma UnresolvableCallFails(db: Database, t: string, now: int, world: World)
    requires Due(db, t, now) && InOrder(db, t, world.library) && !world.resolvable
    ensures var v := Visit(db, t, now, world);
            && v.reply == Null && !v.called
            && v.db.targets == db.targets[t := Worked(db.targets[t], [], now).(
                 status := Failed, error := Some("Unable to resolve authoritative media URLs"))]
            && SameFollowUps(db, v.db) && OnlyPost(db, v.db, db.targets[t].postId)
            && Shows(v.db, db.targets[t].postId, v.db.posts[db.targets[t].postId].status)
  {
    hide Visit, InOrder, Finalize, SaveAll, FollowUp, Acquire, FailBefore, Settle, Shows;
    VisitHolds(db, t, now, world);
    FailBeforeExactly(Acquire(db, RowOf(db, t), now).0, t, RowOf(db, t).postId, UNRESOLVED, now);
  }

  /** A refused target fails with the reason as its error, whatever its lease. */
  lemma RefusedCallFails(db: Database, t: string, now: int, world: World)
    requires t in db.targets && db.targets[t].postId in db.posts && !db.posts[db.targets[t].postId].deleted
    requires db.targets[t].status in {Pending, Publishing} && !db.targets[t].state.HasConfirmed()
    requires CheckRow(RowOf(db, t), world.library).Refused?
    ensures var v := Visit(db, t, now, world);
            && v.reply == Null && !v.called && t in v.db.targets
            && Reason(RowOf(db, t), world.library, v.db.targets[t].error.GetOr(""))
            && v.db.targets == db.targets[t := db.targets[t].(status := Failed, error := v.db.targets[t].error, updatedAt := now)]
            && v.db.targets[t].error.Some?
            && SameFollowUps(db, v.db) && OnlyPost(db, v.db, db.targets[t].postId)
            && Shows(v.db, db.targets[t].postId, v.db.posts[db.targets[t].postId].status)
  {
    hide CheckRow, Reason, FailBefore, Shows, Publish, Finalize;
    var row := RowOf(db, t);
    RefusedBecause(row, world.library);
    FailBeforeExactly(db, t, row.postId, CheckRow(row, world.library).message, now);
  }

  /** Nothing happens to a target that is absent, or of a missing or deleted post, or settled with nothing to finalize. */
  lemma SettledCallDoesNothing(db: Database, t: string, now: int, world: World)
    requires t in db.targets && db.targets[t].postId in db.posts && !db.posts[db.targets[t].postId].deleted ==>
      db.targets[t].status == Published
      || (db.targets[t].status == Failed
          && !(db.targets[t].state.executionOutcome.Some? && db.targets[t].state.executionOutcome.value.Confirmed?))
    ensures Visit(db, t, now, world) == Visited(db, Null, false)
  {
  }
}
