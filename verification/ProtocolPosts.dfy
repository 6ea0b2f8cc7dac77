/** The stored post status and `published_at` over whole runs of the publish protocol. */
module ProtocolPosts {
  import opened Wrappers
  import opened PublishRecords
  import opened Rollup
  import opened Transactions
  import opened Protocol
  import opened ProtocolInvariant
  import opened ProtocolRuns

  /**
   * A post whose status some step has written shows the roll-up of its targets, except that it may still
   * show "publishing" while one of its targets is pending or publishing.
   */
  predicate PostAgrees(s: State, p: string) {
    p in s.rolled && p in s.db.posts ==>
      var statuses := StatusesOf(s.db, p);
      || s.db.posts[p].status == RollupSet(statuses)
      || (s.db.posts[p].status == PostPublishing && (Pending in statuses || Publishing in statuses))
  }

  datatype PostWrite = Untouched | MarkedPublishing | RolledUp

  /** How a step writes the post of its own target. */
  function PostWriteOf(s: State, step: Step): PostWrite
    requires Enabled(s, step) && Known(s, step)
  {
    match step
    case GiveUp(_, _) => RolledUp
    case AcquireLease(w) =>
      if !Leasable(s.db, s.workers[w].row.id, s.now) then Untouched
      else if Uncertain(s.db, s.workers[w].row) then RolledUp else MarkedPublishing
    case FinalizeTarget(w, _) =>
      if FinalizeFence(s.db, s.workers[w].row.id, ReadyToFinalize(s.workers[w]).token) then RolledUp else Untouched
    case _ => Untouched
  }

  predicate PostsWritten(s: State, after: State, postId: string, how: PostWrite) {
    && after.db.posts.Keys == s.db.posts.Keys
    && (forall p | p in s.db.posts && p != postId :: after.db.posts[p] == s.db.posts[p])
    && after.rolled == (if how.Untouched? then s.rolled else s.rolled + {postId})
    && (postId in s.db.posts ==>
          var before, now := s.db.posts[postId], after.db.posts[postId];
          && now == before.(status := now.status, publishedAt := now.publishedAt)
          && (how.Untouched? ==> now == before)
          && (how.MarkedPublishing? ==> now == before.(status := PostPublishing))
          && (how.RolledUp? ==> now.status == RollupSet(StatusesOf(after.db, postId)))
          && (before.publishedAt.Some? ==> now.publishedAt == before.publishedAt))
  }

  lemma ApplyAcquires(s: State, step: Step)
    requires Enabled(s, step) && step.AcquireLease?
    ensures var row := s.workers[step.w].row;
            && Apply(s, step).db == Acquire(s.db, row, s.now).0
            && Apply(s, step).rolled == (if Leasable(s.db, row.id, s.now) then s.rolled + {row.postId} else s.rolled)
  {
    hide Acquire, Leasable;
  }

  /** A request that finds no lease to take, or fails a stale one. */
  lemma AcquireDeclines(s: State, step: Step)
    requires Enabled(s, step) && Known(s, step) && step.AcquireLease? && !PostWriteOf(s, step).MarkedPublishing?
    ensures PostsWritten(s, Apply(s, step), s.workers[step.w].row.postId, PostWriteOf(s, step))
  {
    hide RollupSet, StatusesOf, Apply, FailBefore;
    ApplyAcquires(s, step);
    FailBeforePosts(s.db, s.workers[step.w].row, UNCERTAIN, s.now);
  }

  /** A granted lease marks the post. */
  lemma AcquireMarks(s: State, step: Step)
    requires Enabled(s, step) && Known(s, step) && step.AcquireLease? && PostWriteOf(s, step).MarkedPublishing?
    ensures PostsWritten(s, Apply(s, step), s.workers[step.w].row.postId, MarkedPublishing)
  {
    hide RollupSet, StatusesOf, Apply, FailBefore;
    ApplyAcquires(s, step);
  }

  lemma AcquirePosts(s: State, step: Step)
    requires Enabled(s, step) && Known(s, step) && step.AcquireLease?
    ensures PostsWritten(s, Apply(s, step), s.workers[step.w].row.postId, PostWriteOf(s, step))
  {
    hide Apply, PostsWritten;
    if PostWriteOf(s, step).MarkedPublishing? {
      AcquireMarks(s, step);
    } else {
      AcquireDeclines(s, step);
    }
  }

  lemma FinalizePosts(s: State, step: Step)
    requires Enabled(s, step) && Known(s, step) && step.FinalizeTarget?
    ensures PostsWritten(s, Apply(s, step), s.workers[step.w].row.postId, PostWriteOf(s, step))
  {
    var ready := ReadyToFinalize(s.workers[step.w]);
    FinalizeTargets(s.db, s.workers[step.w].row, ready.outcome, step.mediaIds, ready.token, s.now);
    hide FollowUps.FollowUp, RollupSet, StatusesOf, RollUpAndStamp;
  }

  lemma GiveUpPosts(s: State, step: Step)
    requires Enabled(s, step) && Known(s, step) && step.GiveUp?
    ensures PostsWritten(s, Apply(s, step), s.workers[step.w].row.postId, PostWriteOf(s, step))
  {
    hide RollupSet, StatusesOf, FailBefore;
    FailBeforePosts(s.db, s.workers[step.w].row, step.message, s.now);
  }

  /** The steps that write a row, or nothing, but no post. */
  lemma QuietPosts(s: State, step: Step)
    requires Enabled(s, step) && Known(s, step) && !step.Tick? && !step.Read?
    requires !step.FinalizeTarget? && !step.AcquireLease? && !step.GiveUp?
    ensures PostsWritten(s, Apply(s, step), s.workers[step.w].row.postId, PostWriteOf(s, step))
  {
    hide RollupSet, StatusesOf, FailBefore, Acquire, Finalize;
  }

  lemma StepPosts(s: State, step: Step)
    requires Enabled(s, step) && Known(s, step) && !step.Tick? && !step.Read?
    ensures PostsWritten(s, Apply(s, step), s.workers[step.w].row.postId, PostWriteOf(s, step))
  {
    hide Apply, PostsWritten;
    match step {
      case FinalizeTarget(w, mediaIds) => FinalizePosts(s, step);
      case AcquireLease(w) => AcquirePosts(s, step);
      case GiveUp(w, message) => GiveUpPosts(s, step);
      case _ => QuietPosts(s, step);
    }
  }

  lemma FailBeforePosts(db: Database, row: Row, message: string, now: int)
    ensures var after := FailBefore(db, row.id, row.postId, message, now);
            && after.posts.Keys == db.posts.Keys
            && (forall p | p in db.posts && p != row.postId :: after.posts[p] == db.posts[p])
            && (row.postId in db.posts ==>
                  after.posts[row.postId] == db.posts[row.postId].(status := RollupSet(StatusesOf(after, row.postId))))
  {
    hide RollupSet;
    var failed :=
      if row.id in db.targets
      then WriteTarget(db, row.id, db.targets[row.id].(status := Failed, error := Some(message), updatedAt := now))
      else db;
    SameStatuses(failed, FailBefore(db, row.id, row.postId, message, now), row.postId);
  }

  /** Rewriting one row changes the statuses of no post but its own, and not even those if it keeps its status. */
  lemma OtherStatuses(before: Database, after: Database, t: string, p: string)
    requires t in before.targets && t in after.targets
    requires after.targets == before.targets[t := after.targets[t]]
    requires after.targets[t].postId == before.targets[t].postId
    requires before.targets[t].postId != p || after.targets[t].status == before.targets[t].status
    ensures StatusesOf(after, p) == StatusesOf(before, p)
  {
    SameOwnStatuses(before, after, p);
  }

  lemma SameOwnStatuses(before: Database, after: Database, p: string)
    requires forall t | t in before.targets && before.targets[t].postId == p ::
      t in after.targets && after.targets[t].postId == p && after.targets[t].status == before.targets[t].status
    requires forall t | t in after.targets && after.targets[t].postId == p ::
      t in before.targets && before.targets[t].postId == p && after.targets[t].status == before.targets[t].status
    ensures StatusesOf(after, p) == StatusesOf(before, p)
  {
  }

  lemma PostAgreesStep(s: State, step: Step, p: string)
    requires Coherent(s) && Enabled(s, step) && PostAgrees(s, p)
    ensures PostAgrees(Apply(s, step), p)
  {
    hide RollupSet, Apply;
    KnownStep(s, step);
    StepEffect(s, step);
    var after := Apply(s, step);
    if step.Tick? || step.Read? {
      TickReadKeepPosts(s, step);
    } else {
      var t := s.workers[step.w].row.id;
      StepPosts(s, step);
      StepGrowsRows(s, step, t);
      assert s.workers[step.w].row.postId == s.db.targets[t].postId;
      if p != s.db.targets[t].postId || after.db.targets[t].status == s.db.targets[t].status {
        OtherStatuses(s.db, after.db, t, p);
      }
      if p == s.db.targets[t].postId {
        UntouchedPostStatus(s, step);
        StatusOccurs(s.db, t);
        StatusOccurs(after.db, t);
        PublishingRollsUp(StatusesOf(s.db, p));
        PublishingRollsUp(StatusesOf(after.db, p));
      }
    }
  }

  lemma TickReadKeepPosts(s: State, step: Step)
    requires Enabled(s, step) && (step.Tick? || step.Read?)
    ensures Apply(s, step).rolled == s.rolled && Apply(s, step).db == s.db
  {
  }

  lemma PublishingRollsUp(statuses: set<TargetStatus>)
    ensures Publishing in statuses ==> RollupSet(statuses) == PostPublishing
  {
  }

  lemma StatusOccurs(db: Database, t: string)
    requires t in db.targets
    ensures db.targets[t].status in StatusesOf(db, db.targets[t].postId)
  {
  }

  /** A step that leaves the post alone leaves the target's status alone, or yields a lease back to pending. */
  lemma UntouchedPostStatus(s: State, step: Step)
    requires Coherent(s) && Enabled(s, step) && Known(s, step) && !step.Tick? && !step.Read?
    ensures var before, after := s.db.targets[s.workers[step.w].row.id], RowAfter(s, step);
            && (PostWriteOf(s, step).Untouched? ==>
                  after.status == before.status || (before.status == Publishing && after.status == Pending))
            && (PostWriteOf(s, step).MarkedPublishing? ==> after.status == Publishing)
  {
  }

  lemma {:induction false} RunPostAgrees(r: Run, i: nat, p: string)
    requires IsRun(r) && i < |r.states|
    ensures PostAgrees(r.states[i], p)
  {
    if i > 0 {
      RunPostAgrees(r, i - 1, p);
      RunCoherent(r, i - 1);
      PostAgreesStep(r.states[i - 1], r.steps[i - 1], p);
    }
  }

  /** Settling a target makes its post one whose status a step has written. */
  lemma SettlingWritesThePost(s: State, step: Step, t: string)
    requires Coherent(s) && Enabled(s, step) && t in s.db.targets
    requires t in Apply(s, step).db.targets
    requires s.db.targets[t].status != Apply(s, step).db.targets[t].status
    requires Apply(s, step).db.targets[t].status in {Published, Failed}
    ensures s.db.targets[t].postId in Apply(s, step).rolled
  {
    hide Apply, Coherent, StatusesOf, RollupSet;
    KnownStep(s, step);
    if !step.Tick? && !step.Read? {
      CoherentMember(s, step.w);
      StepPosts(s, step);
    }
    StepEffect(s, step);
  }

  lemma {:induction false} RolledGrows(r: Run, i: nat, j: nat, p: string)
    requires IsRun(r) && i <= j < |r.states| && p in r.states[i].rolled
    ensures p in r.states[j].rolled
    decreases j
  {
    hide Apply;
    if i < j {
      RolledGrows(r, i, j - 1, p);
      RunCoherent(r, j - 1);
      var s, step := r.states[j - 1], r.steps[j - 1];
      if step.Tick? || step.Read? {
        TickReadKeepPosts(s, step);
      } else {
        assert CoherentWorker(s, step.w);
        StepPosts(s, step);
      }
    }
  }

  /**
   * Once step `k` has settled some target of a post, then in every later state in which every target of that
   * post is published or failed the post shows the roll-up of its target statuses, listed in any order.
   */
  lemma SettledPostShowsRollup(r: Run, k: nat, i: nat, t: string, listing: seq<TargetStatus>)
    requires IsRun(r) && k < i < |r.states|
    requires t in r.states[k].db.targets && t in r.states[k + 1].db.targets
    requires r.states[k].db.targets[t].status != r.states[k + 1].db.targets[t].status
    requires r.states[k + 1].db.targets[t].status in {Published, Failed}
    requires var p := r.states[k].db.targets[t].postId;
             && p in r.states[i].db.posts
             && (forall x | x in r.states[i].db.targets && r.states[i].db.targets[x].postId == p ::
                   r.states[i].db.targets[x].status in {Published, Failed})
             && (set x | x in listing) == StatusesOf(r.states[i].db, p)
    ensures r.states[i].db.posts[r.states[k].db.targets[t].postId].status == RollupList(listing)
  {
    hide Apply;
    var p := r.states[k].db.targets[t].postId;
    RunCoherent(r, k);
    SettlingWritesThePost(r.states[k], r.steps[k], t);
    RolledGrows(r, k + 1, i, p);
    RunPostAgrees(r, i, p);
    RollupIsOfTheSet(listing);
  }

  /** `published_at`, once set, is never changed or cleared by any step of any run. */
  lemma {:induction false} PublishedAtIsWriteOnce(r: Run, i: nat, j: nat, p: string)
    requires IsRun(r) && i <= j < |r.states|
    requires p in r.states[i].db.posts && r.states[i].db.posts[p].publishedAt.Some?
    ensures p in r.states[j].db.posts && r.states[j].db.posts[p].publishedAt == r.states[i].db.posts[p].publishedAt
    decreases j
  {
    hide Apply;
    if i < j {
      PublishedAtIsWriteOnce(r, i, j - 1, p);
      var s, step := r.states[j - 1], r.steps[j - 1];
      RunCoherent(r, j - 1);
      if step.Tick? || step.Read? {
        TickReadKeepPosts(s, step);
      } else {
        assert CoherentWorker(s, step.w);
        StepPosts(s, step);
      }
    }
  }
}
