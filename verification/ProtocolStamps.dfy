/** `published_at` over whole runs: a post whose targets are all published has one. */
module ProtocolStamps {
  import opened Wrappers
  import opened PublishRecords
  import opened Transactions
  import opened TransactionContracts
  import opened Protocol
  import opened ProtocolInvariant
  import opened ProtocolRuns
  import opened ProtocolPosts
  import opened ProtocolTriggers

  /** The post has targets, and every one of them is published. */
  ghost predicate AllPublished(s: State, p: string) {
    && (exists t | t in s.db.targets :: s.db.targets[t].postId == p)
    && forall t | t in s.db.targets && s.db.targets[t].postId == p :: s.db.targets[t].status == Published
  }

  ghost predicate PublishedHasTime(s: State, p: string) {
    p in s.db.posts && AllPublished(s, p) ==> s.db.posts[p].publishedAt.Some?
  }

  /** The step that publishes a post's last target sets the time if it is not set. */
  lemma LastPublicationStamps(s: State, step: Step, t: string)
    requires Coherent(s) && Enabled(s, step) && ActsOn(s, step, t) && Publishes(s, step)
    requires s.workers[step.w].row.postId in s.db.posts && AllPublished(Apply(s, step), s.workers[step.w].row.postId)
    ensures var p := s.workers[step.w].row.postId;
            && p in Apply(s, step).db.posts
            && Apply(s, step).db.posts[p].publishedAt ==
                 if s.db.posts[p].publishedAt.Some? then s.db.posts[p].publishedAt else Some(s.now)
  {
    hide Apply, Finalize, Coherent, Shows;
    var row, ready := s.workers[step.w].row, ReadyToFinalize(s.workers[step.w]);
    ApplyFinalizes(s, step);
    FinalizeExactly(s.db, row, ready.outcome, step.mediaIds, ready.token, s.now);
  }

  lemma PublishedHasTimeStep(s: State, step: Step, p: string)
    requires Coherent(s) && Enabled(s, step) && PublishedHasTime(s, p)
    ensures PublishedHasTime(Apply(s, step), p)
  {
    hide Apply, Publishes;
    if step.Tick? || step.Read? {
      TickReadKeepPosts(s, step);
    } else {
      KnownStep(s, step);
      StepPosts(s, step);
      StepKeepsKeys(s, step);
      var after := Apply(s, step);
      if p in s.db.posts && AllPublished(after, p) && !AllPublished(s, p) {
        var t := LastToBePublished(s, step, p);
        BecomesPublished(s, step, t);
        CoherentMember(s, step.w);
        LastPublicationStamps(s, step, t);
      }
    }
  }

  /** If all targets of a post have just become published, one of them has. */
  lemma LastToBePublished(s: State, step: Step, p: string) returns (t: string)
    requires Coherent(s) && Enabled(s, step) && AllPublished(Apply(s, step), p) && !AllPublished(s, p)
    ensures t in s.db.targets && t in Apply(s, step).db.targets && s.db.targets[t].postId == p
    ensures s.db.targets[t].status != Published && Apply(s, step).db.targets[t].status == Published
  {
    hide Apply, Coherent;
    StepKeepsKeys(s, step);
    var after := Apply(s, step);
    var some :| some in after.db.targets && after.db.targets[some].postId == p;
    StepGrowsRows(s, step, some);
    t :| t in s.db.targets && s.db.targets[t].postId == p && s.db.targets[t].status != Published;
    StepGrowsRows(s, step, t);
  }

  /** In every reachable state a post whose targets are all published has a time of publication. */
  lemma {:induction false} PublishedPostHasTime(r: Run, i: nat, p: string)
    requires IsRun(r) && i < |r.states|
    ensures PublishedHasTime(r.states[i], p)
  {
    hide Apply;
    if i > 0 {
      PublishedPostHasTime(r, i - 1, p);
      RunCoherent(r, i - 1);
      PublishedHasTimeStep(r.states[i - 1], r.steps[i - 1], p);
    }
  }
}
