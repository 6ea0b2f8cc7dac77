/** Automation triggers over whole runs of the publish protocol: no trigger gains a platform id twice. */
module ProtocolTriggers {
  import opened PublishRecords
  import opened FollowUps
  import opened Transactions
  import opened Protocol
  import opened ProtocolInvariant
  import opened ProtocolRuns
  import opened ProtocolPosts

  /** Every run works for the workspace its post belongs to. */
  ghost predicate OwnersKnown(s: State) {
    forall w | w in s.workers ::
      s.workers[w].row.postId in s.db.posts && s.workers[w].row.workspaceId == s.db.posts[s.workers[w].row.postId].workspaceId
  }

  /** A step adds and drops no post and moves none to another workspace. */
  lemma StepKeepsOwners(s: State, step: Step)
    requires Coherent(s) && Enabled(s, step)
    ensures Apply(s, step).db.posts.Keys == s.db.posts.Keys
    ensures forall p | p in s.db.posts :: Apply(s, step).db.posts[p].workspaceId == s.db.posts[p].workspaceId
  {
    hide Apply;
    KnownStep(s, step);
    if step.Tick? || step.Read? {
      TickReadKeepPosts(s, step);
    } else {
      StepPosts(s, step);
    }
  }

  lemma OwnersKnownStep(s: State, step: Step)
    requires Coherent(s) && Enabled(s, step) && OwnersKnown(s)
    ensures OwnersKnown(Apply(s, step))
  {
    hide Apply, WorkerAfter, RowAfter, Coherent, Enabled;
    KnownStep(s, step);
    StepEffect(s, step);
    StepKeepsOwners(s, step);
    var after := Apply(s, step);
    forall w | w in after.workers
      ensures after.workers[w].row.postId in after.db.posts
      ensures after.workers[w].row.workspaceId == after.db.posts[after.workers[w].row.postId].workspaceId
    {
      if !step.Tick? && step.w == w {
        ActorKeepsRow(s, step);
      } else {
        assert after.workers[w] == s.workers[w];
      }
    }
  }

  lemma ActorKeepsRow(s: State, step: Step)
    requires Enabled(s, step) && Known(s, step) && !step.Tick?
    ensures if step.Read? then Readable(s.db, step.t) && WorkerAfter(s, step).row == RowOf(s.db, step.t)
            else step.w in s.workers && WorkerAfter(s, step).row == s.workers[step.w].row
  {
  }

  lemma {:induction false} RunOwnersKnown(r: Run, i: nat)
    requires IsRun(r) && i < |r.states|
    ensures OwnersKnown(r.states[i])
  {
    if i > 0 {
      RunOwnersKnown(r, i - 1);
      RunCoherent(r, i - 1);
      OwnersKnownStep(r.states[i - 1], r.steps[i - 1]);
    }
  }

  /** A step that commits a confirmed outcome, with all that follows it. */
  predicate Publishes(s: State, step: Step)
    requires Enabled(s, step)
  {
    step.FinalizeTarget?
    && var ready := ReadyToFinalize(s.workers[step.w]);
       ready.outcome.Confirmed? && FinalizeFence(s.db, s.workers[step.w].row.id, ready.token)
  }

  predicate SameFollowUps(after: Database, before: Database) {
    after.automations == before.automations && after.index == before.index && after.jobs == before.jobs
  }

  lemma QuietFailure(db: Database, row: Row, message: string, now: int)
    ensures SameFollowUps(FailBefore(db, row.id, row.postId, message, now), db)
  {
  }

  lemma QuietAcquire(db: Database, row: Row, now: int)
    ensures SameFollowUps(Acquire(db, row, now).0, db)
  {
    hide FailBefore;
    QuietFailure(db, row, UNCERTAIN, now);
  }

  lemma QuietFinalize(db: Database, row: Row, outcome: Outcome, mediaIds: seq<string>, token: nat, now: int)
    requires !outcome.ContinueAt? && !(outcome.Confirmed? && FinalizeFence(db, row.id, token))
    ensures SameFollowUps(Finalize(db, row, outcome, mediaIds, token, now).0, db)
  {
  }

  lemma QuietStep(s: State, step: Step)
    requires Enabled(s, step) && !Publishes(s, step)
    ensures SameFollowUps(Apply(s, step).db, s.db)
  {
    hide Acquire, FailBefore, Finalize;
    match step {
      case AcquireLease(w) => QuietAcquire(s.db, s.workers[w].row, s.now);
      case GiveUp(w, message) => QuietFailure(s.db, s.workers[w].row, message, s.now);
      case FinalizeTarget(w, mediaIds) =>
        var ready := ReadyToFinalize(s.workers[w]);
        QuietFinalize(s.db, s.workers[w].row, ready.outcome, mediaIds, ready.token, s.now);
      case _ =>
    }
  }

  lemma ApplyFinalizes(s: State, step: Step)
    requires Enabled(s, step) && step.FinalizeTarget?
    ensures var ready := ReadyToFinalize(s.workers[step.w]);
            Apply(s, step).db == Finalize(s.db, s.workers[step.w].row, ready.outcome, step.mediaIds, ready.token, s.now).0
  {
  }

  /** Only a publishing step touches automations, index, jobs or retention, and then it makes exactly one pass. */
  lemma StepFollows(s: State, step: Step)
    requires Enabled(s, step)
    ensures var after := Apply(s, step).db;
            if Publishes(s, step) then
              var id := ReadyToFinalize(s.workers[step.w]).outcome.result.platformPostId;
              var pass := FollowUp(s.db, s.workers[step.w].row, id, step.mediaIds, s.now);
              SameFollowUps(after, pass)
            else SameFollowUps(after, s.db)
  {
    hide FollowUp, Apply;
    if !Publishes(s, step) {
      QuietStep(s, step);
    } else {
      ApplyFinalizes(s, step);
      hide Finalize;
      var row, ready := s.workers[step.w].row, ReadyToFinalize(s.workers[step.w]);
      var settled := WriteTarget(s.db, row.id, SettledTarget(s.db.targets[row.id], ready.outcome, s.now));
      FinalizeConfirmed(s.db, row, ready.outcome.result, step.mediaIds, ready.token, s.now);
      FollowUpReadsNoTargets(s.db, settled, row, ready.outcome.result.platformPostId, step.mediaIds, s.now);
    }
  }

  /** An automation of the target's workspace and connection still waits for the target's post. */
  predicate StillWaits(s: State, a: string, t: string)
    requires a in s.db.automations && t in s.db.targets && s.db.targets[t].postId in s.db.posts
  {
    var automation, target := s.db.automations[a], s.db.targets[t];
    && automation.workspaceId == s.db.posts[target.postId].workspaceId
    && automation.connectionId == target.connectionId
    && exists trigger | trigger in automation.triggers :: Holds(trigger, target.postId)
  }

  ghost predicate Drained(s: State, t: string) {
    t in s.db.targets && s.db.targets[t].postId in s.db.posts
    && forall a | a in s.db.automations :: !StillWaits(s, a, t)
  }

  /** For a run of the drained target the query for waiting automations is empty. */
  lemma DrainedSelectsNothing(s: State, w: nat, t: string)
    requires Coherent(s) && OwnersKnown(s) && On(s, w, t) && t in s.db.targets && s.db.targets[t].postId in s.db.posts
    ensures Selected(s.db.automations, s.workers[w].row) == {} <==> Drained(s, t)
  {
    assert CoherentWorker(s, w);
    hide Coherent, Holds;
    forall a | a in s.db.automations ensures StillWaits(s, a, t) <==> Waiting(s.db.automations[a], s.workers[w].row) {
    }
    if !Drained(s, t) {
      var a :| a in s.db.automations && StillWaits(s, a, t);
      assert a in Selected(s.db.automations, s.workers[w].row);
    }
  }

  /** A pass makes no automation wait that did not. */
  lemma PassAddsNoWait(db: Database, row: Row, mediaId: string, mediaIds: seq<string>, now: int, a: string, postId: string)
    requires a in FollowUp(db, row, mediaId, mediaIds, now).automations
    ensures a in db.automations
    ensures var before, after := db.automations[a], FollowUp(db, row, mediaId, mediaIds, now).automations[a];
            && after.workspaceId == before.workspaceId && after.connectionId == before.connectionId
            && ((exists trigger | trigger in after.triggers :: Holds(trigger, postId)) ==>
                  exists trigger | trigger in before.triggers :: Holds(trigger, postId))
  {
    var before, after := db.automations[a], FollowUp(db, row, mediaId, mediaIds, now).automations[a];
    assert |after.triggers| == |before.triggers|;
    forall i | 0 <= i < |after.triggers| && Holds(after.triggers[i], postId) ensures Holds(before.triggers[i], postId) {
      PassResolvesTriggers(db, row, mediaId, mediaIds, now, a, i);
      assert postId in multiset(after.triggers[i].pendingPostIds.value);
    }
  }

  lemma DrainedStays(s: State, step: Step, t: string)
    requires Coherent(s) && Enabled(s, step) && Drained(s, t)
    ensures Drained(Apply(s, step), t)
  {
    hide Apply, FollowUp, Holds;
    StepGrowsRows(s, step, t);
    StepKeepsOwners(s, step);
    StepFollows(s, step);
    var after := Apply(s, step);
    forall a | a in after.db.automations ensures !StillWaits(after, a, t) {
      if Publishes(s, step) {
        var id := ReadyToFinalize(s.workers[step.w]).outcome.result.platformPostId;
        PassAddsNoWait(s.db, s.workers[step.w].row, id, step.mediaIds, s.now, a, s.db.targets[t].postId);
      }
      assert !StillWaits(s, a, t);
    }
  }

  lemma PublishingDrains(s: State, step: Step)
    requires Coherent(s) && OwnersKnown(s) && Enabled(s, step) && Publishes(s, step)
    ensures Drained(Apply(s, step), s.workers[step.w].row.id)
  {
    hide Apply, FollowUp, Selected, RowAfter;
    var row := s.workers[step.w].row;
    var id := ReadyToFinalize(s.workers[step.w]).outcome.result.platformPostId;
    assert CoherentWorker(s, step.w);
    StepFollows(s, step);
    NothingLeftSelected(s.db, row, id, step.mediaIds, s.now, row);
    CoherentStep(s, step);
    OwnersKnownStep(s, step);
    StepEffect(s, step);
    StepGrowsRows(s, step, row.id);
    StepKeepsOwners(s, step);
    DrainedSelectsNothing(Apply(s, step), step.w, row.id);
  }

  /** A target becomes published, and gains a platform id, by a publishing step of its own only. */
  lemma BecomesPublished(s: State, step: Step, t: string)
    requires Coherent(s) && Enabled(s, step) && t in s.db.targets && t in Apply(s, step).db.targets
    requires var before, after := s.db.targets[t], Apply(s, step).db.targets[t];
             (before.status != Published && after.status == Published)
             || (before.platformPostId.None? && after.platformPostId.Some?)
    ensures ActsOn(s, step, t) && Publishes(s, step)
  {
    hide Apply;
    KnownStep(s, step);
    StepEffect(s, step);
  }

  lemma {:induction false} PublishedWasDrained(r: Run, i: nat, t: string)
    requires IsRun(r) && i < |r.states| && t in r.states[i].db.targets && r.states[i].db.targets[t].status == Published
    ensures Drained(r.states[i], t)
  {
    hide Apply, Drained, Publishes;
    if i > 0 {
      var s, step := r.states[i - 1], r.steps[i - 1];
      RunCoherent(r, i - 1);
      RunOwnersKnown(r, i - 1);
      StepKeepsKeys(s, step);
      if s.db.targets[t].status == Published {
        PublishedWasDrained(r, i - 1, t);
        DrainedStays(s, step, t);
      } else {
        BecomesPublished(s, step, t);
        PublishingDrains(s, step);
      }
    }
  }

  /** In every reachable state, a target that has gained a platform id leaves no automation waiting for its post. */
  lemma {:induction false} PlatformIdMeansDrained(r: Run, i: nat, t: string)
    requires IsRun(r) && i < |r.states| && t in r.states[i].db.targets && r.states[i].db.targets[t].platformPostId.Some?
    requires t in r.states[0].db.targets ==> r.states[0].db.targets[t].platformPostId.None?
    ensures Drained(r.states[i], t)
  {
    hide Apply, Drained, Publishes;
    if i > 0 {
      var s, step := r.states[i - 1], r.steps[i - 1];
      RunCoherent(r, i - 1);
      RunOwnersKnown(r, i - 1);
      StepKeepsKeys(s, step);
      if s.db.targets[t].platformPostId.Some? {
        PlatformIdMeansDrained(r, i - 1, t);
        DrainedStays(s, step, t);
      } else {
        BecomesPublished(s, step, t);
        PublishingDrains(s, step);
      }
    }
  }

  /**
   * Once a target has been published, in this state or any earlier one, no automation of its workspace and connection
   * waits for its post any more, whatever other runs did since and even if a stale failure re-opened the row.
   */
  lemma {:induction false} PublishedStaysDrained(r: Run, i: nat, j: nat, t: string)
    requires IsRun(r) && i <= j < |r.states|
    requires t in r.states[i].db.targets && r.states[i].db.targets[t].status == Published
    ensures Drained(r.states[j], t)
    decreases j
  {
    hide Apply, Drained;
    if i == j {
      PublishedWasDrained(r, i, t);
    } else {
      PublishedStaysDrained(r, i, j - 1, t);
      RunCoherent(r, j - 1);
      DrainedStays(r.states[j - 1], r.steps[j - 1], t);
    }
  }

  /**
   * So no trigger gains a second platform id from a target: every later step for it, by whatever run, leaves all
   * triggers and the whole index as they are, drops no job, and adds or changes media reclaim jobs only.
   */
  lemma TriggersGainOnce(r: Run, i: nat, j: nat, t: string)
    requires IsRun(r) && i <= j < |r.steps| && i < |r.states|
    requires t in r.states[i].db.targets && r.states[i].db.targets[t].status == Published
    requires ActsOn(r.states[j], r.steps[j], t)
    ensures var before, after := r.states[j].db, r.states[j + 1].db;
            && after.automations == before.automations
            && after.index == before.index
            && before.jobs.Keys <= after.jobs.Keys
            && (forall k | k in after.jobs :: (k in before.jobs && after.jobs[k] == before.jobs[k])
                                              || after.jobs[k].payload.ReclaimMedia?)
  {
    hide Apply, Selected;
    var s, step := r.states[j], r.steps[j];
    PublishedStaysDrained(r, i, j, t);
    RunCoherent(r, j);
    RunOwnersKnown(r, j);
    DrainedSelectsNothing(s, step.w, t);
    StepFollows(s, step);
    if Publishes(s, step) {
      var id := ReadyToFinalize(s.workers[step.w]).outcome.result.platformPostId;
      EmptyPass(s.db, s.workers[step.w].row, id, step.mediaIds, s.now);
    }
  }

  lemma EmptyPass(db: Database, row: Row, mediaId: string, mediaIds: seq<string>, now: int)
    requires Selected(db.automations, row) == {}
    ensures var after := FollowUp(db, row, mediaId, mediaIds, now);
            && after.automations == db.automations
            && after.index == db.index
            && db.jobs.Keys <= after.jobs.Keys
            && (forall k | k in after.jobs :: (k in db.jobs && after.jobs[k] == db.jobs[k])
                                              || after.jobs[k].payload.ReclaimMedia?)
  {
    NothingChosen(db, row, mediaId, now);
  }
}
