/** What every step of the publish protocol keeps. */
module ProtocolInvariant {
  import opened Wrappers
  import opened PublishRecords
  import opened Transactions
  import opened Protocol

  predicate On(s: State, w: nat, t: string) {
    w in s.workers && s.workers[w].row.id == t
  }

  function SavedFor(s: State, t: string): Option<Outcome>
    requires t in s.db.targets
  {
    s.db.targets[t].state.executionOutcome
  }

  predicate CoherentWorker(s: State, w: nat)
    requires w in s.workers
  {
    var worker := s.workers[w];
    var row := worker.row;
    && row.id in s.db.targets
    && var target := s.db.targets[row.id];
       && row.postId == target.postId && row.platform == target.platform && row.connectionId == target.connectionId
       && row.attempts <= target.attempts
       && worker.readAt <= s.now && worker.acquiredAt <= s.now
       && (row.state.executionOutcome.Some? ==> row.state.HasConfirmed())
       && (worker.pc.Leased() ==>
             && worker.pc.token <= target.attempts
             && (row.id, worker.pc.token) in s.grants && s.grants[(row.id, worker.pc.token)] == w
             && row.state.executionOutcome.None?
             && worker.acquiredAt <= target.updatedAt)
       && (worker.pc.Saved? ==> worker.pc.outcome.Confirmed?)
  }

  predicate CoherentTarget(s: State, t: string)
    requires t in s.db.targets
  {
    && s.db.targets[t].updatedAt <= s.now
    && (SavedFor(s, t).Some? ==> SavedFor(s, t).value.Confirmed?)
  }

  /** Bookkeeping that holds on every platform: each token names one run, and no outcome but a confirmed one is saved. */
  ghost predicate Coherent(s: State) {
    && (forall w | w in s.workers :: CoherentWorker(s, w))
    && (forall t | t in s.db.targets :: CoherentTarget(s, t))
    && (forall k | k in s.grants :: k.0 in s.db.targets && k.1 <= s.db.targets[k.0].attempts)
  }

  predicate SoundWorker(s: State, w: nat)
    requires w in s.workers && s.workers[w].row.id in s.db.targets
  {
    var worker := s.workers[w];
    var target := s.db.targets[worker.row.id];
    var saved := target.state.executionOutcome;
    && (worker.pc.Active() ==>
          if worker.pc.token == target.attempts
          then saved.None? && target.status in {Publishing, Failed}
          else target.platform == "YOUTUBE" && target.updatedAt > worker.acquiredAt + LEASE)
    && (worker.row.state.executionOutcome.Some? ==> saved == worker.row.state.executionOutcome)
    && (worker.pc.Saved? ==> saved == Some(worker.pc.outcome))
    && (worker.pc.Loaded? && worker.row.state.executionOutcome.None? && saved.Some? ==>
          worker.readAt <= target.updatedAt)
  }

  predicate SoundTarget(s: State, t: string)
    requires t in s.db.targets
  {
    var target := s.db.targets[t];
    var saved := target.state.executionOutcome;
    && (saved.Some? ==> target.status != Pending)
    && (target.status == Published ==>
          target.state.HasConfirmed() && target.platformPostId == Some(saved.value.result.platformPostId))
  }

  /** What holds of one target as long as its leases are asked for in time. */
  ghost predicate Sound(s: State, t: string) {
    && t in s.db.targets
    && SoundTarget(s, t)
    && forall w | On(s, w, t) :: SoundWorker(s, w)
  }

  // How one step changes the rows: a step writes at most the row of its own worker.

  /** The row of the acting worker after a step. */
  function RowAfter(s: State, step: Step): Target
    requires Enabled(s, step) && !step.Tick? && !step.Read?
    requires s.workers[step.w].row.id in s.db.targets
  {
    var worker := s.workers[step.w];
    var t := worker.row.id;
    var target := s.db.targets[t];
    match step
    case GiveUp(_, message) => target.(status := Failed, error := Some(message), updatedAt := s.now)
    case AcquireLease(_) =>
      if !Leasable(s.db, t, s.now) then target
      else if Uncertain(s.db, worker.row) then target.(status := Failed, error := Some(UNCERTAIN), updatedAt := s.now)
      else target.(status := Publishing, attempts := target.attempts + 1, updatedAt := s.now)
    case SaveProgress(_, state) =>
      if LeaseActive(s.db, t, worker.pc.token) then target.(state := state, updatedAt := s.now) else target
    case YieldLease(_) =>
      if LeaseActive(s.db, t, worker.pc.token) then target.(status := Pending, updatedAt := s.now) else target
    case SaveConfirmed(_) =>
      if LeaseActive(s.db, t, worker.pc.token)
      then target.(state := target.state.(executionOutcome := Some(worker.pc.outcome)), updatedAt := s.now) else target
    case FinalizeTarget(_, _) =>
      var ready := ReadyToFinalize(worker);
      if FinalizeFence(s.db, t, ready.token) then SettledTarget(target, ready.outcome, s.now) else target
    case _ => target
  }

  predicate Grants(s: State, step: Step)
    requires Enabled(s, step)
  {
    step.AcquireLease? && Leasable(s.db, s.workers[step.w].row.id, s.now) && !Uncertain(s.db, s.workers[step.w].row)
  }

  /** The acting worker after a step. */
  function WorkerAfter(s: State, step: Step): Worker
    requires Enabled(s, step) && !step.Tick?
    requires !step.Read? ==> s.workers[step.w].row.id in s.db.targets
  {
    if step.Read? then Worker(RowOf(s.db, step.t), s.now, s.now, Loaded, true)
    else
      var worker := s.workers[step.w];
      match step
      case Quit(_) => worker.(pc := Finished(Null))
      case GiveUp(_, _) => worker.(pc := Finished(Null))
      case AcquireLease(_) =>
        if Grants(s, step)
        then worker.(pc := Acquired(s.db.targets[worker.row.id].attempts + 1), acquiredAt := s.now)
        else worker.(pc := Finished(ResumeAt(s.now + LEASE)))
      case ReuseOutcome(_) => worker.(pc := Returned(worker.pc.token, worker.row.state.executionOutcome.value))
      case CallRunner(_) => worker.(pc := InRunner(worker.pc.token))
      case SaveProgress(_, _) => worker
      case RunnerReturns(_, outcome) => worker.(pc := Returned(worker.pc.token, outcome))
      case YieldLease(_) => worker.(pc := Finished(ResumeAt(worker.pc.outcome.resumeAt)))
      case SaveConfirmed(_) =>
        worker.(pc := if LeaseActive(s.db, worker.row.id, worker.pc.token)
                      then Saved(worker.pc.token, worker.pc.outcome) else Finished(Threw))
      case FinalizeTarget(_, _) =>
        var ready := ReadyToFinalize(worker);
        worker.(pc := Finished(if FinalizeFence(s.db, worker.row.id, ready.token) then FinalReply(ready.outcome) else Threw))
      case Crash(_) => worker.(alive := false)
  }

  predicate Known(s: State, step: Step)
    requires Enabled(s, step)
  {
    !step.Tick? && !step.Read? ==> s.workers[step.w].row.id in s.db.targets
  }

  /** What a step does, in terms of rows, runs and tokens alone. */
  predicate Effect(s: State, step: Step, after: State)
    requires Enabled(s, step) && Known(s, step)
  {
    && after.now == (if step.Tick? then s.now + step.elapsed else s.now)
    && after.workers == (if step.Tick? then s.workers else s.workers[step.w := WorkerAfter(s, step)])
    && after.grants == (if Grants(s, step)
         then s.grants[(s.workers[step.w].row.id, s.db.targets[s.workers[step.w].row.id].attempts + 1) := step.w]
         else s.grants)
    && (if step.Tick? || step.Read? then after.db == s.db
        else after.db.targets == s.db.targets[s.workers[step.w].row.id := RowAfter(s, step)])
  }

  lemma AcquireEffect(s: State, step: Step)
    requires Enabled(s, step) && Known(s, step) && step.AcquireLease?
    ensures Effect(s, step, Apply(s, step))
  {
    hide FollowUps.FollowUp, Rollup.RollupSet, StatusesOf, FailBefore;
    AcquireTargets(s.db, s.workers[step.w].row, s.now);
  }

  lemma FinalizeEffect(s: State, step: Step)
    requires Enabled(s, step) && Known(s, step) && step.FinalizeTarget?
    ensures Effect(s, step, Apply(s, step))
  {
    hide FollowUps.FollowUp, Rollup.RollupSet, StatusesOf, FailBefore, Acquire;
    var ready := ReadyToFinalize(s.workers[step.w]);
    FinalizeTargets(s.db, s.workers[step.w].row, ready.outcome, step.mediaIds, ready.token, s.now);
  }

  lemma SimpleEffect(s: State, step: Step)
    requires Enabled(s, step) && Known(s, step) && !step.AcquireLease? && !step.FinalizeTarget?
    ensures Effect(s, step, Apply(s, step))
  {
    hide Acquire, Finalize, Rollup.RollupSet, StatusesOf;
  }

  lemma StepEffect(s: State, step: Step)
    requires Enabled(s, step) && Known(s, step)
    ensures Effect(s, step, Apply(s, step))
  {
    hide Effect, Apply;
    match step {
      case AcquireLease(_) => AcquireEffect(s, step);
      case FinalizeTarget(_, _) => FinalizeEffect(s, step);
      case _ => SimpleEffect(s, step);
    }
  }

  /** What one step may do to any row. */
  predicate RowGrows(before: Target, after: Target, now: int) {
    && after.postId == before.postId && after.platform == before.platform && after.connectionId == before.connectionId
    && before.attempts <= after.attempts
    && (after == before || after.updatedAt == now)
    && (after.state.executionOutcome.Some? && after.state != before.state ==> after.state.HasConfirmed())
  }

  lemma StepGrowsRows(s: State, step: Step, t: string)
    requires Coherent(s) && Enabled(s, step) && t in s.db.targets
    ensures t in Apply(s, step).db.targets
    ensures RowGrows(s.db.targets[t], Apply(s, step).db.targets[t], s.now)
    ensures CoherentTarget(Apply(s, step), t)
  {
    hide Apply;
    assert CoherentTarget(s, t);
    KnownStep(s, step);
    StepEffect(s, step);
  }

  /** Every run works on a row that exists. */
  lemma KnownStep(s: State, step: Step)
    requires Coherent(s) && Enabled(s, step)
    ensures Known(s, step)
  {
  }

  lemma CoherentBystander(s: State, step: Step, w: nat)
    requires Coherent(s) && Enabled(s, step) && w in s.workers && (step.Tick? || step.w != w)
    ensures w in Apply(s, step).workers && CoherentWorker(Apply(s, step), w)
  {
    hide Apply, RowAfter, WorkerAfter, Coherent, CoherentTarget, Enabled;
    KnownStep(s, step);
    CoherentMember(s, w);
    StepEffect(s, step);
    StepGrowsRows(s, step, s.workers[w].row.id);
  }

  lemma CoherentMember(s: State, w: nat)
    requires Coherent(s) && w in s.workers
    ensures CoherentWorker(s, w)
  {
  }

  /** A run keeps its snapshot, and its token from grant to finish. */
  lemma ActorKeepsToken(s: State, step: Step)
    requires Enabled(s, step) && Known(s, step) && !step.Tick? && !step.Read?
    ensures var before, after := s.workers[step.w], WorkerAfter(s, step);
            && after.row == before.row && after.readAt == before.readAt
            && (if Grants(s, step)
                then after.pc == Acquired(s.db.targets[before.row.id].attempts + 1) && after.acquiredAt == s.now
                else
                  && after.acquiredAt == before.acquiredAt
                  && (after.pc.Leased() ==> before.pc.Leased() && after.pc.token == before.pc.token)
                  && (after.pc.Saved? ==> after.pc == before.pc || (before.pc.Returned? && after.pc.outcome.Confirmed?)))
  {
  }

  lemma CoherentReader(s: State, step: Step)
    requires Coherent(s) && Enabled(s, step) && step.Read?
    ensures step.w in Apply(s, step).workers && CoherentWorker(Apply(s, step), step.w)
  {
  }

  lemma CoherentActor(s: State, step: Step)
    requires Coherent(s) && Enabled(s, step) && !step.Tick?
    ensures step.w in Apply(s, step).workers && CoherentWorker(Apply(s, step), step.w)
  {
    hide Apply, RowAfter, WorkerAfter, Coherent, CoherentTarget;
    if step.Read? {
      CoherentReader(s, step);
    } else {
      KnownStep(s, step);
      CoherentMember(s, step.w);
      StepEffect(s, step);
      StepGrowsRows(s, step, s.workers[step.w].row.id);
      ActorKeepsToken(s, step);
      if Grants(s, step) {
        GrantRaisesAttempts(s, step);
        GrantStampsRow(s, step);
      }
    }
  }

  lemma GrantStampsRow(s: State, step: Step)
    requires Coherent(s) && Enabled(s, step) && Grants(s, step)
    ensures Known(s, step)
    ensures var before := s.db.targets[s.workers[step.w].row.id];
            RowAfter(s, step) == before.(status := Publishing, attempts := before.attempts + 1, updatedAt := s.now)
  {
  }

  lemma CoherentStep(s: State, step: Step)
    requires Coherent(s) && Enabled(s, step)
    ensures Coherent(Apply(s, step))
  {
    hide Apply, RowAfter, WorkerAfter;
    KnownStep(s, step);
    StepEffect(s, step);
    var after := Apply(s, step);
    forall t | t in after.db.targets ensures CoherentTarget(after, t) {
      StepGrowsRows(s, step, t);
    }
    forall w | w in after.workers ensures CoherentWorker(after, w) {
      if !step.Tick? && step.w == w {
        CoherentActor(s, step);
      } else {
        CoherentBystander(s, step, w);
      }
    }
    forall k | k in after.grants ensures k.0 in after.db.targets && k.1 <= after.db.targets[k.0].attempts {
      if k in s.grants {
        StepGrowsRows(s, step, k.0);
      } else {
        GrantRaisesAttempts(s, step);
      }
    }
  }

  lemma GrantRaisesAttempts(s: State, step: Step)
    requires Coherent(s) && Enabled(s, step) && Grants(s, step)
    ensures var t := s.workers[step.w].row.id;
            && t in s.db.targets && t in Apply(s, step).db.targets
            && Apply(s, step).db.targets[t].attempts == s.db.targets[t].attempts + 1
            && (t, s.db.targets[t].attempts + 1) !in s.grants
  {
  }

  /** Two leased runs of one target never hold the same token. */
  lemma TokensUnique(s: State, w: nat, v: nat)
    requires Coherent(s) && w in s.workers && v in s.workers
    requires s.workers[w].row.id == s.workers[v].row.id
    requires s.workers[w].pc.Leased() && s.workers[v].pc.Leased() && s.workers[w].pc.token == s.workers[v].pc.token
    ensures w == v
  {
  }

  lemma TokensDiffer(s: State, w: nat, v: nat)
    requires Coherent(s) && w in s.workers && v in s.workers && w != v
    requires s.workers[w].row.id == s.workers[v].row.id
    requires s.workers[w].pc.Leased()
    ensures s.workers[v].pc.Leased() ==> s.workers[w].pc.token != s.workers[v].pc.token
  {
  }

  // The sound part: what changes a target's row while its leases are asked for in time.

  /** The row a timely step writes is sound and keeps its saved outcome. */
  lemma SoundRowAfter(s: State, step: Step, t: string)
    requires Coherent(s) && Sound(s, t) && Enabled(s, step) && Timely(s, step, t)
    requires ActsOn(s, step, t) && Known(s, step)
    ensures var row := RowAfter(s, step);
            && (row.state.executionOutcome.Some? ==> row.status != Pending)
            && (row.status == Published ==>
                  && row.state.HasConfirmed()
                  && row.platformPostId == Some(row.state.executionOutcome.value.result.platformPostId))
            && (SavedFor(s, t).Some? ==> row.state.executionOutcome == SavedFor(s, t))
  {
    SoundMember(s, step.w, t);
    hide Coherent, Sound;
  }

  lemma SoundTargetStep(s: State, step: Step, t: string)
    requires Coherent(s) && Sound(s, t) && Enabled(s, step) && Timely(s, step, t)
    ensures t in Apply(s, step).db.targets && SoundTarget(Apply(s, step), t)
    ensures SavedFor(s, t).Some? ==> SavedFor(Apply(s, step), t) == SavedFor(s, t)
  {
    hide Apply, RowAfter, WorkerAfter, Coherent, SoundWorker, Timely;
    KnownStep(s, step);
    StepEffect(s, step);
    if ActsOn(s, step, t) {
      SoundRowAfter(s, step, t);
    }
  }

  lemma SoundMember(s: State, w: nat, t: string)
    requires Coherent(s) && Sound(s, t) && On(s, w, t)
    ensures t in s.db.targets && CoherentWorker(s, w) && SoundWorker(s, w) && CoherentTarget(s, t) && SoundTarget(s, t)
  {
  }

  /** While one run writes the row, every other run of the same target stays sound. */
  lemma SoundBystander(s: State, step: Step, t: string, w: nat)
    requires Coherent(s) && Sound(s, t) && Enabled(s, step) && Timely(s, step, t)
    requires On(s, w, t) && (step.Tick? || step.w != w)
    ensures On(Apply(s, step), w, t) && t in Apply(s, step).db.targets && SoundWorker(Apply(s, step), w)
  {
    hide Apply, Coherent, Sound, RowAfter, WorkerAfter, Timely;
    SoundMember(s, w, t);
    KnownStep(s, step);
    StepEffect(s, step);
    SoundTargetStep(s, step, t);
    StepGrowsRows(s, step, t);
    if ActsOn(s, step, t) {
      BystanderLease(s, step, t, w);
      BystanderLate(s, step, t, w);
    }
  }

  /** A save stamps the row no earlier than any run that is still waiting with an older snapshot read it. */
  lemma BystanderLate(s: State, step: Step, t: string, w: nat)
    requires Coherent(s) && Sound(s, t) && Enabled(s, step) && ActsOn(s, step, t)
    requires On(s, w, t) && step.w != w
    ensures Known(s, step)
    ensures var worker, target := s.workers[w], RowAfter(s, step);
            worker.pc.Loaded? && worker.row.state.executionOutcome.None? && target.state.executionOutcome.Some? ==>
              worker.readAt <= target.updatedAt
  {
  }

  lemma BystanderLease(s: State, step: Step, t: string, w: nat)
    requires Coherent(s) && Sound(s, t) && Enabled(s, step) && Timely(s, step, t) && ActsOn(s, step, t)
    requires On(s, w, t) && step.w != w
    ensures Known(s, step)
    ensures var worker, target := s.workers[w], RowAfter(s, step);
            worker.pc.Active() ==>
              if worker.pc.token == target.attempts
              then target.state.executionOutcome.None? && target.status in {Publishing, Failed}
              else target.platform == "YOUTUBE" && target.updatedAt > worker.acquiredAt + LEASE
  {
    hide Coherent, Sound;
    SoundMember(s, w, t);
    SoundMember(s, step.w, t);
    if s.workers[w].pc.Active() {
      TokensDiffer(s, w, step.w);
    }
  }

  /** The acting run's own obligations, read off its row and its program counter. */
  lemma SoundActorParts(s: State, step: Step)
    requires Coherent(s) && Enabled(s, step) && !step.Tick? && !step.Read? && Known(s, step)
    requires Sound(s, s.workers[step.w].row.id) && Timely(s, step, s.workers[step.w].row.id)
    ensures var worker, target := WorkerAfter(s, step), RowAfter(s, step);
            var saved := target.state.executionOutcome;
            && (worker.pc.Active() ==>
                  if worker.pc.token == target.attempts
                  then saved.None? && target.status in {Publishing, Failed}
                  else target.platform == "YOUTUBE" && target.updatedAt > worker.acquiredAt + LEASE)
            && (worker.pc.Saved? ==> saved == Some(worker.pc.outcome))
            && (worker.pc.Loaded? ==> step.Crash? && target == s.db.targets[worker.row.id])
  {
    hide Coherent, Sound;
    SoundMember(s, step.w, s.workers[step.w].row.id);
  }

  lemma SoundReader(s: State, step: Step, t: string)
    requires Coherent(s) && Sound(s, t) && Enabled(s, step) && step.Read? && step.t == t
    ensures On(Apply(s, step), step.w, t) && t in Apply(s, step).db.targets && SoundWorker(Apply(s, step), step.w)
  {
    hide Apply, RowAfter;
    assert CoherentTarget(s, t);
    StepEffect(s, step);
  }

  lemma SoundActor(s: State, step: Step, t: string)
    requires Coherent(s) && Sound(s, t) && Enabled(s, step) && Timely(s, step, t)
    requires !step.Tick? && (if step.Read? then step.t == t else s.workers[step.w].row.id == t)
    ensures On(Apply(s, step), step.w, t) && t in Apply(s, step).db.targets && SoundWorker(Apply(s, step), step.w)
  {
    hide Apply, RowAfter, Coherent, Sound, Timely;
    if step.Read? {
      SoundReader(s, step, t);
    } else {
      KnownStep(s, step);
      SoundMember(s, step.w, t);
      StepEffect(s, step);
      ActorKeepsToken(s, step);
      SoundTargetStep(s, step, t);
      SoundActorParts(s, step);
    }
  }

  lemma SoundStep(s: State, step: Step, t: string)
    requires Coherent(s) && Sound(s, t) && Enabled(s, step) && Timely(s, step, t)
    ensures Sound(Apply(s, step), t)
  {
    hide Apply, WorkerAfter, RowAfter;
    var after := Apply(s, step);
    KnownStep(s, step);
    StepEffect(s, step);
    SoundTargetStep(s, step, t);
    forall w | On(after, w, t) ensures SoundWorker(after, w) {
      if !step.Tick? && step.w == w {
        ActorOnOwnTarget(s, step);
        SoundActor(s, step, t);
      } else {
        assert On(s, w, t);
        SoundBystander(s, step, t, w);
      }
    }
  }

  lemma ActorOnOwnTarget(s: State, step: Step)
    requires Enabled(s, step) && Known(s, step) && !step.Tick?
    ensures WorkerAfter(s, step).row.id == if step.Read? then step.t else s.workers[step.w].row.id
  {
  }
}
