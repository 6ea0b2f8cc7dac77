/** Safety of the publish protocol over whole runs: every interleaving, every crash. */
module ProtocolRuns {
  import opened Wrappers
  import opened PublishRecords
  import opened Transactions
  import opened Protocol
  import opened ProtocolInvariant

  lemma {:induction false} RunCoherent(r: Run, i: nat)
    requires IsRun(r) && i < |r.states|
    ensures Coherent(r.states[i])
  {
    if i > 0 {
      RunCoherent(r, i - 1);
      CoherentStep(r.states[i - 1], r.steps[i - 1]);
    }
  }

  lemma {:induction false} RunSound(r: Run, t: string, i: nat)
    requires IsRun(r) && TimelyRun(r, t) && t in r.states[0].db.targets && i < |r.states|
    ensures Sound(r.states[i], t)
  {
    if i > 0 {
      RunCoherent(r, i - 1);
      RunSound(r, t, i - 1);
      SoundStep(r.states[i - 1], r.steps[i - 1], t);
    }
  }

  /** Rows are never dropped, keep their platform, and their `attempts` never decreases. */
  lemma {:induction false} RowsPersist(r: Run, t: string, i: nat, j: nat)
    requires IsRun(r) && i <= j < |r.states| && t in r.states[i].db.targets
    ensures t in r.states[j].db.targets
    ensures r.states[j].db.targets[t].platform == r.states[i].db.targets[t].platform
    ensures r.states[i].db.targets[t].attempts <= r.states[j].db.targets[t].attempts
    decreases j
  {
    if i < j {
      RowsPersist(r, t, i, j - 1);
      RunCoherent(r, j - 1);
      StepGrowsRows(r.states[j - 1], r.steps[j - 1], t);
    }
  }

  lemma {:induction false} RowsFromStart(r: Run, t: string, i: nat)
    requires IsRun(r) && i < |r.states| && t in r.states[i].db.targets
    ensures t in r.states[0].db.targets
    ensures r.states[0].db.targets[t].platform == r.states[i].db.targets[t].platform
  {
    if i > 0 {
      RunCoherent(r, i - 1);
      StepKeepsKeys(r.states[i - 1], r.steps[i - 1]);
      StepGrowsRows(r.states[i - 1], r.steps[i - 1], t);
      RowsFromStart(r, t, i - 1);
    }
  }

  lemma StepKeepsKeys(s: State, step: Step)
    requires Coherent(s) && Enabled(s, step)
    ensures Apply(s, step).db.targets.Keys == s.db.targets.Keys
  {
    hide Apply, RowAfter;
    KnownStep(s, step);
    StepEffect(s, step);
  }

  lemma NotYouTubeIsTimely(r: Run, t: string)
    requires IsRun(r) && t in r.states[0].db.targets && r.states[0].db.targets[t].platform != "YOUTUBE"
    ensures TimelyRun(r, t)
  {
    forall i | 0 <= i < |r.steps| && i < |r.states| ensures Timely(r.states[i], r.steps[i], t) {
      if r.steps[i].AcquireLease? && ActsOn(r.states[i], r.steps[i], t) {
        RunCoherent(r, i);
        assert CoherentWorker(r.states[i], r.steps[i].w);
        RowsFromStart(r, t, i);
      }
    }
  }

  /** Soundness without any assumption on timing, for every platform but YouTube. */
  lemma SoundOffYouTube(r: Run, t: string, i: nat)
    requires IsRun(r) && i < |r.states| && t in r.states[i].db.targets && r.states[i].db.targets[t].platform != "YOUTUBE"
    ensures Sound(r.states[i], t) && TimelyRun(r, t) && t in r.states[0].db.targets
  {
    RowsFromStart(r, t, i);
    NotYouTubeIsTimely(r, t);
    RunSound(r, t, i);
  }

  /** A provider call is unresolved while its run, alive or crashed, sits inside the runner. */
  predicate Unresolved(s: State, w: nat, t: string) {
    On(s, w, t) && s.workers[w].pc.InRunner?
  }

  /** Off YouTube at most one provider call per target is unresolved. */
  lemma SingleFlight(r: Run, i: nat, t: string, w: nat, v: nat)
    requires IsRun(r) && i < |r.states|
    requires t in r.states[i].db.targets && r.states[i].db.targets[t].platform != "YOUTUBE"
    requires Unresolved(r.states[i], w, t) && Unresolved(r.states[i], v, t)
    ensures w == v
  {
    RunCoherent(r, i);
    SoundOffYouTube(r, t, i);
    assert SoundWorker(r.states[i], w) && SoundWorker(r.states[i], v);
    TokensUnique(r.states[i], w, v);
  }

  /** A step that calls the runner for `t` finds no other call of that target unresolved. */
  lemma CallFindsNoCall(s: State, step: Step, t: string, w: nat)
    requires Coherent(s) && Sound(s, t) && Enabled(s, step)
    requires s.db.targets[t].platform != "YOUTUBE" && Unresolved(s, w, t)
    ensures !(step.CallRunner? && ActsOn(s, step, t))
    ensures CallsFor(Apply(s, step), t) == CallsFor(s, t)
  {
    if step.CallRunner? && ActsOn(s, step, t) {
      assert SoundWorker(s, w) && SoundWorker(s, step.w);
      TokensUnique(s, w, step.w);
    }
    CallsOnlyByCallRunner(s, step, t);
  }

  lemma CallsOnlyByCallRunner(s: State, step: Step, t: string)
    requires Enabled(s, step)
    ensures CallsFor(Apply(s, step), t) == CallsFor(s, t) + if step.CallRunner? && ActsOn(s, step, t) then 1 else 0
  {
  }

  lemma DeadStayPut(s: State, step: Step, w: nat)
    requires Coherent(s) && Enabled(s, step) && w in s.workers && !s.workers[w].alive
    ensures w in Apply(s, step).workers && Apply(s, step).workers[w] == s.workers[w]
  {
  }

  /** Off YouTube, once a holder died inside the runner no run ever calls the runner for that target again. */
  lemma {:induction false} DeadHolderEndsCalls(r: Run, i: nat, j: nat, t: string, w: nat)
    requires IsRun(r) && i <= j < |r.states|
    requires t in r.states[i].db.targets && r.states[i].db.targets[t].platform != "YOUTUBE"
    requires Unresolved(r.states[i], w, t) && !r.states[i].workers[w].alive
    ensures CallsFor(r.states[j], t) == CallsFor(r.states[i], t)
    ensures w in r.states[j].workers && r.states[j].workers[w] == r.states[i].workers[w]
    decreases j
  {
    if i < j {
      DeadHolderEndsCalls(r, i, j - 1, t, w);
      RowsPersist(r, t, i, j - 1);
      RunCoherent(r, j - 1);
      SoundOffYouTube(r, t, j - 1);
      DeadStayPut(r.states[j - 1], r.steps[j - 1], w);
      CallFindsNoCall(r.states[j - 1], r.steps[j - 1], t, w);
    }
  }

  /** What becomes of a stale lease instead: the row fails, unless YouTube can resume its upload. */
  lemma StaleLeaseFails(s: State, w: nat)
    requires Coherent(s) && Enabled(s, AcquireLease(w))
    requires s.workers[w].row.id in s.db.targets && s.db.targets[s.workers[w].row.id].status == Publishing
    requires s.db.targets[s.workers[w].row.id].updatedAt < s.now - LEASE
    ensures var row := s.workers[w].row;
            var after := Apply(s, AcquireLease(w));
            && row.id in after.db.targets
            && (after.db.targets[row.id].status == Failed <==> !(row.platform == "YOUTUBE" && row.state.Resumable()))
            && (after.db.targets[row.id].status != Failed <==> after.workers[w].pc == Acquired(s.db.targets[row.id].attempts + 1))
            && after.calls == s.calls
  {
    hide FollowUps.FollowUp, Rollup.RollupSet, StatusesOf;
    assert CoherentWorker(s, w);
    assert s.workers[w].row.state.executionOutcome.None?;
    AcquireTargets(s.db, s.workers[w].row, s.now);
  }

  /** A YouTube lease is used promptly: the runner is called at most fifteen minutes after the grant. */
  predicate Prompt(s: State, step: Step, t: string) {
    step.CallRunner? && ActsOn(s, step, t) && s.workers[step.w].row.platform == "YOUTUBE" ==>
      s.now <= s.workers[step.w].acquiredAt + LEASE
  }

  ghost predicate PromptRun(r: Run, t: string) {
    forall i | 0 <= i < |r.steps| && i < |r.states| :: Prompt(r.states[i], r.steps[i], t)
  }

  /**
   * How late the leases of a YouTube target are asked for and used: at most `a` after the row was read, and the
   * runner is called at most `b` after the grant. Nothing is asked of any other platform.
   */
  predicate StepWithin(s: State, step: Step, t: string, a: nat, b: nat) {
    ActsOn(s, step, t) && s.workers[step.w].row.platform == "YOUTUBE" ==>
      && (step.AcquireLease? ==> s.now <= s.workers[step.w].readAt + a)
      && (step.CallRunner? ==> s.now <= s.workers[step.w].acquiredAt + b)
  }

  ghost predicate RunWithin(r: Run, t: string, a: nat, b: nat) {
    forall i | 0 <= i < |r.steps| && i < |r.states| :: StepWithin(r.states[i], r.steps[i], t, a, b)
  }

  lemma WithinLease(r: Run, t: string, a: nat, b: nat)
    requires RunWithin(r, t, a, b)
    ensures a <= LEASE ==> TimelyRun(r, t)
    ensures b <= LEASE ==> PromptRun(r, t)
  {
    forall i | 0 <= i < |r.steps| && i < |r.states|
      ensures a <= LEASE ==> Timely(r.states[i], r.steps[i], t)
      ensures b <= LEASE ==> Prompt(r.states[i], r.steps[i], t)
    {
      assert StepWithin(r.states[i], r.steps[i], t, a, b);
    }
  }

  /** A saved confirmed outcome is never lost or replaced. */
  lemma {:induction false} ConfirmedIsKept(r: Run, i: nat, j: nat, t: string)
    requires IsRun(r) && i <= j < |r.states| && TimelyRun(r, t)
    requires t in r.states[i].db.targets && SavedFor(r.states[i], t).Some?
    ensures t in r.states[j].db.targets && SavedFor(r.states[j], t) == SavedFor(r.states[i], t)
    decreases j
  {
    hide Apply, Enabled, Timely, Coherent, SoundTarget;
    if i < j {
      ConfirmedIsKept(r, i, j - 1, t);
      RowsFromStart(r, t, i);
      RunCoherent(r, j - 1);
      RunSound(r, t, j - 1);
      SoundTargetStep(r.states[j - 1], r.steps[j - 1], t);
    }
  }

  /** Calling the runner on a row whose outcome is saved takes a YouTube lease used too late. */
  lemma CallAfterSaveIsLate(s: State, step: Step, t: string)
    requires Coherent(s) && Sound(s, t) && Enabled(s, step) && SavedFor(s, t).Some?
    requires step.CallRunner? && ActsOn(s, step, t)
    ensures s.workers[step.w].row.platform == "YOUTUBE" && s.now > s.workers[step.w].acquiredAt + LEASE
    ensures s.workers[step.w].pc.token < s.db.targets[t].attempts
  {
    assert CoherentWorker(s, step.w) && SoundWorker(s, step.w) && CoherentTarget(s, t);
  }

  /** Once a confirmed outcome is saved, the runner is never called again. */
  lemma {:induction false} ConfirmedEndsCalls(r: Run, i: nat, j: nat, t: string)
    requires IsRun(r) && i <= j < |r.states| && TimelyRun(r, t) && PromptRun(r, t)
    requires t in r.states[i].db.targets && SavedFor(r.states[i], t).Some?
    ensures CallsFor(r.states[j], t) == CallsFor(r.states[i], t)
    decreases j
  {
    hide Apply, Coherent, SoundTarget, Timely;
    if i < j {
      ConfirmedEndsCalls(r, i, j - 1, t);
      ConfirmedIsKept(r, i, j - 1, t);
      var s, step := r.states[j - 1], r.steps[j - 1];
      RowsFromStart(r, t, i);
      RunCoherent(r, j - 1);
      RunSound(r, t, j - 1);
      CallsOnlyByCallRunner(s, step, t);
      if step.CallRunner? && ActsOn(s, step, t) {
        assert Prompt(s, step, t);
        CallAfterSaveIsLate(s, step, t);
      }
    }
  }

  /** A granted token stays with the run it was granted to, and no later grant repeats it. */
  lemma {:induction false} TokensAreForever(r: Run, i: nat, j: nat, k: (string, nat))
    requires IsRun(r) && i <= j < |r.states| && k in r.states[i].grants
    ensures k in r.states[j].grants && r.states[j].grants[k] == r.states[i].grants[k]
    decreases j
  {
    hide Apply, Enabled, Coherent;
    if i < j {
      TokensAreForever(r, i, j - 1, k);
      RunCoherent(r, j - 1);
      GrantsGrow(r.states[j - 1], r.steps[j - 1]);
    }
  }

  lemma GrantsGrow(s: State, step: Step)
    requires Coherent(s) && Enabled(s, step)
    ensures forall k | k in s.grants :: k in Apply(s, step).grants && Apply(s, step).grants[k] == s.grants[k]
  {
  }

  /** The token a run writes under: its lease, or the `attempts` of its snapshot when it finalizes a saved outcome. */
  function HeldToken(worker: Worker): nat {
    if worker.pc.Leased() then worker.pc.token else worker.row.attempts
  }

  /** A run whose token is not the row's `attempts` changes nothing, whatever it saves, yields or finalizes. */
  lemma SupersededRunIsFenced(s: State, step: Step)
    requires Coherent(s) && Enabled(s, step)
    requires step.SaveProgress? || step.YieldLease? || step.SaveConfirmed? || step.FinalizeTarget?
    requires var worker := s.workers[step.w];
             worker.row.id in s.db.targets && s.db.targets[worker.row.id].attempts != HeldToken(worker)
    ensures Apply(s, step).db == s.db && Apply(s, step).calls == s.calls && Apply(s, step).grants == s.grants
    ensures step.FinalizeTarget? || step.SaveConfirmed? ==> Apply(s, step).workers[step.w].pc == Finished(Threw)
  {
    hide Coherent, FollowUps.FollowUp, Rollup.RollupSet, StatusesOf, FailBefore, Acquire;
  }

  /** Only an unfenced give-up moves a published target. */
  lemma PublishedLeftOnlyByGivingUp(s: State, step: Step, t: string)
    requires Coherent(s) && Enabled(s, step) && t in s.db.targets && s.db.targets[t].status == Published
    ensures t in Apply(s, step).db.targets
    ensures Apply(s, step).db.targets[t].status != Published ==> step.GiveUp? && ActsOn(s, step, t)
    ensures step.GiveUp? && ActsOn(s, step, t) ==> Apply(s, step).db.targets[t].status == Failed
    ensures Apply(s, step).db.targets[t].platformPostId == s.db.targets[t].platformPostId
  {
    hide Apply;
    KnownStep(s, step);
    StepEffect(s, step);
  }

  /** A published target carries the platform id of its saved outcome. */
  lemma PublishedIdIsTheSavedOne(r: Run, i: nat, t: string)
    requires IsRun(r) && i < |r.states| && TimelyRun(r, t)
    requires t in r.states[i].db.targets && r.states[i].db.targets[t].status == Published
    ensures var target := r.states[i].db.targets[t];
            && target.state.HasConfirmed()
            && target.platformPostId == Some(target.state.executionOutcome.value.result.platformPostId)
  {
    RowsFromStart(r, t, i);
    RunSound(r, t, i);
  }
}
