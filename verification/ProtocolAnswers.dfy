/** What becomes of a provider's confirmed answer between the call and its save, over whole runs. */
module ProtocolAnswers {
  import opened Wrappers
  import opened PublishRecords
  import opened Protocol
  import opened ProtocolInvariant
  import opened ProtocolRuns

  /** Run `w`, alive or crashed, holds a confirmed answer of the provider that it has not saved. */
  predicate Answered(s: State, w: nat, t: string) {
    On(s, w, t) && s.workers[w].pc.Returned? && s.workers[w].pc.outcome.Confirmed?
  }

  ghost predicate NoneActive(s: State, t: string) {
    forall w | On(s, w, t) :: !s.workers[w].pc.Active()
  }

  /** Where a confirmed answer can be: in the row, in the hands of a run, or lost, with the row failed for good. */
  ghost predicate AnswerKnown(s: State, t: string) {
    t in s.db.targets
    && (SavedFor(s, t).Some?
        || (exists w :: Answered(s, w, t))
        || (s.db.targets[t].status == Failed && NoneActive(s, t)))
  }

  /** Off YouTube an active run holds the current token, on a row without a saved outcome. */
  lemma ActiveIsCurrent(s: State, w: nat, t: string)
    requires Sound(s, t) && On(s, w, t) && s.workers[w].pc.Active() && s.db.targets[t].platform != "YOUTUBE"
    ensures s.workers[w].pc.token == s.db.targets[t].attempts
    ensures SavedFor(s, t).None? && s.db.targets[t].status in {Publishing, Failed}
  {
    assert SoundWorker(s, w);
  }

  /** Off YouTube two active runs of one target are the same run. */
  lemma OneActive(s: State, w: nat, v: nat, t: string)
    requires Coherent(s) && Sound(s, t) && s.db.targets[t].platform != "YOUTUBE"
    requires On(s, w, t) && On(s, v, t) && s.workers[w].pc.Active() && s.workers[v].pc.Active()
    ensures w == v
  {
    ActiveIsCurrent(s, w, t);
    ActiveIsCurrent(s, v, t);
    TokensUnique(s, w, v);
  }

  /** Once a confirmed answer is known no run is inside the runner, and none can enter it. */
  lemma KnownEndsCalls(s: State, t: string, w: nat)
    requires Coherent(s) && Sound(s, t) && s.db.targets[t].platform != "YOUTUBE" && AnswerKnown(s, t) && On(s, w, t)
    ensures !s.workers[w].pc.Acquired? && !s.workers[w].pc.InRunner?
  {
    if s.workers[w].pc.Active() {
      ActiveIsCurrent(s, w, t);
      if v :| Answered(s, v, t) {
        OneActive(s, w, v, t);
      }
    }
  }

  /** Off YouTube, a holder's confirmed answer is saved exactly while the row is publishing. Otherwise the row failed. */
  lemma SavedIffPublishing(s: State, w: nat, t: string)
    requires Coherent(s) && Sound(s, t) && On(s, w, t) && Enabled(s, SaveConfirmed(w))
    requires s.db.targets[t].platform != "YOUTUBE"
    ensures var after := Apply(s, SaveConfirmed(w));
            && t in after.db.targets
            && (SavedFor(after, t) == Some(s.workers[w].pc.outcome) <==> s.db.targets[t].status == Publishing)
            && (s.db.targets[t].status == Publishing ==> after.workers[w].pc.Saved?)
            && (s.db.targets[t].status != Publishing ==>
                  && s.db.targets[t].status == Failed && after.db == s.db && SavedFor(after, t).None?
                  && after.workers[w].pc == Finished(Threw))
  {
    ActiveIsCurrent(s, w, t);
  }

  /** A step of the run that holds the answer keeps it, saves it, or loses it on a failed row. */
  lemma HolderKeepsAnswer(s: State, step: Step, t: string)
    requires Coherent(s) && Sound(s, t) && Enabled(s, step) && s.db.targets[t].platform != "YOUTUBE"
    requires !step.Tick? && !step.Read? && Answered(s, step.w, t)
    ensures AnswerKnown(Apply(s, step), t)
  {
    hide Apply, Coherent, Sound;
    SoundMember(s, step.w, t);
    KnownStep(s, step);
    StepEffect(s, step);
    match step {
      case SaveConfirmed(w) =>
        SavedIffPublishing(s, w, t);
        if s.db.targets[t].status != Publishing {
          LastActiveGone(s, w, t);
        }
      case Crash(w) =>
        assert Answered(Apply(s, step), w, t);
      case _ =>
    }
  }

  /** When the only active run finishes without a save, none is active. */
  lemma LastActiveGone(s: State, w: nat, t: string)
    requires Coherent(s) && Sound(s, t) && s.db.targets[t].platform != "YOUTUBE"
    requires On(s, w, t) && Enabled(s, SaveConfirmed(w)) && s.db.targets[t].status != Publishing
    ensures NoneActive(Apply(s, SaveConfirmed(w)), t)
  {
    var after := Apply(s, SaveConfirmed(w));
    forall v | On(after, v, t) ensures !after.workers[v].pc.Active() {
      if v != w && s.workers[v].pc.Active() {
        OneActive(s, w, v, t);
      }
    }
  }

  lemma OthersKeepAnswer(s: State, step: Step, t: string, w: nat)
    requires Coherent(s) && Enabled(s, step) && Answered(s, w, t) && (step.Tick? || step.w != w)
    ensures Answered(Apply(s, step), w, t)
  {
    hide Apply, WorkerAfter, RowAfter, Coherent;
    KnownStep(s, step);
    StepEffect(s, step);
  }

  /** A failed row without a saved outcome and without active runs stays so. */
  lemma LostStaysLost(s: State, step: Step, t: string)
    requires Coherent(s) && Sound(s, t) && Enabled(s, step) && s.db.targets[t].platform != "YOUTUBE"
    requires SavedFor(s, t).None? && s.db.targets[t].status == Failed && NoneActive(s, t)
    ensures t in Apply(s, step).db.targets
    ensures Apply(s, step).db.targets[t].status == Failed && NoneActive(Apply(s, step), t)
  {
    hide Apply, WorkerAfter, RowAfter, Coherent, SoundWorker;
    KnownStep(s, step);
    StepEffect(s, step);
    if ActsOn(s, step, t) {
      LostActor(s, step, t);
    }
    if step.Read? {
      ReaderIsLoaded(s, step);
    } else if !step.Tick? {
      ActorOnOwnTarget(s, step);
    }
    var after := Apply(s, step);
    forall v | On(after, v, t) ensures !after.workers[v].pc.Active() {
      assert (!step.Tick? && step.w == v) || On(s, v, t);
    }
  }

  lemma ReaderIsLoaded(s: State, step: Step)
    requires Enabled(s, step) && step.Read?
    ensures WorkerAfter(s, step).pc.Loaded?
  {
  }

  lemma LostActor(s: State, step: Step, t: string)
    requires Coherent(s) && Sound(s, t) && Enabled(s, step) && ActsOn(s, step, t) && Known(s, step)
    requires SavedFor(s, t).None? && s.db.targets[t].status == Failed && NoneActive(s, t)
    ensures RowAfter(s, step).status == Failed && !WorkerAfter(s, step).pc.Active()
  {
    SoundMember(s, step.w, t);
    hide Coherent, Sound;
  }

  lemma AnswerKnownStep(s: State, step: Step, t: string)
    requires Coherent(s) && Sound(s, t) && Enabled(s, step) && Timely(s, step, t)
    requires s.db.targets[t].platform != "YOUTUBE" && AnswerKnown(s, t)
    ensures AnswerKnown(Apply(s, step), t)
  {
    hide Apply, Coherent, Timely;
    SoundTargetStep(s, step, t);
    if SavedFor(s, t).None? {
      if w :| Answered(s, w, t) {
        if !step.Tick? && step.w == w {
          HolderKeepsAnswer(s, step, t);
        } else {
          OthersKeepAnswer(s, step, t, w);
        }
      } else {
        LostStaysLost(s, step, t);
      }
    }
  }

  lemma {:induction false} AnswerStaysKnown(r: Run, i: nat, j: nat, t: string)
    requires IsRun(r) && i <= j < |r.states| && AnswerKnown(r.states[i], t)
    requires r.states[i].db.targets[t].platform != "YOUTUBE"
    ensures AnswerKnown(r.states[j], t)
    decreases j
  {
    hide Apply, Coherent, Enabled, AnswerKnown, SoundTarget;
    if i < j {
      AnswerStaysKnown(r, i, j - 1, t);
      AnswerHasRow(r, i, t);
      RowsPersist(r, t, i, j - 1);
      RunCoherent(r, j - 1);
      SoundOffYouTube(r, t, j - 1);
      AnswerKnownStep(r.states[j - 1], r.steps[j - 1], t);
    }
  }

  lemma AnswerHasRow(r: Run, i: nat, t: string)
    requires i < |r.states| && AnswerKnown(r.states[i], t)
    ensures t in r.states[i].db.targets
  {
  }

  /**
   * Off YouTube a confirmed publication is never made twice: once the provider has confirmed, whether the run that got
   * the answer saves it, crashes with it, or finds its row failed, no run calls the runner for that target again and
   * none is inside it.
   */
  lemma {:induction false} AnswerEndsCalls(r: Run, i: nat, j: nat, t: string, w: nat)
    requires IsRun(r) && i <= j < |r.states| && Answered(r.states[i], w, t)
    requires t in r.states[i].db.targets && r.states[i].db.targets[t].platform != "YOUTUBE"
    ensures CallsFor(r.states[j], t) == CallsFor(r.states[i], t)
    ensures forall v :: !Unresolved(r.states[j], v, t)
    decreases j
  {
    hide Apply, Coherent, SoundTarget;
    AnswerStaysKnown(r, i, j, t);
    RowsPersist(r, t, i, j);
    RunCoherent(r, j);
    SoundOffYouTube(r, t, j);
    forall v ensures !Unresolved(r.states[j], v, t) {
      if On(r.states[j], v, t) {
        KnownEndsCalls(r.states[j], t, v);
      }
    }
    if i < j {
      AnswerEndsCalls(r, i, j - 1, t, w);
      QuietUnlessAcquired(r, i, j - 1, t);
    }
  }

  lemma QuietUnlessAcquired(r: Run, i: nat, j: nat, t: string)
    requires IsRun(r) && i <= j < |r.steps| && AnswerKnown(r.states[i], t)
    requires r.states[i].db.targets[t].platform != "YOUTUBE"
    ensures CallsFor(r.states[j + 1], t) == CallsFor(r.states[j], t)
  {
    hide Apply, Coherent, SoundTarget, AnswerKnown;
    AnswerHasRow(r, i, t);
    AnswerStaysKnown(r, i, j, t);
    RowsPersist(r, t, i, j);
    RunCoherent(r, j);
    SoundOffYouTube(r, t, j);
    CallsOnlyByCallRunner(r.states[j], r.steps[j], t);
    if ActsOn(r.states[j], r.steps[j], t) {
      KnownEndsCalls(r.states[j], t, r.steps[j].w);
    }
  }
}
