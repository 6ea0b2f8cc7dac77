/** Every uninterrupted run is a run of the protocol: the two descriptions of `publishTarget` agree. */
module RunRefinement {
  import opened Wrappers
  import opened PublishRecords
  import opened Transactions
  import opened Preflight
  import opened Protocol
  import opened UninterruptedRun

  predicate Leads(s: State, steps: seq<Step>, after: State)
    decreases |steps|
  {
    if steps == [] then after == s
    else Enabled(s, steps[0]) && Leads(Apply(s, steps[0]), steps[1..], after)
  }

  lemma {:induction false} LeadsOn(s: State, first: seq<Step>, mid: State, second: seq<Step>, after: State)
    requires Leads(s, first, mid) && Leads(mid, second, after)
    ensures Leads(s, first + second, after)
    decreases |first|
  {
    hide Apply;
    if first == [] {
      assert first + second == second;
    } else {
      LeadsOn(Apply(s, first[0]), first[1..], mid, second, after);
      assert (first + second)[1..] == first[1..] + second;
    }
  }

  lemma LeadsOne(s: State, step: Step)
    requires Enabled(s, step)
    ensures Leads(s, [step], Apply(s, step))
  {
  }

  lemma LeadsThen(s: State, first: seq<Step>, mid: State, step: Step)
    requires Leads(s, first, mid) && Enabled(mid, step)
    ensures Leads(s, first + [step], Apply(mid, step))
  {
    hide Apply;
    LeadsOne(mid, step);
    LeadsOn(s, first, mid, [step], Apply(mid, step));
  }

  /** A step of run `w` in which the runner saves and answers only what it does in this world. */
  predicate Obeys(step: Step, w: nat, world: World) {
    && !step.Tick? && step.w == w
    && (step.SaveProgress? ==> step.state in world.saves)
    && (step.RunnerReturns? ==> world.report == Some(step.outcome))
  }

  predicate AllObey(steps: seq<Step>, w: nat, world: World) {
    forall i | 0 <= i < |steps| :: Obeys(steps[i], w, world)
  }

  /** `after` differs from `s` in the database, in run `w`, which stands at `pc`, and in the history. */
  predicate Moved(s: State, after: State, w: nat, db: Database, pc: Pc) {
    && w in after.workers
    && after.db == db
    && after.now == s.now
    && after.workers == s.workers[w := after.workers[w]]
    && after.workers[w].pc == pc
    && after.workers[w].alive
    && (w in s.workers ==> after.workers[w].row == s.workers[w].row)
  }

  /** The runner's progress saves, one step each. */
  lemma {:induction false} SavesLead(s: State, w: nat, saves: seq<ProviderState>) returns (steps: seq<Step>, after: State)
    requires Running(s, w) && s.workers[w].pc.InRunner?
    requires forall i | 0 <= i < |saves| :: saves[i].executionOutcome.None?
    ensures Leads(s, steps, after)
    ensures |steps| == |saves| && forall i | 0 <= i < |saves| :: steps[i] == SaveProgress(w, saves[i])
    ensures after == s.(db := SaveAll(s.db, s.workers[w].row.id, s.workers[w].pc.token, saves, s.now))
    decreases |saves|
  {
    hide PersistProgress;
    if saves == [] {
      steps, after := [], s;
    } else {
      var step := SaveProgress(w, saves[0]);
      var rest;
      rest, after := SavesLead(Apply(s, step), w, saves[1..]);
      LeadsOne(s, step);
      steps := [step] + rest;
      LeadsOn(s, [step], Apply(s, step), rest, after);
    }
  }

  /** From the granted lease into the runner, and its progress saves (lines 392-412). */
  lemma RunnerLeads(s: State, w: nat, world: World) returns (steps: seq<Step>, after: State)
    requires Running(s, w) && s.workers[w].pc.Acquired? && s.workers[w].row.state.executionOutcome.None?
    requires Honest(world)
    ensures Leads(s, steps, after) && AllObey(steps, w, world)
    ensures var row, token := s.workers[w].row, s.workers[w].pc.token;
            && Moved(s, after, w, SaveAll(s.db, row.id, token, world.saves, s.now), InRunner(token))
            && CallsFor(after, row.id) == CallsFor(s, row.id) + 1
  {
    hide SaveAll;
    var called := Apply(s, CallRunner(w));
    LeadsOne(s, CallRunner(w));
    var more;
    more, after := SavesLead(called, w, world.saves);
    steps := [CallRunner(w)] + more;
    LeadsOn(s, [CallRunner(w)], called, more, after);
  }

  /** Run `w` has come to the end a visit describes; a thrown error may also have left it dead. */
  predicate Ended(s: State, after: State, w: nat, t: string, v: Visited) {
    && after.db == v.db && after.now == s.now
    && w in after.workers && after.workers == s.workers[w := after.workers[w]]
    && (after.workers[w].pc == Finished(v.reply) || (v.reply == Threw && !after.workers[w].alive))
    && CallsFor(after, t) == CallsFor(s, t) + if v.called then 1 else 0
  }

  lemma MovedEnds(s: State, mid: State, after: State, w: nat, t: string, v: Visited, calls: nat)
    requires w in mid.workers && Moved(s, mid, w, mid.db, mid.workers[w].pc)
    requires Ended(mid, after, w, t, v.(called := false)) && CallsFor(mid, t) == CallsFor(s, t) + calls
    requires calls == if v.called then 1 else 0
    ensures Ended(s, after, w, t, v)
  {
  }

  /** What the settling of an outcome in hand amounts to, without the provider call before it. */
  function Settling(s: State, w: nat): Visited
    requires Running(s, w) && s.workers[w].pc.Returned?
  {
    Settle(s.db, s.workers[w].row, s.workers[w].pc.outcome, s.workers[w].pc.token, s.now, false).(called := false)
  }

  /** The single step that settles a resume time, a rejection, or an outcome saved beforehand. */
  lemma OneStepEnds(s: State, w: nat, step: Step)
    requires Running(s, w) && s.workers[w].pc.Returned?
    requires var outcome, saved := s.workers[w].pc.outcome, s.workers[w].row.state.executionOutcome;
             if outcome.ContinueAt? then step == YieldLease(w)
             else (outcome.Rejected? || saved.Some?) && step == FinalizeTarget(w, MediaIdsOf(s.workers[w].row))
    ensures Enabled(s, step) && Ended(s, Apply(s, step), w, s.workers[w].row.id, Settling(s, w))
  {
    hide Finalize, SaveOutcome, Continue;
  }

  /** A save that finds the lease gone ends the run. */
  lemma LostSaveEnds(s: State, w: nat)
    requires Running(s, w) && s.workers[w].pc.Returned? && s.workers[w].pc.outcome.Confirmed?
    requires s.workers[w].row.state.executionOutcome.None?
    requires !Apply(s, SaveConfirmed(w)).workers[w].pc.Saved?
    ensures Ended(s, Apply(s, SaveConfirmed(w)), w, s.workers[w].row.id, Settling(s, w))
  {
    hide Finalize, SaveOutcome;
  }

  /** A save that succeeds is followed by the finalization. */
  lemma SavedEnds(s: State, w: nat, final: Step)
    requires Running(s, w) && s.workers[w].pc.Returned? && s.workers[w].pc.outcome.Confirmed?
    requires s.workers[w].row.state.executionOutcome.None?
    requires Apply(s, SaveConfirmed(w)).workers[w].pc.Saved? && final == FinalizeTarget(w, MediaIdsOf(s.workers[w].row))
    ensures var saved := Apply(s, SaveConfirmed(w));
            Enabled(saved, final) && Ended(s, Apply(saved, final), w, s.workers[w].row.id, Settling(s, w))
  {
    hide Finalize, SaveOutcome;
  }

  /** A confirmed outcome is saved and finalized, or its save finds the lease gone. */
  lemma ConfirmedOutcomeEnds(s: State, w: nat, world: World) returns (steps: seq<Step>, after: State)
    requires Running(s, w) && s.workers[w].pc.Returned? && s.workers[w].pc.outcome.Confirmed?
    requires s.workers[w].row.state.executionOutcome.None?
    ensures Leads(s, steps, after) && AllObey(steps, w, world)
    ensures Ended(s, after, w, s.workers[w].row.id, Settling(s, w))
  {
    hide Apply, Ended, Settling;
    var saved := Apply(s, SaveConfirmed(w));
    LeadsOne(s, SaveConfirmed(w));
    steps, after := [SaveConfirmed(w)], saved;
    if w in saved.workers && saved.workers[w].pc.Saved? {
      var final := FinalizeTarget(w, MediaIdsOf(s.workers[w].row));
      SavedEnds(s, w, final);
      LeadsThen(s, steps, saved, final);
      steps, after := steps + [final], Apply(saved, final);
    } else {
      StillThere(s, w);
      LostSaveEnds(s, w);
    }
  }

  lemma StillThere(s: State, w: nat)
    requires Enabled(s, SaveConfirmed(w))
    ensures w in Apply(s, SaveConfirmed(w)).workers
  {
  }

  /** From the outcome to the reply (lines 416-466). */
  lemma OutcomeEnds(s: State, w: nat, world: World) returns (steps: seq<Step>, after: State)
    requires Running(s, w) && s.workers[w].pc.Returned?
    ensures Leads(s, steps, after) && AllObey(steps, w, world)
    ensures Ended(s, after, w, s.workers[w].row.id, Settling(s, w))
  {
    hide Settling, Ended, Apply;
    var row, outcome := s.workers[w].row, s.workers[w].pc.outcome;
    if outcome.Confirmed? && row.state.executionOutcome.None? {
      steps, after := ConfirmedOutcomeEnds(s, w, world);
    } else {
      var step := if outcome.ContinueAt? then YieldLease(w) else FinalizeTarget(w, MediaIdsOf(row));
      OneStepEnds(s, w, step);
      steps, after := [step], Apply(s, step);
      LeadsOne(s, step);
    }
  }

  lemma SettleForgetsCalled(db: Database, row: Row, outcome: Outcome, token: nat, now: int, called: bool)
    ensures Settle(db, row, outcome, token, now, called) == Settle(db, row, outcome, token, now, false).(called := called)
  {
  }

  /** From a call of the runner to the reply (lines 392-466). */
  lemma CallEnds(s: State, w: nat, world: World) returns (steps: seq<Step>, after: State)
    requires Running(s, w) && s.workers[w].pc.Acquired? && Honest(world) && world.resolvable
    requires s.workers[w].row.state.executionOutcome.None?
    ensures Leads(s, steps, after) && AllObey(steps, w, world)
    ensures var row, token := s.workers[w].row, s.workers[w].pc.token;
            Ended(s, after, w, row.id, Hold(s.db, row, token, s.now, world))
  {
    hide Settle, SaveAll, Finalize, FailBefore, Acquire;
    var row, token := s.workers[w].row, s.workers[w].pc.token;
    var more, called := RunnerLeads(s, w, world);
    match world.report {
      case None =>
        steps, after := more + [Crash(w)], Apply(called, Crash(w));
        LeadsThen(s, more, called, Crash(w));
      case Some(outcome) =>
        var returned := Apply(called, RunnerReturns(w, outcome));
        LeadsThen(s, more, called, RunnerReturns(w, outcome));
        var last;
        last, after := OutcomeEnds(returned, w, world);
        steps := more + [RunnerReturns(w, outcome)] + last;
        LeadsOn(s, more + [RunnerReturns(w, outcome)], returned, last, after);
        SettleForgetsCalled(called.db, row, outcome, token, s.now, true);
        MovedEnds(s, returned, after, w, row.id, Hold(s.db, row, token, s.now, world), 1);
    }
  }

  /** From the granted lease to the reply (lines 385-466). */
  lemma HoldLeads(s: State, w: nat, world: World) returns (steps: seq<Step>, after: State)
    requires Running(s, w) && s.workers[w].pc.Acquired? && Honest(world)
    ensures Leads(s, steps, after) && AllObey(steps, w, world)
    ensures var row, token := s.workers[w].row, s.workers[w].pc.token;
            Ended(s, after, w, row.id, Hold(s.db, row, token, s.now, world))
  {
    hide Settle, SaveAll, Finalize, FailBefore, Acquire;
    var row, token := s.workers[w].row, s.workers[w].pc.token;
    if !world.resolvable {
      steps, after := [GiveUp(w, UNRESOLVED)], Apply(s, GiveUp(w, UNRESOLVED));
      LeadsOne(s, GiveUp(w, UNRESOLVED));
    } else if row.state.executionOutcome.Some? {
      var returned := Apply(s, ReuseOutcome(w));
      LeadsOne(s, ReuseOutcome(w));
      var last;
      last, after := OutcomeEnds(returned, w, world);
      steps := [ReuseOutcome(w)] + last;
      LeadsOn(s, [ReuseOutcome(w)], returned, last, after);
      SettleForgetsCalled(s.db, row, row.state.executionOutcome.value, token, s.now, false);
      MovedEnds(s, returned, after, w, row.id, Hold(s.db, row, token, s.now, world), 0);
    } else {
      steps, after := CallEnds(s, w, world);
    }
  }

  /** From the lease request to the reply (lines 345-466). */
  lemma PublishLeads(s: State, w: nat, world: World) returns (steps: seq<Step>, after: State)
    requires Enabled(s, AcquireLease(w)) && Honest(world)
    ensures Leads(s, steps, after) && AllObey(steps, w, world)
    ensures Ended(s, after, w, s.workers[w].row.id, Publish(s.db, s.workers[w].row, s.now, world))
  {
    hide Acquire, Hold;
    var mid := Apply(s, AcquireLease(w));
    LeadsOne(s, AcquireLease(w));
    if Acquire(s.db, s.workers[w].row, s.now).1.NotAcquired? {
      steps, after := [AcquireLease(w)], mid;
    } else {
      var more;
      more, after := HoldLeads(mid, w, world);
      steps := [AcquireLease(w)] + more;
      LeadsOn(s, [AcquireLease(w)], mid, more, after);
    }
  }

  /** The protocol run that mirrors a visit in a world: its runner saves and answers what the world says. */
  ghost predicate Mirrors(s: State, steps: seq<Step>, after: State, w: nat, t: string, world: World) {
    Leads(s, steps, after) && AllObey(steps, w, world) && Ended(s, after, w, t, Visit(s.db, t, s.now, world))
  }

  /** The one step of a visit that asks for no lease, after reading; a thrown error leaves the run dead. */
  function EarlyStep(w: nat, row: Row, library: Library): Step {
    if Idle(row) then Quit(w)
    else if row.state.HasConfirmed() then FinalizeTarget(w, MediaIdsOf(row))
    else match CheckRow(row, library)
      case Refused(message) => GiveUp(w, message)
      case Disappeared => Crash(w)
      case Passed(_) => AcquireLease(w)
  }

  predicate EarlyEnds(s: State, w: nat, t: string, world: World)
    requires w !in s.workers && Readable(s.db, t)
  {
    var loaded := Apply(s, Read(w, t));
    var step := EarlyStep(w, RowOf(s.db, t), world.library);
    Enabled(loaded, step) && Ended(s, Apply(loaded, step), w, t, Visit(s.db, t, s.now, world))
  }

  lemma IdleEnds(s: State, w: nat, t: string, world: World)
    requires w !in s.workers && Readable(s.db, t) && Idle(RowOf(s.db, t))
    ensures EarlyEnds(s, w, t, world)
  {
    hide CheckRow;
  }

  lemma ConfirmedEnds(s: State, w: nat, t: string, world: World)
    requires w !in s.workers && Readable(s.db, t) && !Idle(RowOf(s.db, t)) && RowOf(s.db, t).state.HasConfirmed()
    ensures EarlyEnds(s, w, t, world)
  {
    hide CheckRow, Finalize;
  }

  lemma RefusedEnds(s: State, w: nat, t: string, world: World)
    requires w !in s.workers && Readable(s.db, t) && !Idle(RowOf(s.db, t)) && !RowOf(s.db, t).state.HasConfirmed()
    requires CheckRow(RowOf(s.db, t), world.library).Refused?
    ensures EarlyEnds(s, w, t, world)
  {
    hide CheckRow, FailBefore;
  }

  lemma DisappearedEnds(s: State, w: nat, t: string, world: World)
    requires w !in s.workers && Readable(s.db, t) && !Idle(RowOf(s.db, t)) && !RowOf(s.db, t).state.HasConfirmed()
    requires CheckRow(RowOf(s.db, t), world.library).Disappeared?
    ensures EarlyEnds(s, w, t, world)
  {
    hide CheckRow;
  }

  lemma EarlyVisitEnds(s: State, w: nat, t: string, world: World)
    requires w !in s.workers && Readable(s.db, t) && !EarlyStep(w, RowOf(s.db, t), world.library).AcquireLease?
    ensures EarlyEnds(s, w, t, world)
  {
    hide CheckRow, EarlyEnds;
    var row := RowOf(s.db, t);
    if Idle(row) {
      IdleEnds(s, w, t, world);
    } else if row.state.HasConfirmed() {
      ConfirmedEnds(s, w, t, world);
    } else if CheckRow(row, world.library).Refused? {
      RefusedEnds(s, w, t, world);
    } else {
      DisappearedEnds(s, w, t, world);
    }
  }

  /**
   * From any state, a run that is not interrupted takes protocol steps, with the runner saving and answering as the world
   * says, to exactly the database, the reply and the number of provider calls that `Visit` computes.
   */
  lemma VisitIsARun(s: State, w: nat, t: string, world: World)
    requires w !in s.workers && Readable(s.db, t) && Honest(world)
    ensures exists steps, after :: Mirrors(s, steps, after, w, t, world)
  {
    hide Acquire, FailBefore, Finalize, Publish, CheckRow;
    var loaded := Apply(s, Read(w, t));
    var step := EarlyStep(w, RowOf(s.db, t), world.library);
    LeadsOne(s, Read(w, t));
    if step.AcquireLease? {
      var more, after := PublishLeads(loaded, w, world);
      LeadsOn(s, [Read(w, t)], loaded, more, after);
      assert Mirrors(s, [Read(w, t)] + more, after, w, t, world);
    } else {
      EarlyVisitEnds(s, w, t, world);
      LeadsThen(s, [Read(w, t)], loaded, step);
      assert Mirrors(s, [Read(w, t)] + [step], Apply(loaded, step), w, t, world);
    }
  }
}
