/**
 * The publish protocol as a state machine: any number of runs of any PublishTarget jobs, each able to
 * crash between any two of its transactions. A run is one call of `publishTarget`; it is never restarted,
 * a re-delivery is a new run.
 */
module Protocol {
  import opened PublishRecords
  import opened Transactions

  /** What `publishTarget` hands back: null, a resume time, or a thrown error. */
  datatype Reply = Null | ResumeAt(time: int) | Threw

  /** Where a run stands, named after the last thing it did. */
  datatype Pc =
    | Loaded                                     // row read, nothing written yet
    | Acquired(token: nat)                       // lease granted
    | InRunner(token: nat)                       // provider call in flight
    | Returned(token: nat, outcome: Outcome)     // provider answered, answer not saved
    | Saved(token: nat, outcome: Outcome)        // confirmed outcome saved, not finalized
    | Finished(reply: Reply)
  {
    predicate Leased() { Acquired? || InRunner? || Returned? || Saved? }

    /** Leased and with the provider call neither saved nor settled. */
    predicate Active() { Acquired? || InRunner? || Returned? }
  }

  datatype Worker = Worker(row: Row, readAt: int, acquiredAt: int, pc: Pc, alive: bool)

  /**
   * `grants`, `calls` and `rolled` are history: who was granted each fencing token, how often the runner was
   * called for each target, and the posts whose status a step has written.
   */
  datatype State = State(
    db: Database,
    now: int,
    workers: map<nat, Worker>,
    grants: map<(string, nat), nat>,
    calls: map<string, nat>,
    rolled: set<string>)

  function CallsFor(s: State, t: string): nat {
    if t in s.calls then s.calls[t] else 0
  }

  datatype Step =
    | Tick(elapsed: nat)
    | Read(w: nat, t: string)
    | Quit(w: nat)
    | GiveUp(w: nat, message: string)
    | AcquireLease(w: nat)
    | ReuseOutcome(w: nat)
    | CallRunner(w: nat)
    | SaveProgress(w: nat, state: ProviderState)
    | RunnerReturns(w: nat, outcome: Outcome)
    | YieldLease(w: nat)
    | SaveConfirmed(w: nat)
    | FinalizeTarget(w: nat, mediaIds: seq<string>)
    | Crash(w: nat)

  predicate Running(s: State, w: nat) {
    w in s.workers && s.workers[w].alive
  }

  /** Lines 194-196 and 213-215: nothing to do for this row. */
  predicate Idle(row: Row) {
    row.status == Published || (row.status == Failed && !row.state.HasConfirmed())
  }

  datatype Finalizing = NotYet | Ready(outcome: Outcome, token: nat)

  /** Which outcome a run is about to finalize, and under which token (lines 241-244, 423, 431). */
  function ReadyToFinalize(worker: Worker): (f: Finalizing)
    ensures f.Ready? ==> !f.outcome.ContinueAt?
  {
    match worker.pc
    case Loaded =>
      if !Idle(worker.row) && worker.row.state.HasConfirmed()
      then Ready(worker.row.state.executionOutcome.value, worker.row.attempts) else NotYet
    case Returned(token, outcome) =>
      if outcome.Rejected? || (outcome.Confirmed? && worker.row.state.executionOutcome.Some?)
      then Ready(outcome, token) else NotYet
    case Saved(token, outcome) => if outcome.ContinueAt? then NotYet else Ready(outcome, token)
    case _ => NotYet
  }

  predicate Enabled(s: State, step: Step) {
    match step
    case Tick(_) => true
    case Read(w, t) => w !in s.workers && Readable(s.db, t)
    case Quit(w) => Running(s, w) && s.workers[w].pc.Loaded? && Idle(s.workers[w].row)
    case GiveUp(w, _) =>
      // A failed preflight check, or media URLs that cannot be resolved.
      Running(s, w)
      && ((s.workers[w].pc.Loaded? && !Idle(s.workers[w].row) && !s.workers[w].row.state.HasConfirmed())
          || s.workers[w].pc.Acquired?)
    case AcquireLease(w) =>
      Running(s, w) && s.workers[w].pc.Loaded? && !Idle(s.workers[w].row) && !s.workers[w].row.state.HasConfirmed()
    case ReuseOutcome(w) =>
      Running(s, w) && s.workers[w].pc.Acquired? && s.workers[w].row.state.executionOutcome.Some?
    case CallRunner(w) =>
      Running(s, w) && s.workers[w].pc.Acquired? && s.workers[w].row.state.executionOutcome.None?
    case SaveProgress(w, state) =>
      Running(s, w) && s.workers[w].pc.InRunner? && state.executionOutcome.None?
    case RunnerReturns(w, _) => Running(s, w) && s.workers[w].pc.InRunner?
    case YieldLease(w) => Running(s, w) && s.workers[w].pc.Returned? && s.workers[w].pc.outcome.ContinueAt?
    case SaveConfirmed(w) =>
      Running(s, w) && s.workers[w].pc.Returned? && s.workers[w].pc.outcome.Confirmed?
      && s.workers[w].row.state.executionOutcome.None?
    case FinalizeTarget(w, _) => Running(s, w) && ReadyToFinalize(s.workers[w]).Ready?
    case Crash(w) => Running(s, w)
  }

  function At(s: State, w: nat, pc: Pc): State
    requires w in s.workers
  {
    s.(workers := s.workers[w := s.workers[w].(pc := pc)])
  }

  function AfterAcquire(s: State, w: nat): State
    requires w in s.workers
  {
    var row := s.workers[w].row;
    var (db, lease) := Acquire(s.db, row, s.now);
    var s1 := s.(db := db, rolled := if Leasable(s.db, row.id, s.now) then s.rolled + {row.postId} else s.rolled);
    if lease.Token? then
      s1.(
        workers := s.workers[w := s.workers[w].(pc := Acquired(lease.token), acquiredAt := s.now)],
        grants := s.grants[(row.id, lease.token) := w])
    else At(s1, w, Finished(ResumeAt(s.now + LEASE)))
  }

  /** Lines 464-466: only a finished run of a retryable rejection throws. */
  function FinalReply(outcome: Outcome): Reply {
    if outcome.Rejected? && outcome.retryable then Threw else Null
  }

  function Apply(s: State, step: Step): State
    requires Enabled(s, step)
  {
    match step
    case Tick(elapsed) => s.(now := s.now + elapsed)
    case Read(w, t) => s.(workers := s.workers[w := Worker(RowOf(s.db, t), s.now, s.now, Loaded, true)])
    case Quit(w) => At(s, w, Finished(Null))
    case GiveUp(w, message) =>
      var row := s.workers[w].row;
      At(s.(db := FailBefore(s.db, row.id, row.postId, message, s.now), rolled := s.rolled + {row.postId}),
         w, Finished(Null))
    case AcquireLease(w) => AfterAcquire(s, w)
    case ReuseOutcome(w) =>
      At(s, w, Returned(s.workers[w].pc.token, s.workers[w].row.state.executionOutcome.value))
    case CallRunner(w) =>
      var t := s.workers[w].row.id;
      At(s.(calls := s.calls[t := CallsFor(s, t) + 1]), w, InRunner(s.workers[w].pc.token))
    case SaveProgress(w, state) =>
      s.(db := PersistProgress(s.db, s.workers[w].row.id, s.workers[w].pc.token, state, s.now).0)
    case RunnerReturns(w, outcome) => At(s, w, Returned(s.workers[w].pc.token, outcome))
    case YieldLease(w) =>
      At(s.(db := Continue(s.db, s.workers[w].row.id, s.workers[w].pc.token, s.now)),
         w, Finished(ResumeAt(s.workers[w].pc.outcome.resumeAt)))
    case SaveConfirmed(w) =>
      var pc := s.workers[w].pc;
      var (db, ok) := SaveOutcome(s.db, s.workers[w].row.id, pc.token, pc.outcome, s.now);
      At(s.(db := db), w, if ok then Saved(pc.token, pc.outcome) else Finished(Threw))
    case FinalizeTarget(w, mediaIds) =>
      var ready := ReadyToFinalize(s.workers[w]);
      var row := s.workers[w].row;
      var (db, ok) := Finalize(s.db, row, ready.outcome, mediaIds, ready.token, s.now);
      At(s.(db := db, rolled := if ok then s.rolled + {row.postId} else s.rolled),
         w, Finished(if ok then FinalReply(ready.outcome) else Threw))
    case Crash(w) => s.(workers := s.workers[w := s.workers[w].(alive := false)])
  }

  /** Where a run may start: no worker yet, and every target unpublished with no saved outcome. */
  predicate Init(s: State) {
    && s.workers == map[] && s.grants == map[] && s.calls == map[] && s.rolled == {}
    && (forall t | t in s.db.targets ::
          && s.db.targets[t].status != Published
          && s.db.targets[t].state.executionOutcome.None?
          && s.db.targets[t].updatedAt <= s.now)
  }

  datatype Run = Run(states: seq<State>, steps: seq<Step>)

  ghost predicate IsRun(r: Run) {
    && |r.states| == |r.steps| + 1
    && Init(r.states[0])
    && forall i | 0 <= i < |r.steps| ::
         Enabled(r.states[i], r.steps[i]) && r.states[i + 1] == Apply(r.states[i], r.steps[i])
  }

  /** The worker taking a step on target `t`, if any. */
  predicate ActsOn(s: State, step: Step, t: string) {
    !step.Tick? && !step.Read? && step.w in s.workers && s.workers[step.w].row.id == t
  }

  /**
   * A lease on a YouTube target is asked for at most fifteen minutes after its row was read.
   * Nothing is asked of any other platform.
   */
  predicate Timely(s: State, step: Step, t: string) {
    step.AcquireLease? && ActsOn(s, step, t) && s.workers[step.w].row.platform == "YOUTUBE" ==>
      s.now <= s.workers[step.w].readAt + LEASE
  }

  ghost predicate TimelyRun(r: Run, t: string) {
    forall i | 0 <= i < |r.steps| && i < |r.states| :: Timely(r.states[i], r.steps[i], t)
  }
}
