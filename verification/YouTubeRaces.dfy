/**
 * The one platform whose stale leases are taken over is also the one on which the guarantees need timing:
 * each of them holds over all runs exactly when the platform is not YouTube.
 */
module YouTubeRaces {
  import opened Wrappers
  import opened PublishRecords
  import opened Transactions
  import opened Protocol
  import opened ProtocolInvariant
  import opened ProtocolRuns

  const BLANK := ProviderState(None, None, map[])
  const RESUMABLE := ProviderState(None, Some("https://upload"), map[])
  const FIRST := Confirmed(PostResult("video-1", "https://youtube/1"))

  function Fresh(status: TargetStatus, attempts: nat, state: ProviderState, id: Option<string>, at: int): Target {
    Target("p", "c", "g", "YOUTUBE", status, attempts, state, id, None, at)
  }

  function Tables(target: Target, status: PostStatus): Database {
    Database(map["t" := target], map["p" := Post("w", false, [], status, None)], map[], map[], map[], map[])
  }

  function Snapshot(status: TargetStatus, attempts: nat, state: ProviderState): Row {
    Row("t", "p", "c", "g", "YOUTUBE", "w", [], status, attempts, state)
  }

  function Last(r: Run): State
    requires r.states != []
  {
    r.states[|r.states| - 1]
  }

  /** A run whose leases on "t" are asked for within `a` of the read and used within `b` of the grant. */
  ghost predicate IsRunWithin(r: Run, a: nat, b: nat) {
    IsRun(r) && RunWithin(r, "t", a, b)
  }

  /** Extends a run by one step to a given state, within the same bounds. */
  lemma Take(r: Run, step: Step, to: State, a: nat, b: nat) returns (longer: Run)
    requires IsRunWithin(r, a, b) && Enabled(Last(r), step) && StepWithin(Last(r), step, "t", a, b)
    requires Apply(Last(r), step) == to
    ensures IsRunWithin(longer, a, b) && longer.states == r.states + [to]
  {
    hide Apply, Enabled, StepWithin, Init;
    longer := Run(r.states + [to], r.steps + [step]);
  }

  const START := State(Tables(Fresh(Pending, 0, BLANK, None, 0), Scheduled), 0, map[], map[], map[], {})

  const HOLDER := Worker(Snapshot(Pending, 0, BLANK), 0, 0, InRunner(1), true)
  const WAITER := Worker(Snapshot(Publishing, 1, RESUMABLE), 0, 0, Loaded, true)

  const LEASED := State(Tables(Fresh(Publishing, 1, BLANK, None, 0), PostPublishing), 0,
    map[0 := HOLDER.(pc := Acquired(1))], map[("t", 1) := 0], map[], {"p"})

  /** Run 0 holds the lease inside the runner with its upload session saved; run 1 has read that row. */
  const MIDWAY := LEASED.(
    db := Tables(Fresh(Publishing, 1, RESUMABLE, None, 0), PostPublishing),
    workers := map[0 := HOLDER, 1 := WAITER],
    calls := map["t" := 1])

  /** A lease on a pending row, or on a stale row whose upload can be resumed, goes to the run that asks. */
  lemma LeaseTaken(from: State, w: nat, target: Target, status: PostStatus)
    requires w in from.workers && from.workers[w].alive && from.workers[w].pc.Loaded?
    requires var row := from.workers[w].row;
             && row == Snapshot(row.status, row.attempts, row.state).(platform := row.platform)
             && row.status in {Pending, Publishing} && row.state.executionOutcome.None?
             && (target.status == Pending
                 || (target.status == Publishing && target.updatedAt < from.now - LEASE
                     && row.platform == "YOUTUBE" && row.state.Resumable()))
    requires from.db == Tables(target, status)
    ensures Enabled(from, AcquireLease(w))
    ensures Apply(from, AcquireLease(w)) == from.(
      db := Tables(target.(status := Publishing, attempts := target.attempts + 1, updatedAt := from.now), PostPublishing),
      workers := from.workers[w := from.workers[w].(pc := Acquired(target.attempts + 1), acquiredAt := from.now)],
      grants := from.grants[("t", target.attempts + 1) := w],
      rolled := from.rolled + {"p"})
  {
  }

  lemma Called(from: State, w: nat)
    requires Enabled(from, CallRunner(w))
    ensures var worker := from.workers[w];
            Apply(from, CallRunner(w)) == from.(
              workers := from.workers[w := worker.(pc := InRunner(worker.pc.token))],
              calls := from.calls[worker.row.id := CallsFor(from, worker.row.id) + 1])
  {
  }

  lemma ReachLeased(a: nat, b: nat) returns (r: Run)
    ensures IsRunWithin(r, a, b) && Last(r) == LEASED
  {
    hide FailBefore, Acquire, Finalize;
    var loaded := START.(workers := map[0 := HOLDER.(pc := Loaded)]);
    r := Take(Run([START], []), Read(0, "t"), loaded, a, b);
    LeaseTaken(loaded, 0, Fresh(Pending, 0, BLANK, None, 0), Scheduled);
    r := Take(r, AcquireLease(0), LEASED, a, b);
  }

  /** The run is inside the runner, its upload session saved. */
  const PROGRESSED := MIDWAY.(workers := map[0 := HOLDER])

  lemma ReachProgressed(a: nat, b: nat) returns (r: Run)
    ensures IsRunWithin(r, a, b) && Last(r) == PROGRESSED
  {
    hide FailBefore, Finalize, Acquire;
    r := ReachLeased(a, b);
    r := Take(r, CallRunner(0), PROGRESSED.(db := LEASED.db), a, b);
    r := Take(r, SaveProgress(0, RESUMABLE), PROGRESSED, a, b);
  }

  lemma ReachMidway(a: nat, b: nat) returns (r: Run)
    ensures IsRunWithin(r, a, b) && Last(r) == MIDWAY
  {
    hide FailBefore, Finalize, Acquire;
    r := ReachProgressed(a, b);
    r := Take(r, Read(1, "t"), MIDWAY, a, b);
  }

  const SECOND := WAITER.(readAt := LEASE + 1, acquiredAt := LEASE + 1)

  /** The first holder's upload session is saved and its lease has expired; run 1 has just read the row. */
  const EXPIRED := MIDWAY.(now := LEASE + 1, workers := map[0 := HOLDER, 1 := SECOND])

  lemma ReachExpired(a: nat, b: nat) returns (r: Run)
    ensures IsRunWithin(r, a, b) && Last(r) == EXPIRED
  {
    hide FailBefore, Finalize, Acquire;
    r := ReachProgressed(a, b);
    r := Take(r, Tick(LEASE + 1), PROGRESSED.(now := LEASE + 1), a, b);
    r := Take(r, Read(1, "t"), EXPIRED, a, b);
  }

  /** Run 1 holds the lease too. */
  const OVERLAP := State(
    Tables(Fresh(Publishing, 2, RESUMABLE, None, LEASE + 1), PostPublishing),
    LEASE + 1,
    map[0 := HOLDER, 1 := SECOND.(pc := Acquired(2))],
    map[("t", 1) := 0, ("t", 2) := 1],
    map["t" := 1],
    {"p"})

  lemma ReachOverlap(a: nat, b: nat) returns (r: Run)
    ensures IsRunWithin(r, a, b) && Last(r) == OVERLAP
  {
    hide FailBefore, Finalize, Acquire;
    r := ReachExpired(a, b);
    LeaseTaken(EXPIRED, 1, Fresh(Publishing, 1, RESUMABLE, None, 0), PostPublishing);
    assert Apply(EXPIRED, AcquireLease(1)).workers == OVERLAP.workers;
    r := Take(r, AcquireLease(1), OVERLAP, a, b);
  }

  /** A second provider call while the first is unresolved, however soon leases are asked for and used. */
  lemma TwoCallsInFlight(a: nat, b: nat) returns (r: Run)
    ensures IsRunWithin(r, a, b)
    ensures Unresolved(Last(r), 0, "t") && Unresolved(Last(r), 1, "t")
    ensures "t" in Last(r).db.targets && Last(r).db.targets["t"].platform == "YOUTUBE"
  {
    hide FailBefore, Finalize, Acquire;
    r := ReachOverlap(a, b);
    Called(OVERLAP, 1);
    r := Take(r, CallRunner(1), Apply(OVERLAP, CallRunner(1)), a, b);
  }

  const LATE := WAITER.(pc := Acquired(2), acquiredAt := LEASE + 1)

  const RESOLVED := ProviderState(Some(FIRST), Some("https://upload"), map[])

  /** Run 0 has its confirmed video saved; run 1 still waits with the snapshot taken before. */
  const CONFIRMED := MIDWAY.(
    db := Tables(Fresh(Publishing, 1, RESOLVED, None, 0), PostPublishing),
    workers := map[0 := HOLDER.(pc := Saved(1, FIRST)), 1 := WAITER])

  /** A holder whose token is current sees its video confirmed and saves that. */
  lemma Confirm(r: Run, w: nat, target: Target, status: PostStatus, a: nat, b: nat) returns (longer: Run)
    requires IsRunWithin(r, a, b) && Running(Last(r), w) && Last(r).db == Tables(target, status) && target.status == Publishing
    requires var worker := Last(r).workers[w];
             worker.row.id == "t" && worker.row.state.executionOutcome.None? && worker.pc == InRunner(target.attempts)
    ensures IsRunWithin(longer, a, b)
    ensures Last(longer) == Last(r).(
      db := Tables(target.(state := target.state.(executionOutcome := Some(FIRST)), updatedAt := Last(r).now), status),
      workers := Last(r).workers[w := Last(r).workers[w].(pc := Saved(target.attempts, FIRST))])
  {
    hide FailBefore, Finalize, Acquire;
    var s := Last(r);
    var returned := s.(workers := s.workers[w := s.workers[w].(pc := Returned(target.attempts, FIRST))]);
    longer := Take(r, RunnerReturns(w, FIRST), returned, a, b);
    longer := Take(longer, SaveConfirmed(w), Apply(returned, SaveConfirmed(w)), a, b);
  }

  lemma ReachConfirmed(a: nat, b: nat) returns (r: Run)
    ensures IsRunWithin(r, a, b) && Last(r) == CONFIRMED
  {
    hide FailBefore, Finalize, Acquire;
    r := ReachMidway(a, b);
    r := Confirm(r, 0, Fresh(Publishing, 1, RESUMABLE, None, 0), PostPublishing, a, b);
    assert Last(r).workers == CONFIRMED.workers;
  }

  const READER := Worker(Snapshot(Publishing, 2, RESOLVED), LEASE + 1, LEASE + 1, Loaded, true)

  /** Run 1 takes the lease over although the outcome is saved; run 2 then reads the row. */
  const TAKEN := State(
    Tables(Fresh(Publishing, 2, RESOLVED, None, LEASE + 1), PostPublishing),
    LEASE + 1,
    map[0 := HOLDER.(pc := Saved(1, FIRST)), 1 := LATE],
    map[("t", 1) := 0, ("t", 2) := 1],
    map["t" := 1],
    {"p"})

  lemma TakenOver(late: State)
    requires late == CONFIRMED.(now := LEASE + 1)
    ensures Enabled(late, AcquireLease(1)) && Apply(late, AcquireLease(1)) == TAKEN
  {
    hide FailBefore, Finalize, Acquire;
    LeaseTaken(late, 1, Fresh(Publishing, 1, RESOLVED, None, 0), PostPublishing);
    assert Apply(late, AcquireLease(1)).workers == TAKEN.workers;
  }

  lemma ReachTaken(a: nat, b: nat) returns (r: Run)
    requires a > LEASE
    ensures IsRunWithin(r, a, b) && Last(r) == TAKEN
    ensures |r.states| > 2 && r.states[|r.states| - 3] == CONFIRMED
  {
    hide FailBefore, Finalize, Acquire;
    r := ReachConfirmed(a, b);
    var late := CONFIRMED.(now := LEASE + 1);
    r := Take(r, Tick(LEASE + 1), late, a, b);
    TakenOver(late);
    r := Take(r, AcquireLease(1), TAKEN, a, b);
  }

  /** Run 2 reads the row ... */
  const REREAD := TAKEN.(workers := TAKEN.workers[2 := READER])

  lemma ReachReread(a: nat, b: nat) returns (r: Run)
    requires a > LEASE
    ensures IsRunWithin(r, a, b) && Last(r) == REREAD
    ensures |r.states| > 3 && r.states[|r.states| - 4] == CONFIRMED
  {
    hide FailBefore, Finalize, Acquire;
    r := ReachTaken(a, b);
    r := Take(r, Read(2, "t"), REREAD, a, b);
  }

  /** ... and run 1 calls the provider again. */
  const RECALLED := REREAD.(workers := REREAD.workers[1 := LATE.(pc := InRunner(2))], calls := map["t" := 2])

  lemma ReachRecalled(a: nat, b: nat) returns (r: Run)
    requires a > LEASE
    ensures IsRunWithin(r, a, b) && Last(r) == RECALLED
    ensures |r.states| > 4 && r.states[|r.states| - 5] == CONFIRMED
  {
    hide FailBefore, Finalize, Acquire;
    r := ReachReread(a, b);
    Called(REREAD, 1);
    r := Take(r, CallRunner(1), RECALLED, a, b);
  }

  /** Run 1's progress save erases the confirmed outcome ... */
  const ERASED := RECALLED.(db := Tables(Fresh(Publishing, 2, BLANK, None, LEASE + 1), PostPublishing))

  /** ... and run 2 still publishes it from its snapshot. */
  lemma FinalizedFromSnapshot()
    ensures Enabled(ERASED, FinalizeTarget(2, []))
    ensures var after := Apply(ERASED, FinalizeTarget(2, [])).db.targets;
            "t" in after && after["t"] == Fresh(Published, 2, BLANK, Some("video-1"), LEASE + 1)
  {
    hide FollowUps.FollowUp, RollUpAndStamp, Rollup.RollupSet, StatusesOf, FailBefore, Acquire;
    assert ReadyToFinalize(READER) == Ready(FIRST, 2);
    FinalizeTargets(ERASED.db, READER.row, FIRST, [], 2, ERASED.now);
  }

  lemma OutcomeErased(a: nat, b: nat) returns (r: Run, i: nat)
    requires a > LEASE
    ensures IsRunWithin(r, a, b) && Last(r) == ERASED
    ensures i < |r.states| && r.states[i] == CONFIRMED
  {
    hide FailBefore, Acquire, Finalize;
    r := ReachRecalled(a, b);
    i := |r.states| - 5;
    r := Take(r, SaveProgress(1, BLANK), ERASED, a, b);
  }

  lemma PublishedWithoutOutcome(a: nat, b: nat) returns (r: Run)
    requires a > LEASE
    ensures IsRunWithin(r, a, b) && "t" in Last(r).db.targets
    ensures Last(r).db.targets["t"].platform == "YOUTUBE"
    ensures Last(r).db.targets["t"].status == Published && SavedFor(Last(r), "t") == None
  {
    hide FailBefore, Acquire, Finalize;
    var erased;
    r, erased := OutcomeErased(a, b);
    FinalizedFromSnapshot();
    r := Take(r, FinalizeTarget(2, []), Apply(ERASED, FinalizeTarget(2, [])), a, b);
  }

  // Asking for leases in time is not enough on YouTube: a lease may also be used too late.

  const ASKED :=
    MIDWAY.(workers := map[0 := HOLDER.(pc := Returned(1, ContinueAt(0))), 1 := WAITER])

  const YIELDED := LEASED.(
    db := Tables(Fresh(Pending, 1, RESUMABLE, None, 0), PostPublishing),
    workers := map[0 := HOLDER.(pc := Finished(ResumeAt(0))), 1 := WAITER],
    calls := map["t" := 1])

  lemma ReachAsked(a: nat, b: nat) returns (r: Run)
    ensures IsRunWithin(r, a, b) && Last(r) == ASKED
  {
    hide FailBefore, Finalize, Acquire;
    r := ReachMidway(a, b);
    r := Take(r, RunnerReturns(0, ContinueAt(0)), ASKED, a, b);
  }

  lemma ReachYielded(a: nat, b: nat) returns (r: Run)
    ensures IsRunWithin(r, a, b) && Last(r) == YIELDED
  {
    hide FailBefore, Finalize, Acquire;
    r := ReachAsked(a, b);
    r := Take(r, YieldLease(0), YIELDED, a, b);
  }

  const STALLED := WAITER.(pc := Acquired(2))
  const THIRD := Worker(Snapshot(Publishing, 2, RESUMABLE), LEASE + 1, LEASE + 1, Loaded, true)

  /** Run 1 takes the lease at once and stalls before its call; run 2 reads the row when that lease is stale. */
  const OVERDUE := State(
    Tables(Fresh(Publishing, 2, RESUMABLE, None, 0), PostPublishing),
    LEASE + 1,
    map[0 := HOLDER.(pc := Finished(ResumeAt(0))), 1 := STALLED, 2 := THIRD],
    map[("t", 1) := 0, ("t", 2) := 1],
    map["t" := 1],
    {"p"})

  lemma ReachOverdue(a: nat, b: nat) returns (r: Run)
    ensures IsRunWithin(r, a, b) && Last(r) == OVERDUE
  {
    hide FailBefore, Finalize, Acquire;
    r := ReachYielded(a, b);
    LeaseTaken(YIELDED, 1, Fresh(Pending, 1, RESUMABLE, None, 0), PostPublishing);
    var taken := OVERDUE.(now := 0, workers := map[0 := HOLDER.(pc := Finished(ResumeAt(0))), 1 := STALLED]);
    r := Take(r, AcquireLease(1), taken, a, b);
    r := Take(r, Tick(LEASE + 1), taken.(now := LEASE + 1), a, b);
    r := Take(r, Read(2, "t"), OVERDUE, a, b);
  }

  /** Run 2 takes over, publishes and saves its confirmed outcome. */
  const RESAVED := State(
    Tables(Fresh(Publishing, 3, RESOLVED, None, LEASE + 1), PostPublishing),
    LEASE + 1,
    OVERDUE.workers[2 := THIRD.(pc := Saved(3, FIRST))],
    OVERDUE.grants[("t", 3) := 2],
    map["t" := 2],
    {"p"})

  /** Run 2's provider call, with nothing saved yet. */
  const RETAKEN := RESAVED.(
    db := Tables(Fresh(Publishing, 3, RESUMABLE, None, LEASE + 1), PostPublishing),
    workers := OVERDUE.workers[2 := THIRD.(pc := InRunner(3))])

  lemma ReachRetaken(a: nat, b: nat) returns (r: Run)
    ensures IsRunWithin(r, a, b) && Last(r) == RETAKEN
  {
    hide FailBefore, Finalize, Acquire;
    r := ReachOverdue(a, b);
    LeaseTaken(OVERDUE, 2, Fresh(Publishing, 2, RESUMABLE, None, 0), PostPublishing);
    var taken := RETAKEN.(workers := OVERDUE.workers[2 := THIRD.(pc := Acquired(3))], calls := map["t" := 1]);
    r := Take(r, AcquireLease(2), taken, a, b);
    Called(taken, 2);
    r := Take(r, CallRunner(2), RETAKEN, a, b);
  }

  lemma ReachResaved(a: nat, b: nat) returns (r: Run)
    ensures IsRunWithin(r, a, b) && Last(r) == RESAVED
  {
    hide FailBefore, Finalize, Acquire;
    r := ReachRetaken(a, b);
    r := Confirm(r, 2, Fresh(Publishing, 3, RESUMABLE, None, LEASE + 1), PostPublishing, a, b);
    assert Last(r).workers == RESAVED.workers;
  }

  /** However soon leases are asked for, a call after the save is possible when they may be used late. */
  lemma LateCallAfterSave(a: nat, b: nat) returns (r: Run, i: nat)
    requires b > LEASE
    ensures IsRunWithin(r, a, b) && i < |r.states| - 1
    ensures "t" in r.states[i].db.targets && SavedFor(r.states[i], "t") == Some(FIRST)
    ensures CallsFor(Last(r), "t") == CallsFor(r.states[i], "t") + 1
  {
    hide FailBefore, Finalize, Acquire;
    r := ReachResaved(a, b);
    i := |r.states| - 1;
    assert r.states[i] == RESAVED;
    Called(RESAVED, 1);
    r := Take(r, CallRunner(1), Apply(RESAVED, CallRunner(1)), a, b);
  }

  // The three guarantees as properties of a platform, quantified over every run.

  ghost predicate SingleFlightOn(platform: string) {
    forall r, i, t, w, v |
      IsRun(r) && 0 <= i < |r.states| && t in r.states[i].db.targets && r.states[i].db.targets[t].platform == platform
      && Unresolved(r.states[i], w, t) && Unresolved(r.states[i], v, t) :: w == v
  }

  ghost predicate OutcomeSavedAt(r: Run, i: int, t: string, platform: string) {
    && IsRun(r) && 0 <= i < |r.states| && t in r.states[i].db.targets && r.states[i].db.targets[t].platform == platform
    && SavedFor(r.states[i], t).Some?
  }

  /** A saved outcome stays, and ends the calls of the runner. */
  ghost predicate ConfirmedOutcomesSurviveOn(platform: string) {
    forall r, i, j, t | OutcomeSavedAt(r, i, t, platform) && i <= j < |r.states| ::
      && t in r.states[j].db.targets && SavedFor(r.states[j], t) == SavedFor(r.states[i], t)
      && CallsFor(r.states[j], t) == CallsFor(r.states[i], t)
  }

  ghost predicate PublishedIdMatchesOn(platform: string) {
    forall r, i, t |
      IsRun(r) && 0 <= i < |r.states| && t in r.states[i].db.targets && r.states[i].db.targets[t].platform == platform
      && r.states[i].db.targets[t].status == Published ::
      var target := r.states[i].db.targets[t];
      target.state.HasConfirmed() && target.platformPostId == Some(target.state.executionOutcome.value.result.platformPostId)
  }

  lemma SingleFlightExactlyOffYouTube(platform: string)
    ensures SingleFlightOn(platform) <==> platform != "YOUTUBE"
  {
    if platform == "YOUTUBE" {
      var r := TwoCallsInFlight(0, 0);
      assert Unresolved(r.states[|r.states| - 1], 0, "t") && Unresolved(r.states[|r.states| - 1], 1, "t");
    } else {
      forall r, i, t, w, v |
        IsRun(r) && 0 <= i < |r.states| && t in r.states[i].db.targets && r.states[i].db.targets[t].platform == platform
        && Unresolved(r.states[i], w, t) && Unresolved(r.states[i], v, t)
        ensures w == v
      {
        SingleFlight(r, i, t, w, v);
      }
    }
  }

  lemma SurvivalExactlyOffYouTube(platform: string)
    ensures ConfirmedOutcomesSurviveOn(platform) <==> platform != "YOUTUBE"
  {
    if platform == "YOUTUBE" {
      var r := ReachRecalled(LEASE + 1, 0);
      var i, j := |r.states| - 5, |r.states| - 1;
      assert OutcomeSavedAt(r, i, "t", platform);
      assert CallsFor(r.states[i], "t") == 1 && CallsFor(r.states[j], "t") == 2;
    } else {
      forall r, i, j, t | OutcomeSavedAt(r, i, t, platform) && i <= j < |r.states|
        ensures t in r.states[j].db.targets && SavedFor(r.states[j], t) == SavedFor(r.states[i], t)
        ensures CallsFor(r.states[j], t) == CallsFor(r.states[i], t)
      {
        SoundOffYouTube(r, t, i);
        ConfirmedIsKept(r, i, j, t);
        RowsFromStart(r, t, i);
        OffYouTubeIsPrompt(r, t);
        ConfirmedEndsCalls(r, i, j, t);
      }
    }
  }

  lemma OffYouTubeIsPrompt(r: Run, t: string)
    requires IsRun(r) && t in r.states[0].db.targets && r.states[0].db.targets[t].platform != "YOUTUBE"
    ensures PromptRun(r, t)
  {
    hide Apply;
    forall i | 0 <= i < |r.steps| && i < |r.states| && r.steps[i].CallRunner? && ActsOn(r.states[i], r.steps[i], t)
      ensures r.states[i].workers[r.steps[i].w].row.platform != "YOUTUBE"
    {
      RunCoherent(r, i);
      assert CoherentWorker(r.states[i], r.steps[i].w);
      RowsFromStart(r, t, i);
    }
  }

  lemma PublishedIdExactlyOffYouTube(platform: string)
    ensures PublishedIdMatchesOn(platform) <==> platform != "YOUTUBE"
  {
    if platform == "YOUTUBE" {
      var r := PublishedWithoutOutcome(LEASE + 1, 0);
      var i := |r.states| - 1;
      assert r.states[i].db.targets["t"].status == Published;
      assert !r.states[i].db.targets["t"].state.HasConfirmed();
    } else {
      forall r, i, t |
        IsRun(r) && 0 <= i < |r.states| && t in r.states[i].db.targets && r.states[i].db.targets[t].platform == platform
        && r.states[i].db.targets[t].status == Published
        ensures var target := r.states[i].db.targets[t];
                && target.state.HasConfirmed()
                && target.platformPostId == Some(target.state.executionOutcome.value.result.platformPostId)
      {
        SoundOffYouTube(r, t, i);
        PublishedIdIsTheSavedOne(r, i, t);
      }
    }
  }
}
