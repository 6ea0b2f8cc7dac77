/**
 * Concrete runs that end badly for a confirmed answer: on YouTube the provider may be called again before it is saved,
 * and on every platform it may never be saved.
 */
module AnswerRaces {
  import opened Wrappers
  import opened PublishRecords
  import opened Transactions
  import opened Protocol
  import opened ProtocolInvariant
  import opened ProtocolAnswers
  import opened YouTubeRaces

  /** Run 1 has taken the lease over when run 0's video is confirmed. */
  const CROSSED := OVERLAP.(workers := map[0 := HOLDER.(pc := Returned(1, FIRST)), 1 := SECOND.(pc := Acquired(2))])

  /** However soon leases are asked for and used, a YouTube call may follow a confirmed answer. */
  lemma AnsweredThenCalled(a: nat, b: nat) returns (r: Run, i: nat)
    ensures IsRunWithin(r, a, b) && i < |r.states| - 1
    ensures r.states[i] == CROSSED && CallsFor(Last(r), "t") == CallsFor(CROSSED, "t") + 1
  {
    hide FailBefore, Finalize, Acquire;
    r := ReachOverlap(a, b);
    r := Take(r, RunnerReturns(0, FIRST), CROSSED, a, b);
    i := |r.states| - 1;
    Called(CROSSED, 1);
    r := Take(r, CallRunner(1), Apply(CROSSED, CallRunner(1)), a, b);
  }

  /** A confirmed answer, saved or not, ends the calls of the runner for its target. */
  ghost predicate AnswersEndCallsOn(platform: string) {
    forall r, i, j, t, w |
      IsRun(r) && 0 <= i <= j < |r.states| && t in r.states[i].db.targets && r.states[i].db.targets[t].platform == platform
      && Answered(r.states[i], w, t) :: CallsFor(r.states[j], t) == CallsFor(r.states[i], t)
  }

  lemma AnswersEndCallsExactlyOffYouTube(platform: string)
    ensures AnswersEndCallsOn(platform) <==> platform != "YOUTUBE"
  {
    if platform == "YOUTUBE" {
      var r, i := AnsweredThenCalled(0, 0);
      assert Answered(r.states[i], 0, "t");
      assert CallsFor(r.states[|r.states| - 1], "t") != CallsFor(r.states[i], "t");
    } else {
      forall r, i, j, t, w |
        IsRun(r) && 0 <= i <= j < |r.states| && t in r.states[i].db.targets && r.states[i].db.targets[t].platform == platform
        && Answered(r.states[i], w, t)
        ensures CallsFor(r.states[j], t) == CallsFor(r.states[i], t)
      {
        AnswerEndsCalls(r, i, j, t, w);
      }
    }
  }

  // Two runs read the same pending row; one publishes while the other gives up in preflight.

  function TargetOn(platform: string, status: TargetStatus, attempts: nat, error: Option<string>): Target {
    Fresh(status, attempts, BLANK, None, 0).(platform := platform, error := error)
  }

  function ReaderOf(platform: string, pc: Pc): Worker {
    Worker(Snapshot(Pending, 0, BLANK).(platform := platform), 0, 0, pc, true)
  }

  function BothRead(platform: string): State {
    State(Tables(TargetOn(platform, Pending, 0, None), Scheduled), 0,
      map[0 := ReaderOf(platform, Loaded), 1 := ReaderOf(platform, Loaded)], map[], map[], {})
  }

  lemma ReachBothRead(platform: string) returns (r: Run)
    ensures IsRunWithin(r, 0, 0) && Last(r) == BothRead(platform)
  {
    hide FailBefore, Finalize, Acquire;
    var start := BothRead(platform).(workers := map[]);
    var first := BothRead(platform).(workers := map[0 := ReaderOf(platform, Loaded)]);
    r := Take(Run([start], []), Read(0, "t"), first, 0, 0);
    r := Take(r, Read(1, "t"), BothRead(platform), 0, 0);
  }

  function OneCalling(platform: string): State {
    State(Tables(TargetOn(platform, Publishing, 1, None), PostPublishing), 0,
      map[0 := ReaderOf(platform, InRunner(1)), 1 := ReaderOf(platform, Loaded)],
      map[("t", 1) := 0], map["t" := 1], {"p"})
  }

  function OneLeased(platform: string): State {
    OneCalling(platform).(
      workers := map[0 := ReaderOf(platform, Acquired(1)), 1 := ReaderOf(platform, Loaded)], calls := map[])
  }

  lemma ReachOneLeased(platform: string) returns (r: Run)
    ensures IsRunWithin(r, 0, 0) && Last(r) == OneLeased(platform)
  {
    hide FailBefore, Finalize, Acquire;
    r := ReachBothRead(platform);
    LeaseTaken(BothRead(platform), 0, TargetOn(platform, Pending, 0, None), Scheduled);
    assert Apply(BothRead(platform), AcquireLease(0)).workers == OneLeased(platform).workers;
    r := Take(r, AcquireLease(0), OneLeased(platform), 0, 0);
  }

  lemma ReachOneCalling(platform: string) returns (r: Run)
    ensures IsRunWithin(r, 0, 0) && Last(r) == OneCalling(platform)
  {
    hide FailBefore, Finalize, Acquire;
    r := ReachOneLeased(platform);
    Called(OneLeased(platform), 0);
    r := Take(r, CallRunner(0), OneCalling(platform), 0, 0);
  }

  const REASON := "Media m is not ready"

  lemma GivenUp(target: Target, status: PostStatus, now: int)
    requires target.postId == "p"
    ensures FailBefore(Tables(target, status), "t", "p", REASON, now)
         == Tables(target.(status := Failed, error := Some(REASON), updatedAt := now), PostFailed)
  {
    var failed := Tables(target.(status := Failed, error := Some(REASON), updatedAt := now), status);
    assert WriteTarget(Tables(target, status), "t", failed.targets["t"]) == failed;
    assert StatusesOf(failed, "p") == {Failed};
  }

  function OneGaveUp(platform: string, pc: Pc): State {
    State(Tables(TargetOn(platform, Failed, 1, Some(REASON)), PostFailed), 0,
      map[0 := ReaderOf(platform, pc), 1 := ReaderOf(platform, Finished(Null))],
      map[("t", 1) := 0], map["t" := 1], {"p"})
  }

  lemma ReachOneGaveUp(platform: string) returns (r: Run)
    ensures IsRunWithin(r, 0, 0) && Last(r) == OneGaveUp(platform, InRunner(1))
  {
    hide FailBefore, Finalize, Acquire;
    r := ReachOneCalling(platform);
    GivenUp(TargetOn(platform, Publishing, 1, None), PostPublishing, 0);
    r := Take(r, GiveUp(1, REASON), OneGaveUp(platform, InRunner(1)), 0, 0);
  }

  lemma ReachAnswered(platform: string) returns (r: Run)
    ensures IsRunWithin(r, 0, 0) && Last(r) == OneGaveUp(platform, Returned(1, FIRST))
  {
    hide FailBefore, Finalize, Acquire;
    r := ReachOneGaveUp(platform);
    r := Take(r, RunnerReturns(0, FIRST), OneGaveUp(platform, Returned(1, FIRST)), 0, 0);
  }

  lemma SaveRefused(from: State, w: nat)
    requires Enabled(from, SaveConfirmed(w)) && !LeaseActive(from.db, from.workers[w].row.id, from.workers[w].pc.token)
    ensures Apply(from, SaveConfirmed(w)) == At(from, w, Finished(Threw))
  {
  }

  /**
   * On every platform, and with every lease asked for and used at once, a confirmed answer can be lost: the provider
   * has published, the run that knows finds its row failed by another and throws, and no outcome is saved.
   */
  lemma AnswerLost(platform: string) returns (r: Run, i: nat)
    ensures IsRunWithin(r, 0, 0) && i < |r.states| && Answered(r.states[i], 0, "t")
    ensures "t" in Last(r).db.targets && Last(r).db.targets["t"].platform == platform
    ensures Last(r).db.targets["t"].status == Failed && SavedFor(Last(r), "t").None?
    ensures On(Last(r), 0, "t") && Last(r).workers[0].pc == Finished(Threw)
  {
    hide FailBefore, Finalize, Acquire, Apply;
    r := ReachAnswered(platform);
    i := |r.states| - 1;
    SaveRefused(OneGaveUp(platform, Returned(1, FIRST)), 0);
    r := Take(r, SaveConfirmed(0), OneGaveUp(platform, Returned(1, FIRST)).(
      workers := OneGaveUp(platform, Returned(1, FIRST)).workers[0 := ReaderOf(platform, Finished(Threw))]), 0, 0);
  }
}
