/**
 * How much timing the guarantees need on every platform, YouTube included: for each of them exactly which bounds on
 * the time from read to lease request, and from grant to provider call, make it hold over all runs.
 */
module TimingBounds {
  import opened Wrappers
  import opened PublishRecords
  import opened Protocol
  import opened ProtocolInvariant
  import opened ProtocolRuns
  import opened YouTubeRaces

  ghost predicate SavedAt(r: Run, i: int, t: string, a: nat, b: nat) {
    && IsRun(r) && RunWithin(r, t, a, b) && 0 <= i < |r.states|
    && t in r.states[i].db.targets && SavedFor(r.states[i], t).Some?
  }

  /** A saved outcome is never lost or replaced. */
  ghost predicate OutcomeKeptWithin(a: nat, b: nat) {
    forall r, i, j, t | SavedAt(r, i, t, a, b) && i <= j < |r.states| ::
      t in r.states[j].db.targets && SavedFor(r.states[j], t) == SavedFor(r.states[i], t)
  }

  /** A saved outcome is kept and ends the calls of the runner. */
  ghost predicate OutcomeSurvivesWithin(a: nat, b: nat) {
    forall r, i, j, t | SavedAt(r, i, t, a, b) && i <= j < |r.states| ::
      && t in r.states[j].db.targets && SavedFor(r.states[j], t) == SavedFor(r.states[i], t)
      && CallsFor(r.states[j], t) == CallsFor(r.states[i], t)
  }

  /** A published target carries the platform id of its saved outcome. */
  ghost predicate PublishedIdMatchesWithin(a: nat, b: nat) {
    forall r, i, t |
      IsRun(r) && RunWithin(r, t, a, b) && 0 <= i < |r.states| && t in r.states[i].db.targets
      && r.states[i].db.targets[t].status == Published ::
      var target := r.states[i].db.targets[t];
      target.state.HasConfirmed() && target.platformPostId == Some(target.state.executionOutcome.value.result.platformPostId)
  }

  ghost predicate SingleFlightWithin(a: nat, b: nat) {
    forall r, i, t, w, v |
      IsRun(r) && RunWithin(r, t, a, b) && 0 <= i < |r.states|
      && Unresolved(r.states[i], w, t) && Unresolved(r.states[i], v, t) :: w == v
  }

  /** Confirmed results survive exactly if leases are asked for and used within the lease time. */
  lemma SurvivalExactlyWithinLease(a: nat, b: nat)
    ensures OutcomeSurvivesWithin(a, b) <==> a <= LEASE && b <= LEASE
  {
    if a > LEASE {
      var r := ReachRecalled(a, b);
      var i, j := |r.states| - 5, |r.states| - 1;
      assert SavedAt(r, i, "t", a, b);
      assert CallsFor(r.states[i], "t") == 1 && CallsFor(r.states[j], "t") == 2;
    } else if b > LEASE {
      var r, i := LateCallAfterSave(a, b);
      assert SavedAt(r, i, "t", a, b);
      assert CallsFor(r.states[|r.states| - 1], "t") != CallsFor(r.states[i], "t");
    } else {
      forall r, i, j, t | SavedAt(r, i, t, a, b) && i <= j < |r.states|
        ensures t in r.states[j].db.targets && SavedFor(r.states[j], t) == SavedFor(r.states[i], t)
        ensures CallsFor(r.states[j], t) == CallsFor(r.states[i], t)
      {
        WithinLease(r, t, a, b);
        ConfirmedIsKept(r, i, j, t);
        ConfirmedEndsCalls(r, i, j, t);
      }
    }
  }

  /** The saved outcome itself is kept exactly if leases are asked for within the lease time, however late they are used. */
  lemma OutcomeKeptExactlyWithinLease(a: nat, b: nat)
    ensures OutcomeKeptWithin(a, b) <==> a <= LEASE
  {
    if a > LEASE {
      var r, i := OutcomeErased(a, b);
      assert SavedAt(r, i, "t", a, b);
      assert SavedFor(r.states[|r.states| - 1], "t") != SavedFor(r.states[i], "t");
    } else {
      forall r, i, j, t | SavedAt(r, i, t, a, b) && i <= j < |r.states|
        ensures t in r.states[j].db.targets && SavedFor(r.states[j], t) == SavedFor(r.states[i], t)
      {
        WithinLease(r, t, a, b);
        ConfirmedIsKept(r, i, j, t);
      }
    }
  }

  /** Under the same bound, and no other, a published target carries the saved platform id. */
  lemma PublishedIdExactlyWithinLease(a: nat, b: nat)
    ensures PublishedIdMatchesWithin(a, b) <==> a <= LEASE
  {
    if a > LEASE {
      var r := PublishedWithoutOutcome(a, b);
      var i := |r.states| - 1;
      assert r.states[i].db.targets["t"].status == Published;
      assert !r.states[i].db.targets["t"].state.HasConfirmed();
    } else {
      forall r, i, t |
        IsRun(r) && RunWithin(r, t, a, b) && 0 <= i < |r.states| && t in r.states[i].db.targets
        && r.states[i].db.targets[t].status == Published
        ensures var target := r.states[i].db.targets[t];
                && target.state.HasConfirmed()
                && target.platformPostId == Some(target.state.executionOutcome.value.result.platformPostId)
      {
        WithinLease(r, t, a, b);
        PublishedIdIsTheSavedOne(r, i, t);
      }
    }
  }

  /** No bound gives single flight on every platform: a resumable upload is taken over while its old call may live. */
  lemma SingleFlightAtNoBound(a: nat, b: nat)
    ensures !SingleFlightWithin(a, b)
  {
    var r := TwoCallsInFlight(a, b);
    var i := |r.states| - 1;
    assert Unresolved(r.states[i], 0, "t") && Unresolved(r.states[i], 1, "t");
  }
}
