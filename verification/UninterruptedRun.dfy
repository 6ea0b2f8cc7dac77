/** One call of `publishTarget` with no other run in between (publish-target.ts:171-486). */
module UninterruptedRun {
  import opened Wrappers
  import opened PublishRecords
  import opened Transactions
  import opened Preflight
  import opened Protocol

  /**
   * The run's surroundings: media and rules, whether media URLs resolve, and what the runner saves and reports.
   * A runner whose promise rejects reports nothing.
   */
  datatype World = World(library: Library, resolvable: bool, saves: seq<ProviderState>, report: Option<Outcome>)

  datatype Visited = Visited(db: Database, reply: Reply, called: bool)

  /** The runner's progress saves; each is ignored once the lease is gone, and the runner sees an error instead. */
  function SaveAll(db: Database, t: string, token: nat, saves: seq<ProviderState>, now: int): Database
    decreases |saves|
  {
    if saves == [] then db
    else SaveAll(PersistProgress(db, t, token, saves[0], now).0, t, token, saves[1..], now)
  }

  /** Lines 416-466: what follows the outcome, saved beforehand or just reported. */
  function Settle(db: Database, row: Row, outcome: Outcome, token: nat, now: int, called: bool): Visited {
    if outcome.ContinueAt? then Visited(Continue(db, row.id, token, now), ResumeAt(outcome.resumeAt), called)
    else
      var (saved, kept) :=
        if outcome.Confirmed? && row.state.executionOutcome.None?
        then SaveOutcome(db, row.id, token, outcome, now) else (db, true);
      if !kept then Visited(saved, Threw, called)
      else
        var (final, ok) := Finalize(saved, row, outcome, MediaIdsOf(row), token, now);
        Visited(final, if ok then FinalReply(outcome) else Threw, called)
  }

  const UNRESOLVED := "Unable to resolve authoritative media URLs"

  /** Lines 385-466: what a granted lease is used for. A rejecting runner leaves the row leased. */
  function Hold(db: Database, row: Row, token: nat, now: int, world: World): Visited {
    if !world.resolvable then Visited(FailBefore(db, row.id, row.postId, UNRESOLVED, now), Null, false)
    else
      match row.state.executionOutcome
      case Some(outcome) => Settle(db, row, outcome, token, now, false)
      case None =>
        var progressed := SaveAll(db, row.id, token, world.saves, now);
        match world.report
        case None => Visited(progressed, Threw, true)
        case Some(outcome) => Settle(progressed, row, outcome, token, now, true)
  }

  /** Lines 345-466, after preflight. */
  function Publish(db: Database, row: Row, now: int, world: World): Visited {
    var (held, lease) := Acquire(db, row, now);
    match lease
    case NotAcquired => Visited(held, ResumeAt(now + LEASE), false)
    case Token(token) => Hold(held, row, token, now, world)
  }

  /** A whole run, from the unlocked read to the reply. */
  function Visit(db: Database, t: string, now: int, world: World): Visited {
    if !Readable(db, t) then Visited(db, Null, false)
    else
      var row := RowOf(db, t);
      if Idle(row) then Visited(db, Null, false)
      else if row.state.HasConfirmed() then
        var (final, ok) := Finalize(db, row, row.state.executionOutcome.value, MediaIdsOf(row), row.attempts, now);
        Visited(final, if ok then Null else Threw, false)
      else
        match CheckRow(row, world.library)
        case Refused(message) => Visited(FailBefore(db, t, row.postId, message, now), Null, false)
        case Disappeared => Visited(db, Threw, false)
        case Passed(_) => Publish(db, row, now, world)
  }

  lemma {:induction false} SaveAllKeepsLease(db: Database, t: string, token: nat, saves: seq<ProviderState>, now: int)
    requires LeaseActive(db, t, token)
    requires forall i | 0 <= i < |saves| :: saves[i].executionOutcome.None?
    ensures var after := SaveAll(db, t, token, saves, now);
            && LeaseActive(after, t, token)
            && after.targets.Keys == db.targets.Keys
            && after.targets[t].postId == db.targets[t].postId
            && after.targets[t].platform == db.targets[t].platform
            && (db.targets[t].state.executionOutcome.None? ==> after.targets[t].state.executionOutcome.None?)
            && after.posts == db.posts
            && (forall k | k in db.targets && k != t :: after.targets[k] == db.targets[k])
    decreases |saves|
  {
    if saves != [] {
      SaveAllKeepsLease(PersistProgress(db, t, token, saves[0], now).0, t, token, saves[1..], now);
    }
  }

  /** The runner never writes an execution outcome itself. */
  predicate Honest(world: World) {
    forall i | 0 <= i < |world.saves| :: world.saves[i].executionOutcome.None?
  }

  lemma SettleOutcome(db: Database, row: Row, outcome: Outcome, token: nat, now: int, called: bool)
    requires LeaseActive(db, row.id, token)
    ensures var v := Settle(db, row, outcome, token, now, called);
            && v.called == called
            && row.id in v.db.targets
            && v.db.targets[row.id].attempts == token
            && (match outcome
                case ContinueAt(at) => v.reply == ResumeAt(at) && v.db.targets[row.id].status == Pending
                case Confirmed(result) =>
                  && v.reply == Null && v.db.targets[row.id].status == Published
                  && v.db.targets[row.id].platformPostId == Some(result.platformPostId)
                  && (row.state.executionOutcome.None? ==> v.db.targets[row.id].state.executionOutcome == Some(outcome))
                case Rejected(_, retryable) =>
                  if retryable then v.reply == Threw && v.db.targets[row.id].status == Pending
                  else v.reply == Null && v.db.targets[row.id].status == Failed)
  {
    hide FollowUps.FollowUp, RollUpAndStamp;
    if !outcome.ContinueAt? {
      var saved := if outcome.Confirmed? && row.state.executionOutcome.None?
        then SaveOutcome(db, row.id, token, outcome, now).0 else db;
      FinalizeTargets(saved, row, outcome, MediaIdsOf(row), token, now);
    }
  }

  /** A used lease settles the row, yields it back, or throws; it stays leased only when the runner rejects. */
  lemma HoldOutcome(db: Database, row: Row, token: nat, now: int, world: World)
    requires Honest(world) && LeaseActive(db, row.id, token)
    ensures var v := Hold(db, row, token, now, world);
            && row.id in v.db.targets
            && v.db.targets[row.id].attempts == token
            && (v.reply == Null ==> v.db.targets[row.id].status in {Published, Failed})
            && (v.reply.ResumeAt? ==> v.db.targets[row.id].status == Pending)
            && (v.reply == Threw ==>
                  v.db.targets[row.id].status == if v.called && world.report.None? then Publishing else Pending)
  {
    hide FollowUps.FollowUp, RollUpAndStamp, Rollup.RollupSet, StatusesOf, Settle;
    if world.resolvable {
      match row.state.executionOutcome
      case Some(outcome) => SettleOutcome(db, row, outcome, token, now, false);
      case None =>
        SaveAllKeepsLease(db, row.id, token, world.saves, now);
        if world.report.Some? {
          SettleOutcome(SaveAll(db, row.id, token, world.saves, now), row, world.report.value, token, now, true);
        }
    }
  }

  lemma PublishOutcome(db: Database, row: Row, now: int, world: World)
    requires Honest(world) && row.id in db.targets
    ensures var v := Publish(db, row, now, world);
            && row.id in v.db.targets
            && (v.reply == Null ==> v.db.targets[row.id].status in {Published, Failed})
            && (v.reply == Threw ==>
                  v.db.targets[row.id].status == if v.called && world.report.None? then Publishing else Pending)
            && (Acquire(db, row, now).1.NotAcquired? ==>
                  v == Visited(Acquire(db, row, now).0, ResumeAt(now + LEASE), false))
            && (Acquire(db, row, now).1.Token? ==> v.db.targets[row.id].attempts == db.targets[row.id].attempts + 1)
  {
    hide FollowUps.FollowUp, RollUpAndStamp, Rollup.RollupSet, StatusesOf, Hold;
    AcquireTargets(db, row, now);
    var (held, lease) := Acquire(db, row, now);
    if lease.Token? {
      HoldOutcome(held, row, lease.token, now, world);
    }
  }

  /**
   * No target is forgotten: a run replies null only when the target cannot be read or is settled, it throws only
   * while the target is pending or publishing, and any other reply is a time to come back.
   */
  lemma NoTargetIsForgotten(db: Database, t: string, now: int, world: World)
    requires Honest(world)
    ensures var v := Visit(db, t, now, world);
            && (!Readable(db, t) ==> v == Visited(db, Null, false))
            && (Readable(db, t) ==>
                  && t in v.db.targets
                  && (v.reply == Null ==> v.db.targets[t].status in {Published, Failed})
                  && (v.reply == Threw ==> v.db.targets[t].status in {Pending, Publishing})
                  && (v.db.targets[t].status in {Pending, Publishing} ==> v.reply == Threw || v.reply.ResumeAt?))
  {
    hide FollowUps.FollowUp, RollUpAndStamp, Rollup.RollupSet, StatusesOf, Publish, CheckRow;
    if Readable(db, t) && !Idle(RowOf(db, t)) {
      var row := RowOf(db, t);
      if row.state.HasConfirmed() {
        FinalizeTargets(db, row, row.state.executionOutcome.value, MediaIdsOf(row), row.attempts, now);
      } else {
        PublishOutcome(db, row, now, world);
      }
    }
  }

  /**
   * A saved confirmed outcome is published by any fresh run, under exactly the saved platform id and without a
   * provider call, whatever the content, the media and the rules have become.
   */
  lemma ConfirmedRunPublishes(db: Database, t: string, now: int, world: World)
    requires Readable(db, t) && db.targets[t].state.HasConfirmed() && db.targets[t].status != Published
    ensures var v := Visit(db, t, now, world);
            && v.reply == Null && !v.called
            && t in v.db.targets
            && v.db.targets[t] == db.targets[t].(
                 status := Published,
                 platformPostId := Some(db.targets[t].state.executionOutcome.value.result.platformPostId),
                 error := None,
                 updatedAt := now)
  {
  }

  // A lease whose holder died, visited again and again by a job re-run no earlier than each returned time.

  /** A visit of a dead lease settled it: the row failed or was published, or the lease was taken over. */
  predicate Settled(before: Database, after: Database, t: string)
    requires t in before.targets
  {
    t in after.targets
    && (after.targets[t].status in {Failed, Published} || after.targets[t].attempts > before.targets[t].attempts)
  }

  predicate Dead(db: Database, t: string) {
    Readable(db, t) && db.targets[t].status == Publishing
  }

  /** The visits that settle a dead lease: by its saved outcome, by a refusal, or because the lease has expired. */
  predicate Settles(db: Database, t: string, now: int, world: World)
    requires Dead(db, t)
  {
    var check := CheckRow(RowOf(db, t), world.library);
    || db.targets[t].state.HasConfirmed()
    || check.Refused?
    || (check.Passed? && now > db.targets[t].updatedAt + LEASE)
  }

  /** Publishable content, as far as a dead lease is concerned: it is not going to throw before it is settled. */
  predicate CanSettle(db: Database, t: string, library: Library)
    requires Dead(db, t)
  {
    db.targets[t].state.HasConfirmed() || !NamesEmptyMedia(RowOf(db, t), library)
  }

  /** A visit that does not settle a dead lease changes nothing: it throws on the empty media id, or waits. */
  lemma DeadLeaseVisit(db: Database, t: string, now: int, world: World)
    requires Honest(world) && Dead(db, t)
    ensures var v := Visit(db, t, now, world);
            && (Settled(db, v.db, t) <==> Settles(db, t, now, world))
            && (!Settles(db, t, now, world) ==>
                  v == Visited(db, if CanSettle(db, t, world.library) then ResumeAt(now + LEASE) else Threw, false))
            && t in v.db.targets
            && (db.targets[t].state.executionOutcome.None? && v.db.targets[t].attempts != db.targets[t].attempts ==>
                  db.targets[t].platform == "YOUTUBE" && db.targets[t].state.Resumable())
    ensures !CanSettle(db, t, world.library) ==> !Settles(db, t, now, world)
    ensures CanSettle(db, t, world.library) && now > db.targets[t].updatedAt + LEASE ==> Settles(db, t, now, world)
  {
    hide FollowUps.FollowUp, RollUpAndStamp, Rollup.RollupSet, StatusesOf, Publish, CheckRow, NamesEmptyMedia;
    var row := RowOf(db, t);
    ThrowsExactlyOnEmptyId(row, world.library);
    if row.state.HasConfirmed() {
      ConfirmedRunPublishes(db, t, now, world);
    } else {
      PublishOutcome(db, row, now, world);
      AcquireTargets(db, row, now);
    }
  }

  function VisitAll(db: Database, t: string, visits: seq<(int, World)>): Database
    decreases |visits|
  {
    if visits == [] then db else VisitAll(Visit(db, t, visits[0].0, visits[0].1).db, t, visits[1..])
  }

  /** A dead lease whose content names the empty media id is never settled, however often it is visited. */
  lemma {:induction false} EmptyIdIsNeverSettled(db: Database, t: string, visits: seq<(int, World)>)
    requires Dead(db, t) && forall i | 0 <= i < |visits| :: !CanSettle(db, t, visits[i].1.library)
    ensures VisitAll(db, t, visits) == db && !Settled(db, VisitAll(db, t, visits), t)
    decreases |visits|
  {
    hide CheckRow, NamesEmptyMedia, Finalize;
    if visits != [] {
      ThrowsExactlyOnEmptyId(RowOf(db, t), visits[0].1.library);
      assert Visit(db, t, visits[0].0, visits[0].1).db == db;
      EmptyIdIsNeverSettled(db, t, visits[1..]);
    }
  }

  /** A leased row whose only segment refers to media by the empty string. */
  const STUCK := Database(
    map["t" := Target("p", "c", "g", "X", Publishing, 1, ProviderState(None, None, map[]), None, None, 0)],
    map["p" := Post("w", false, [Group("g", [Segment("", [MediaReference("", None, None, None)])])], PostPublishing, None)],
    map[], map[], map[], map[])

  /** There is such a dead lease, at any time and in any world whose media ids are not empty. */
  lemma StuckLease(now: int, world: World)
    requires "" !in world.library.media
    ensures Dead(STUCK, "t") && !CanSettle(STUCK, "t", world.library)
    ensures Visit(STUCK, "t", now, world) == Visited(STUCK, Threw, false)
  {
    var row := RowOf(STUCK, "t");
    var media := [MediaReference("", None, None, None)];
    assert FindGroup(row.content, "g") == Some(Group("g", [Segment("", media)]));
    assert SegmentsOf(row) == [Segment("", media)];
    assert IdsOf(media) == [""] && ThumbnailsOf(media) == [];
    assert PrimaryMediaIds(SegmentsOf(row)) == [""] && ThumbnailMediaIds(SegmentsOf(row)) == [];
    assert MediaIdsOf(row) == [""];
    ThrowsExactlyOnEmptyId(row, world.library);
  }

  /** A job is re-run no earlier than the time its last run returned. */
  predicate NotEarlier(reply: Reply, at: int) {
    reply.ResumeAt? ==> reply.time <= at
  }

  /** Whether one of three successive visits settles the lease. */
  predicate SettledByThird(db: Database, t: string, at: (int, int, int), worlds: (World, World, World))
    requires Dead(db, t)
  {
    var first := Visit(db, t, at.0, worlds.0);
    var second := Visit(first.db, t, at.1, worlds.1);
    Settled(db, first.db, t) || Settled(db, second.db, t) || Settled(db, Visit(second.db, t, at.2, worlds.2).db, t)
  }

  /**
   * A dead lease re-visited no earlier than each returned time is settled by the third visit exactly if one of the
   * visits settles it. So with the same media library throughout it is settled if and only if an outcome is saved or
   * the content does not name the empty media id. The second visit then settles it already, unless the first came at
   * the very instant of the row's last update and the second exactly fifteen minutes later.
   */
  lemma DeadLeasesAreBounded(db: Database, t: string, at: (int, int, int), worlds: (World, World, World))
    requires Honest(worlds.0) && Honest(worlds.1) && Honest(worlds.2) && Dead(db, t) && db.targets[t].updatedAt <= at.0
    requires var first := Visit(db, t, at.0, worlds.0);
             NotEarlier(first.reply, at.1) && NotEarlier(Visit(first.db, t, at.1, worlds.1).reply, at.2)
    ensures SettledByThird(db, t, at, worlds) <==>
              Settles(db, t, at.0, worlds.0) || Settles(db, t, at.1, worlds.1) || Settles(db, t, at.2, worlds.2)
    ensures worlds.0.library == worlds.1.library == worlds.2.library ==>
              (SettledByThird(db, t, at, worlds) <==> CanSettle(db, t, worlds.0.library))
    ensures CanSettle(db, t, worlds.0.library) && CanSettle(db, t, worlds.1.library) && CanSettle(db, t, worlds.2.library) ==>
              && SettledByThird(db, t, at, worlds)
              && (Settles(db, t, at.0, worlds.0) || Settles(db, t, at.1, worlds.1)
                  || (at.0 == db.targets[t].updatedAt && at.1 == db.targets[t].updatedAt + LEASE))
  {
    hide Visit, CheckRow, NamesEmptyMedia, CanSettle, Settles;
    var first := Visit(db, t, at.0, worlds.0);
    DeadLeaseVisit(db, t, at.0, worlds.0);
    DeadLeaseVisit(db, t, at.1, worlds.1);
    DeadLeaseVisit(db, t, at.2, worlds.2);
  }
}
