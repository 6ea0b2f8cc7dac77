/**
 * The publisher as the code runs it: statements over tables that are updated in place, with loops over
 * automations, media and segments. Each method is tied to the transaction it implements.
 */
module PublishStore {
  import opened Wrappers
  import opened PublishRecords
  import opened Rollup
  import opened FollowUps
  import opened Transactions
  import opened Preflight
  import opened Protocol
  import opened UninterruptedRun

  class Store {
    var targets: map<string, Target>
    var posts: map<string, Post>
    var automations: map<string, Automation>
    var index: map<(string, string), IndexRow>
    var jobs: map<string, Job>
    var retention: map<string, nat>
    var now: int

    /** The tables as one value. */
    function Db(): Database
      reads this
    {
      Database(targets, posts, automations, index, jobs, retention)
    }

    /** `SELECT status ... WHERE post_id`, in no particular order. */
    method SelectStatuses(postId: string) returns (statuses: seq<TargetStatus>)
      ensures (set s | s in statuses) == StatusesOf(Db(), postId)
    {
      statuses := [];
      var left := targets.Keys;
      while left != {}
        invariant left <= targets.Keys
        invariant forall s | s in statuses :: exists t | t in targets && targets[t].postId == postId :: targets[t].status == s
        invariant forall t | t in targets && t !in left && targets[t].postId == postId :: targets[t].status in statuses
        decreases left
      {
        var t :| t in left;
        left := left - {t};
        if targets[t].postId == postId {
          statuses := statuses + [targets[t].status];
        }
      }
    }

    method SetStatus(t: string, status: TargetStatus, error: Option<string>)
      requires t in targets
      modifies this`targets
      ensures targets == old(targets)[t := old(targets)[t].(status := status, error := error, updatedAt := now)]
    {
      targets := targets[t := targets[t].(status := status, error := error, updatedAt := now)];
    }

    /** `failBeforePublish` (lines 197-209). */
    method FailBeforePublish(t: string, postId: string, message: string)
      modifies this`targets, this`posts
      ensures Db() == FailBefore(old(Db()), t, postId, message, now)
    {
      if t in targets {
        SetStatus(t, Failed, Some(message));
      }
      var statuses := SelectStatuses(postId);
      RollupIsOfTheSet(statuses);
      if postId in posts {
        posts := posts[postId := posts[postId].(status := RollupList(statuses))];
      }
    }

    /** The acquire transaction (lines 345-381). */
    method AcquireLease(row: Row) returns (lease: Lease)
      modifies this`targets, this`posts
      ensures (Db(), lease) == Acquire(old(Db()), row, now)
    {
      if row.id !in targets
        || (targets[row.id].status != Pending
            && !(targets[row.id].status == Publishing && targets[row.id].updatedAt < now - LEASE)) {
        return NotAcquired;
      }
      var target := targets[row.id];
      if target.status == Publishing && row.state.executionOutcome.None?
        && !(row.platform == "YOUTUBE" && row.state.Resumable()) {
        FailBeforePublish(row.id, row.postId, UNCERTAIN);
        return NotAcquired;
      }
      targets := targets[row.id := target.(status := Publishing, attempts := target.attempts + 1, updatedAt := now)];
      if row.postId in posts {
        posts := posts[row.postId := posts[row.postId].(status := PostPublishing)];
      }
      lease := Token(target.attempts + 1);
    }

    /** `persistProviderState` (lines 401-411). */
    method PersistProviderState(t: string, token: nat, state: ProviderState) returns (ok: bool)
      modifies this`targets
      ensures (Db(), ok) == PersistProgress(old(Db()), t, token, state, now)
    {
      ok := t in targets && targets[t].status == Publishing && targets[t].attempts == token;
      if ok {
        targets := targets[t := targets[t].(state := state, updatedAt := now)];
      }
    }

    /** Lines 416-419. */
    method YieldLease(t: string, token: nat)
      modifies this`targets
      ensures Db() == Continue(old(Db()), t, token, now)
    {
      if t in targets && targets[t].status == Publishing && targets[t].attempts == token {
        targets := targets[t := targets[t].(status := Pending, updatedAt := now)];
      }
    }

    /** Lines 423-430. */
    method PersistOutcome(t: string, token: nat, outcome: Outcome) returns (ok: bool)
      modifies this`targets
      ensures (Db(), ok) == SaveOutcome(old(Db()), t, token, outcome, now)
    {
      ok := t in targets && targets[t].status == Publishing && targets[t].attempts == token;
      if ok {
        var state := targets[t].state.(executionOutcome := Some(outcome));
        targets := targets[t := targets[t].(state := state, updatedAt := now)];
      }
    }

    /** The automation loop (lines 78-135). */
    method ResolveAutomations(row: Row, mediaId: string)
      modifies this`automations, this`index, this`jobs
      ensures Db() == ResolveChosen(old(Db()), row, Selected(old(automations), row), mediaId, now)
    {
      ghost var start := Db();
      var pending := Selected(automations, row);
      ghost var done: set<string> := {};
      NothingChosen(start, row, mediaId, now);
      while pending != {}
        invariant pending !! done && pending + done == Selected(start.automations, row)
        invariant Db() == ResolveChosen(start, row, done, mediaId, now)
        decreases pending
      {
        var a :| a in pending;
        ResolveChosenStep(start, row, done, a, mediaId, now);
        ResolveAutomationRow(row, a, mediaId);
        pending, done := pending - {a}, done + {a};
      }
      assert done == Selected(start.automations, row);
    }

    /** One turn of that loop (lines 94-134). */
    method ResolveAutomationRow(row: Row, a: string, mediaId: string)
      requires a in automations
      modifies this`automations, this`index, this`jobs
      ensures Db() == ResolveOne(old(Db()), row, a, mediaId, now)
    {
      var automation := automations[a];
      automations := automations[a := automation.(triggers := ResolveTriggers(automation.triggers, row.postId, mediaId))];
      if (a, mediaId) in index {
        index := index[(a, mediaId) := index[(a, mediaId)].(enabled := automation.enabled, updatedAt := now)];
      } else {
        index := index[(a, mediaId) := IndexRow(automation.connectionId, automation.profileId, automation.enabled, now)];
      }
      Enqueue(RepairKey(automation.profileId, mediaId), RepairJob(row, automation.profileId, mediaId, now));
    }

    /** At most one job per idempotency key; a second one replaces the first. */
    method Enqueue(key: string, job: Job)
      modifies this`jobs
      ensures jobs == old(jobs)[key := job]
    {
      jobs := jobs[key := job];
    }

    /** The media loop (lines 136-155): each media id once, in order of first occurrence. */
    method ReclaimMediaLater(row: Row, mediaIds: seq<string>)
      modifies this`jobs
      ensures jobs == ReclaimMediaJobs(old(jobs), retention, row, mediaIds, now)
    {
      if mediaIds == [] || row.workspaceId !in retention {
        return;
      }
      var days := retention[row.workspaceId];
      ghost var start := jobs;
      var seen: set<string> := {};
      assert start == ReclaimsAfter(start, row, {}, days, now);
      for i := 0 to |mediaIds|
        invariant seen == set m | m in mediaIds[..i]
        invariant jobs == ReclaimsAfter(start, row, seen, days, now)
      {
        assert mediaIds[..i + 1] == mediaIds[..i] + [mediaIds[i]];
        if mediaIds[i] !in seen {
          ReclaimsStep(start, row, seen, mediaIds[i], days, now);
          Enqueue(ReclaimKey(mediaIds[i]), ReclaimJob(row, mediaIds[i], days, now));
          seen := seen + {mediaIds[i]};
        }
      }
      assert mediaIds[..|mediaIds|] == mediaIds;
    }

    /** Lines 160-166. */
    method RollUpPost(postId: string)
      modifies this`posts
      ensures Db() == RollUpAndStamp(old(Db()), postId, now)
    {
      var statuses := SelectStatuses(postId);
      RollupIsOfTheSet(statuses);
      if postId in posts {
        var status := RollupList(statuses);
        var post := posts[postId].(status := status);
        if (status == PostPublished || status == PartiallyFailed) && post.publishedAt.None? {
          post := post.(publishedAt := Some(now));
        }
        posts := posts[postId := post];
      }
    }

    /** `finalizeOutcome` (lines 56-169); false is the thrown error. */
    method FinalizeOutcome(row: Row, outcome: Outcome, mediaIds: seq<string>, token: nat) returns (ok: bool)
      requires !outcome.ContinueAt?
      modifies this`targets, this`posts, this`automations, this`index, this`jobs
      ensures (Db(), ok) == Finalize(old(Db()), row, outcome, mediaIds, token, now)
    {
      hide Selected, AutomationsAfter, IndexAfter, RepairsAfter, ProfilesOf, ReclaimMediaJobs, RollUpAndStamp;
      if row.id !in targets || targets[row.id].status == Published || targets[row.id].attempts != token {
        return false;
      }
      var target := targets[row.id];
      match outcome {
        case Confirmed(result) =>
          targets := targets[row.id :=
            target.(status := Published, platformPostId := Some(result.platformPostId), error := None, updatedAt := now)];
          ResolveAutomations(row, result.platformPostId);
          ReclaimMediaLater(row, mediaIds);
        case Rejected(message, retryable) =>
          SetStatus(row.id, if retryable then Pending else Failed, Some(message));
      }
      RollUpPost(row.postId);
      ok := true;
    }

    /** The runner's progress saves. */
    method RunnerSaves(t: string, token: nat, saves: seq<ProviderState>)
      modifies this`targets
      ensures Db() == SaveAll(old(Db()), t, token, saves, now)
    {
      ghost var start := Db();
      for i := 0 to |saves|
        invariant SaveAll(start, t, token, saves, now) == SaveAll(Db(), t, token, saves[i..], now)
      {
        assert saves[i..][1..] == saves[i + 1..];
        var _ := PersistProviderState(t, token, saves[i]);
      }
      assert saves[|saves|..] == [];
    }

    /** The checks of lines 245-344, with the segment loop run as a loop. */
    method RunChecks(row: Row, library: Library) returns (check: Check)
      ensures check == CheckRow(row, library)
    {
      if FindGroup(row.content, row.groupId).None? {
        return Refused("Target content group not found");
      }
      var segments := SegmentsOf(row);
      var byMedia := LookUp(library, row.workspaceId, MediaIdsOf(row));
      var refusal := MediaCheck(segments, byMedia);
      if refusal.Some? {
        return Refused(refusal.value);
      }
      var content := BuildSegments(segments, byMedia, 0);
      if content.None? {
        return Disappeared;
      }
      if row.platform !in library.supported {
        return Refused("Unsupported platform " + row.platform);
      }
      var invalid := ValidateSegments(library, row.platform, content.value);
      FirstErrorsUnique(library, row.platform, content.value, invalid, FirstInvalid(library, row.platform, content.value));
      if invalid.Some? {
        return Refused("Platform validation failed: " + invalid.value);
      }
      check := Passed(content.value);
    }

    /** `publishTarget` (lines 171-486) without another run in between. */
    method PublishTarget(t: string, world: World) returns (reply: Reply, called: bool)
      modifies this`targets, this`posts, this`automations, this`index, this`jobs
      ensures Visited(Db(), reply, called) == Visit(old(Db()), t, now, world)
    {
      called := false;
      if t !in targets || targets[t].postId !in posts || posts[targets[t].postId].deleted {
        return Null, false;
      }
      var row := RowOf(Db(), t);
      if row.status == Published || (row.status == Failed && !row.state.HasConfirmed()) {
        return Null, false;
      }
      if row.state.HasConfirmed() {
        var ok := FinalizeOutcome(row, row.state.executionOutcome.value, MediaIdsOf(row), row.attempts);
        return if ok then Null else Threw, false;
      }
      var check := RunChecks(row, world.library);
      match check {
        case Refused(message) =>
          FailBeforePublish(t, row.postId, message);
          return Null, false;
        case Disappeared =>
          return Threw, false;
        case Passed(_) =>
      }
      var lease := AcquireLease(row);
      if lease.NotAcquired? {
        return ResumeAt(now + LEASE), false;
      }
      if !world.resolvable {
        FailBeforePublish(t, row.postId, UNRESOLVED);
        return Null, false;
      }
      var outcome := row.state.executionOutcome;
      if outcome.None? {
        RunnerSaves(t, lease.token, world.saves);
        called := true;
        outcome := world.report;
        if outcome.None? {
          return Threw, true;
        }
      }
      reply := SettleOutcome(row, outcome.value, lease.token);
    }

    /** Lines 416-466. */
    method SettleOutcome(row: Row, outcome: Outcome, token: nat) returns (reply: Reply)
      modifies this`targets, this`posts, this`automations, this`index, this`jobs
      ensures Visited(Db(), reply, false) == Settle(old(Db()), row, outcome, token, now, false)
      ensures Visited(Db(), reply, true) == Settle(old(Db()), row, outcome, token, now, true)
    {
      if outcome.ContinueAt? {
        YieldLease(row.id, token);
        return ResumeAt(outcome.resumeAt);
      }
      if outcome.Confirmed? && row.state.executionOutcome.None? {
        var saved := PersistOutcome(row.id, token, outcome);
        if !saved {
          return Threw;
        }
      }
      var ok := FinalizeOutcome(row, outcome, MediaIdsOf(row), token);
      reply := if !ok || (outcome.Rejected? && outcome.retryable) then Threw else Null;
    }
  }
}
