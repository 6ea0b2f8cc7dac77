/**
 * What a confirmed publication does besides the target row: automation triggers waiting for the post,
 * the trigger index, and the keyed follow-up jobs (publish-target.ts:78-155).
 */
module FollowUps {
  import opened Wrappers
  import opened PublishRecords

  predicate Holds(trigger: Trigger, postId: string) {
    trigger.pendingPostIds.Some? && postId in trigger.pendingPostIds.value
  }

  /** jsonb `array - text`: every occurrence goes. */
  function Without(ids: seq<string>, id: string): (r: seq<string>)
    ensures id !in r
    ensures forall x :: x != id ==> multiset(r)[x] == multiset(ids)[x]
  {
    if ids == [] then []
    else
      assert ids == [ids[0]] + ids[1..];
      var rest := Without(ids[1..], id);
      if ids[0] == id then rest else [ids[0]] + rest
  }

  /** Removal works element by element, so the ids that stay keep their order. */
  lemma {:induction false} WithoutKeepsOrder(a: seq<string>, b: seq<string>, id: string)
    ensures Without(a + b, id) == Without(a, id) + Without(b, id)
  {
    hide Without;
    WithoutFirst(a, id);
    WithoutFirst(a + b, id);
    if a == [] {
      assert a + b == b;
    } else {
      WithoutKeepsOrder(a[1..], b, id);
      assert (a + b)[1..] == a[1..] + b;
    }
  }

  lemma WithoutFirst(ids: seq<string>, id: string)
    ensures Without(ids, id) ==
      if ids == [] then [] else (if ids[0] == id then [] else [ids[0]]) + Without(ids[1..], id)
  {
  }

  function ResolveTrigger(trigger: Trigger, postId: string, mediaId: string): Trigger {
    if Holds(trigger, postId) then
      trigger.(
        targetMode := "specific",
        targetPostIds := Some(trigger.targetPostIds.GetOr([]) + [mediaId]),
        pendingPostIds := Some(Without(trigger.pendingPostIds.GetOr([]), postId)))
    else trigger
  }

  function ResolveTriggers(triggers: seq<Trigger>, postId: string, mediaId: string): (r: seq<Trigger>)
    ensures |r| == |triggers|
    ensures forall i | 0 <= i < |r| :: r[i] == ResolveTrigger(triggers[i], postId, mediaId)
  {
    seq(|triggers|, i requires 0 <= i < |triggers| => ResolveTrigger(triggers[i], postId, mediaId))
  }

  /** The automations the confirmed post belongs to (the EXISTS query at lines 83-92). */
  predicate Waiting(automation: Automation, row: Row) {
    && automation.workspaceId == row.workspaceId
    && automation.connectionId == row.connectionId
    && exists trigger | trigger in automation.triggers :: Holds(trigger, row.postId)
  }

  function Selected(automations: map<string, Automation>, row: Row): set<string> {
    set a | a in automations && Waiting(automations[a], row)
  }

  function ResolveAutomation(automation: Automation, row: Row, mediaId: string): Automation {
    automation.(triggers := ResolveTriggers(automation.triggers, row.postId, mediaId))
  }

  function IndexInsert(index: map<(string, string), IndexRow>, a: string, automation: Automation, mediaId: string, now: int)
    : map<(string, string), IndexRow>
  {
    var key := (a, mediaId);
    // ON CONFLICT keeps the stored connection and profile.
    if key in index then index[key := index[key].(enabled := automation.enabled, updatedAt := now)]
    else index[key := IndexRow(automation.connectionId, automation.profileId, automation.enabled, now)]
  }

  function RepairKey(profileId: string, mediaId: string): string {
    "automation-repair:" + profileId + ":" + mediaId
  }

  function ReclaimKey(mediaId: string): string {
    "reclaim-media:" + mediaId
  }

  function RepairJob(row: Row, profileId: string, mediaId: string, now: int): Job {
    Job(row.workspaceId, RepairAutomation(profileId, mediaId), now)
  }

  function ReclaimJob(row: Row, mediaId: string, days: nat, now: int): Job {
    Job(row.workspaceId, ReclaimMedia(mediaId), now + days * DAY)
  }

  /** One automation's share of the loop at lines 93-135. */
  function ResolveOne(db: Database, row: Row, a: string, mediaId: string, now: int): Database
    requires a in db.automations
  {
    var automation := db.automations[a];
    db.(
      automations := db.automations[a := ResolveAutomation(automation, row, mediaId)],
      index := IndexInsert(db.index, a, automation, mediaId, now),
      jobs := db.jobs[RepairKey(automation.profileId, mediaId) := RepairJob(row, automation.profileId, mediaId, now)])
  }

  // The whole loop, independent of the order in which automations are visited.

  function AutomationsAfter(automations: map<string, Automation>, row: Row, chosen: set<string>, mediaId: string)
    : map<string, Automation>
    requires chosen <= automations.Keys
  {
    map a | a in automations ::
      if a in chosen then ResolveAutomation(automations[a], row, mediaId) else automations[a]
  }

  function IndexAfter(automations: map<string, Automation>, index: map<(string, string), IndexRow>, chosen: set<string>,
      mediaId: string, now: int): map<(string, string), IndexRow>
    requires chosen <= automations.Keys
  {
    index + map a | a in chosen :: (a, mediaId) := IndexInsert(index, a, automations[a], mediaId, now)[(a, mediaId)]
  }

  function ProfilesOf(automations: map<string, Automation>, chosen: set<string>): set<string>
    requires chosen <= automations.Keys
  {
    set a | a in chosen :: automations[a].profileId
  }

  lemma RepairKeyInjective(p: string, q: string, mediaId: string)
    requires RepairKey(p, mediaId) == RepairKey(q, mediaId)
    ensures p == q
  {
    var x, y := RepairKey(p, mediaId), RepairKey(q, mediaId);
    var start := |"automation-repair:"|;
    assert |p| == |q|;
    assert x[start..start + |p|] == p;
    assert y[start..start + |q|] == q;
  }

  lemma ReclaimKeyInjective(m: string, n: string)
    requires ReclaimKey(m) == ReclaimKey(n)
    ensures m == n
  {
    var start := |"reclaim-media:"|;
    assert ReclaimKey(m)[start..] == m;
    assert ReclaimKey(n)[start..] == n;
  }

  lemma KeysDisjoint(p: string, mediaId: string, m: string)
    ensures RepairKey(p, mediaId) != ReclaimKey(m)
  {
    assert RepairKey(p, mediaId)[0] == 'a';
    assert ReclaimKey(m)[0] == 'r';
  }

  function RepairsAfter(jobs: map<string, Job>, row: Row, profiles: set<string>, mediaId: string, now: int): map<string, Job> {
    assert forall p, q | RepairKey(p, mediaId) == RepairKey(q, mediaId) :: p == q by {
      forall p, q | RepairKey(p, mediaId) == RepairKey(q, mediaId) ensures p == q {
        RepairKeyInjective(p, q, mediaId);
      }
    }
    jobs + map p | p in profiles :: RepairKey(p, mediaId) := RepairJob(row, p, mediaId, now)
  }

  function ReclaimsAfter(jobs: map<string, Job>, row: Row, media: set<string>, days: nat, now: int): map<string, Job> {
    assert forall m, n | ReclaimKey(m) == ReclaimKey(n) :: m == n by {
      forall m, n | ReclaimKey(m) == ReclaimKey(n) ensures m == n {
        ReclaimKeyInjective(m, n);
      }
    }
    jobs + map m | m in media :: ReclaimKey(m) := ReclaimJob(row, m, days, now)
  }

  /** Lines 93-135 for a set of chosen automations. */
  function ResolveChosen(db: Database, row: Row, chosen: set<string>, mediaId: string, now: int): Database
    requires chosen <= db.automations.Keys
  {
    db.(
      automations := AutomationsAfter(db.automations, row, chosen, mediaId),
      index := IndexAfter(db.automations, db.index, chosen, mediaId, now),
      jobs := RepairsAfter(db.jobs, row, ProfilesOf(db.automations, chosen), mediaId, now))
  }

  /** Lines 136-155. */
  function ReclaimMediaJobs(jobs: map<string, Job>, retention: map<string, nat>, row: Row, mediaIds: seq<string>, now: int)
    : map<string, Job>
  {
    if mediaIds != [] && row.workspaceId in retention then
      ReclaimsAfter(jobs, row, (set m | m in mediaIds), retention[row.workspaceId], now)
    else jobs
  }

  /** Lines 78-155: everything a confirmed publication does besides the target row. */
  function FollowUp(db: Database, row: Row, mediaId: string, mediaIds: seq<string>, now: int): (r: Database)
    ensures r.targets == db.targets && r.posts == db.posts && r.retention == db.retention
  {
    var resolved := ResolveChosen(db, row, Selected(db.automations, row), mediaId, now);
    resolved.(jobs := ReclaimMediaJobs(resolved.jobs, db.retention, row, mediaIds, now))
  }

  lemma AutomationsStep(db: Database, row: Row, chosen: set<string>, a: string, mediaId: string)
    requires chosen <= db.automations.Keys && a in db.automations && a !in chosen
    ensures AutomationsAfter(db.automations, row, chosen, mediaId)[a := ResolveAutomation(db.automations[a], row, mediaId)]
         == AutomationsAfter(db.automations, row, chosen + {a}, mediaId)
  {
  }

  /**
   * What the pass leaves under one index key: one row per chosen automation is written, and a row that existed keeps its
   * connection and profile.
   */
  lemma IndexAt(db: Database, chosen: set<string>, mediaId: string, now: int, k: (string, string))
    requires chosen <= db.automations.Keys
    ensures var after := IndexAfter(db.automations, db.index, chosen, mediaId, now);
            && (k in after <==> k in db.index || (k.0 in chosen && k.1 == mediaId))
            && (k in after ==>
                  if k.0 in chosen && k.1 == mediaId
                  then after[k] == IndexInsert(db.index, k.0, db.automations[k.0], mediaId, now)[k]
                  else after[k] == db.index[k])
  {
  }

  lemma IndexStep(db: Database, chosen: set<string>, a: string, mediaId: string, now: int)
    requires chosen <= db.automations.Keys && a in db.automations && a !in chosen
    ensures IndexInsert(IndexAfter(db.automations, db.index, chosen, mediaId, now), a, db.automations[a], mediaId, now)
         == IndexAfter(db.automations, db.index, chosen + {a}, mediaId, now)
  {
    var one := IndexInsert(IndexAfter(db.automations, db.index, chosen, mediaId, now), a, db.automations[a], mediaId, now);
    var all := IndexAfter(db.automations, db.index, chosen + {a}, mediaId, now);
    hide IndexAfter;
    forall k ensures k in one <==> k in all
             ensures k in one ==> one[k] == all[k] {
      IndexAt(db, chosen, mediaId, now, k);
      IndexAt(db, chosen + {a}, mediaId, now, k);
      IndexAt(db, chosen, mediaId, now, (a, mediaId));
    }
  }

  /** Resolving the chosen automations one at a time, in any order, is resolving them all. */
  lemma ResolveChosenStep(db: Database, row: Row, chosen: set<string>, a: string, mediaId: string, now: int)
    requires chosen <= db.automations.Keys && a in db.automations && a !in chosen
    ensures a in ResolveChosen(db, row, chosen, mediaId, now).automations
    ensures ResolveOne(ResolveChosen(db, row, chosen, mediaId, now), row, a, mediaId, now)
         == ResolveChosen(db, row, chosen + {a}, mediaId, now)
  {
    var p := db.automations[a].profileId;
    AutomationsStep(db, row, chosen, a, mediaId);
    IndexStep(db, chosen, a, mediaId, now);
    assert ProfilesOf(db.automations, chosen + {a}) == ProfilesOf(db.automations, chosen) + {p};
    RepairsStep(db.jobs, row, ProfilesOf(db.automations, chosen), p, mediaId, now);
    assert ResolveChosen(db, row, chosen, mediaId, now).automations[a] == db.automations[a];
  }

  /** What repairing leaves under one job key. */
  lemma RepairsAt(jobs: map<string, Job>, row: Row, profiles: set<string>, p: string, mediaId: string, now: int, k: string)
    ensures var after := RepairsAfter(jobs, row, profiles, mediaId, now);
            var more := RepairsAfter(jobs, row, profiles + {p}, mediaId, now);
            if k == RepairKey(p, mediaId) then k in more && more[k] == RepairJob(row, p, mediaId, now)
            else (k in more <==> k in after) && (k in more ==> more[k] == after[k])
  {
    forall q | RepairKey(q, mediaId) == RepairKey(p, mediaId) ensures q == p {
      RepairKeyInjective(q, p, mediaId);
    }
  }

  lemma RepairsStep(jobs: map<string, Job>, row: Row, profiles: set<string>, p: string, mediaId: string, now: int)
    ensures RepairsAfter(jobs, row, profiles, mediaId, now)[RepairKey(p, mediaId) := RepairJob(row, p, mediaId, now)]
         == RepairsAfter(jobs, row, profiles + {p}, mediaId, now)
  {
    hide RepairsAfter;
    forall k
      ensures k in RepairsAfter(jobs, row, profiles + {p}, mediaId, now) <==>
                k in RepairsAfter(jobs, row, profiles, mediaId, now) || k == RepairKey(p, mediaId)
    {
      RepairsAt(jobs, row, profiles, p, mediaId, now, k);
    }
    forall k | k in RepairsAfter(jobs, row, profiles + {p}, mediaId, now) && k != RepairKey(p, mediaId)
      ensures RepairsAfter(jobs, row, profiles + {p}, mediaId, now)[k] == RepairsAfter(jobs, row, profiles, mediaId, now)[k]
    {
      RepairsAt(jobs, row, profiles, p, mediaId, now, k);
    }
    RepairsAt(jobs, row, profiles, p, mediaId, now, RepairKey(p, mediaId));
  }

  lemma ReclaimsStep(jobs: map<string, Job>, row: Row, media: set<string>, m: string, days: nat, now: int)
    ensures ReclaimsAfter(jobs, row, media, days, now)[ReclaimKey(m) := ReclaimJob(row, m, days, now)]
         == ReclaimsAfter(jobs, row, media + {m}, days, now)
  {
    forall n | ReclaimKey(n) == ReclaimKey(m) ensures n == m {
      ReclaimKeyInjective(n, m);
    }
  }

  /**
   * One pass, trigger by trigger: a trigger that lists the post as pending, of an automation of the post's workspace
   * and connection, no longer lists it, gains the platform id at the end and keeps every other id; every other trigger,
   * and every other automation, is unchanged.
   */
  lemma PassResolvesTriggers(db: Database, row: Row, mediaId: string, mediaIds: seq<string>, now: int, a: string, i: nat)
    requires a in db.automations && i < |db.automations[a].triggers|
    ensures var automation, after := db.automations[a], FollowUp(db, row, mediaId, mediaIds, now).automations;
            var was := automation.triggers[i];
            && a in after && |after[a].triggers| == |automation.triggers|
            && after[a].(triggers := []) == automation.(triggers := [])
            && var got := after[a].triggers[i];
               if automation.workspaceId == row.workspaceId && automation.connectionId == row.connectionId
                 && was.pendingPostIds.Some? && row.postId in was.pendingPostIds.value then
                 && got.targetPostIds == Some((if was.targetPostIds.Some? then was.targetPostIds.value else []) + [mediaId])
                 && got.pendingPostIds.Some?
                 && row.postId !in got.pendingPostIds.value
                 && got.pendingPostIds.value == Without(was.pendingPostIds.value, row.postId)
                 && (forall x :: x != row.postId ==>
                       multiset(got.pendingPostIds.value)[x] == multiset(was.pendingPostIds.value)[x])
                 && got.targetMode == "specific" && got.rest == was.rest
               else got == was
  {
    hide FollowUp, ResolveTrigger;
    PassVisits(db, row, mediaId, mediaIds, now, a, i);
    TriggerResolved(db.automations[a].triggers[i], row.postId, mediaId);
  }

  /** The pass visits the trigger exactly if its automation is of the post's workspace and connection. */
  lemma PassVisits(db: Database, row: Row, mediaId: string, mediaIds: seq<string>, now: int, a: string, i: nat)
    requires a in db.automations && i < |db.automations[a].triggers|
    ensures var automation, after := db.automations[a], FollowUp(db, row, mediaId, mediaIds, now).automations;
            && a in after && |after[a].triggers| == |automation.triggers|
            && after[a].(triggers := []) == automation.(triggers := [])
            && after[a].triggers[i] ==
                 if automation.workspaceId == row.workspaceId && automation.connectionId == row.connectionId
                 then ResolveTrigger(automation.triggers[i], row.postId, mediaId) else automation.triggers[i]
  {
    hide Without, IndexAfter, RepairsAfter, ReclaimsAfter;
    var automation := db.automations[a];
    if Holds(automation.triggers[i], row.postId) {
      assert automation.triggers[i] in automation.triggers;
    }
  }

  /** One trigger: resolved if it lists the post as pending, and otherwise left alone. */
  lemma TriggerResolved(was: Trigger, postId: string, mediaId: string)
    ensures var got := ResolveTrigger(was, postId, mediaId);
            if was.pendingPostIds.Some? && postId in was.pendingPostIds.value then
              && got.targetPostIds == Some((if was.targetPostIds.Some? then was.targetPostIds.value else []) + [mediaId])
              && got.pendingPostIds.Some?
              && postId !in got.pendingPostIds.value
              && got.pendingPostIds.value == Without(was.pendingPostIds.value, postId)
              && (forall x :: x != postId ==>
                    multiset(got.pendingPostIds.value)[x] == multiset(was.pendingPostIds.value)[x])
              && got.targetMode == "specific" && got.rest == was.rest
            else got == was
  {
  }

  /** Whom a pass selects, read off the tables. */
  lemma SelectedExactly(automations: map<string, Automation>, row: Row, a: string)
    ensures a in Selected(automations, row) <==>
      && a in automations
      && automations[a].workspaceId == row.workspaceId && automations[a].connectionId == row.connectionId
      && exists i | 0 <= i < |automations[a].triggers| ::
           var pending := automations[a].triggers[i].pendingPostIds;
           pending.Some? && row.postId in pending.value
  {
    if a in automations && Waiting(automations[a], row) {
      var trigger :| trigger in automations[a].triggers && Holds(trigger, row.postId);
      var i :| 0 <= i < |automations[a].triggers| && automations[a].triggers[i] == trigger;
    }
    if a in automations {
      forall i | 0 <= i < |automations[a].triggers| && Holds(automations[a].triggers[i], row.postId)
        ensures exists trigger | trigger in automations[a].triggers :: Holds(trigger, row.postId)
      {
        assert automations[a].triggers[i] in automations[a].triggers;
      }
    }
  }

  /**
   * The index after a pass: one row per selected automation and this media id, new from the automation or old with its
   * `enabled` flag refreshed; every other row is unchanged and none is dropped.
   */
  lemma PassIndexes(db: Database, row: Row, mediaId: string, mediaIds: seq<string>, now: int, k: (string, string))
    ensures var after := FollowUp(db, row, mediaId, mediaIds, now).index;
            if k.0 in Selected(db.automations, row) && k.1 == mediaId then
              var automation := db.automations[k.0];
              && k in after
              && after[k].enabled == automation.enabled && after[k].updatedAt == now
              && after[k].connectionId == (if k in db.index then db.index[k].connectionId else automation.connectionId)
              && after[k].profileId == (if k in db.index then db.index[k].profileId else automation.profileId)
            else (k in after <==> k in db.index) && (k in after ==> after[k] == db.index[k])
  {
    hide IndexAfter;
    IndexAt(db, Selected(db.automations, row), mediaId, now, k);
  }

  /** A pass leaves a repair job, due at once, for the profile of every selected automation. */
  lemma PassEnqueuesRepair(db: Database, row: Row, mediaId: string, mediaIds: seq<string>, now: int, a: string)
    requires a in Selected(db.automations, row)
    ensures var jobs := FollowUp(db, row, mediaId, mediaIds, now).jobs;
            var p := db.automations[a].profileId;
            var key := "automation-repair:" + p + ":" + mediaId;
            key in jobs && jobs[key] == Job(row.workspaceId, RepairAutomation(p, mediaId), now)
  {
    var p := db.automations[a].profileId;
    var profiles := ProfilesOf(db.automations, Selected(db.automations, row));
    assert p in profiles;
    RepairEnqueued(db.jobs, row, profiles, p, mediaId, now);
    forall m ensures RepairKey(p, mediaId) != ReclaimKey(m) { KeysDisjoint(p, mediaId, m); }
  }

  /** On a plan with limited retention a pass leaves a reclaim job, due that many days later, for every media id. */
  lemma PassReclaims(db: Database, row: Row, mediaId: string, mediaIds: seq<string>, now: int, m: string)
    requires m in mediaIds && row.workspaceId in db.retention
    ensures var jobs := FollowUp(db, row, mediaId, mediaIds, now).jobs;
            var key := "reclaim-media:" + m;
            key in jobs
            && jobs[key] == Job(row.workspaceId, ReclaimMedia(m), now + db.retention[row.workspaceId] * 86_400_000)
  {
    var jobs := ResolveChosen(db, row, Selected(db.automations, row), mediaId, now).jobs;
    var media := set x | x in mediaIds;
    assert m in media;
    ReclaimsMove(jobs, row, media, db.retention[row.workspaceId], now, row, now);
    hide RepairsAfter, ReclaimsAfter;
  }

  /** A pass drops no job, and touches no job but those repairs and, on a plan with limited retention, those reclaims. */
  lemma PassTouchesNoOtherJob(db: Database, row: Row, mediaId: string, mediaIds: seq<string>, now: int, k: string)
    requires forall a | a in Selected(db.automations, row) ::
      k != "automation-repair:" + db.automations[a].profileId + ":" + mediaId
    requires row.workspaceId in db.retention ==> forall m | m in mediaIds :: k != "reclaim-media:" + m
    ensures var jobs := FollowUp(db, row, mediaId, mediaIds, now).jobs;
            (k in jobs <==> k in db.jobs) && (k in jobs ==> jobs[k] == db.jobs[k])
  {
    forall p | p in ProfilesOf(db.automations, Selected(db.automations, row)) ensures k != RepairKey(p, mediaId) {
      var a :| a in Selected(db.automations, row) && db.automations[a].profileId == p;
    }
    if row.workspaceId in db.retention {
      forall m | m in mediaIds ensures k != ReclaimKey(m) {
        assert ReclaimKey(m) == "reclaim-media:" + m;
      }
    }
    hide Selected;
  }

  lemma RepairEnqueued(jobs: map<string, Job>, row: Row, profiles: set<string>, p: string, mediaId: string, now: int)
    requires p in profiles
    ensures var after := RepairsAfter(jobs, row, profiles, mediaId, now);
            RepairKey(p, mediaId) in after && after[RepairKey(p, mediaId)] == RepairJob(row, p, mediaId, now)
  {
    forall q | RepairKey(q, mediaId) == RepairKey(p, mediaId) ensures q == p {
      RepairKeyInjective(q, p, mediaId);
    }
  }

  /** After a pass nothing is selected for the same post again, whichever snapshot asks. */
  lemma NothingLeftSelected(db: Database, row: Row, mediaId: string, mediaIds: seq<string>, now: int, again: Row)
    requires again.postId == row.postId && again.workspaceId == row.workspaceId && again.connectionId == row.connectionId
    ensures Selected(FollowUp(db, row, mediaId, mediaIds, now).automations, again) == {}
  {
  }

  /**
   * A second pass for the same publication, at any later time and from any snapshot of the same post:
   * no trigger and no index row changes, no job is added or removed, and no job changes its payload.
   * Only the run time of the media reclaim jobs may move.
   */
  lemma SecondPassAddsNothing(db: Database, row: Row, mediaId: string, mediaIds: seq<string>, now: int, again: Row, later: int)
    requires again.postId == row.postId && again.workspaceId == row.workspaceId && again.connectionId == row.connectionId
    ensures var once := FollowUp(db, row, mediaId, mediaIds, now);
            var twice := FollowUp(once, again, mediaId, mediaIds, later);
            && twice.automations == once.automations
            && twice.index == once.index
            && twice.jobs.Keys == once.jobs.Keys
            && (forall k | k in once.jobs ::
                  && twice.jobs[k].payload == once.jobs[k].payload
                  && twice.jobs[k].workspaceId == once.jobs[k].workspaceId)
            && (forall k | k in once.jobs && twice.jobs[k] != once.jobs[k] :: once.jobs[k].payload.ReclaimMedia?)
  {
    var once := FollowUp(db, row, mediaId, mediaIds, now);
    NothingLeftSelected(db, row, mediaId, mediaIds, now, again);
    NothingChosen(once, again, mediaId, later);
    if mediaIds != [] && row.workspaceId in db.retention {
      var jobs := ResolveChosen(db, row, Selected(db.automations, row), mediaId, now).jobs;
      ReclaimsTwice(jobs, row, (set m | m in mediaIds), db.retention[row.workspaceId], now, again, later);
    }
  }

  /**
   * A second pass is no change at all exactly when no reclaim job is owed or no time has passed; otherwise the
   * reclaim jobs are put off.
   */
  lemma SecondPassIsSilentIff(db: Database, row: Row, mediaId: string, mediaIds: seq<string>, now: int, again: Row, later: int)
    requires again.postId == row.postId && again.workspaceId == row.workspaceId && again.connectionId == row.connectionId
    ensures var once := FollowUp(db, row, mediaId, mediaIds, now);
            (FollowUp(once, again, mediaId, mediaIds, later) == once <==>
              mediaIds == [] || row.workspaceId !in db.retention || later == now)
    ensures row.workspaceId in db.retention ==>
      forall m | m in mediaIds ::
        var once := FollowUp(db, row, mediaId, mediaIds, now);
        var twice := FollowUp(once, again, mediaId, mediaIds, later);
        && ReclaimKey(m) in once.jobs && ReclaimKey(m) in twice.jobs
        && twice.jobs[ReclaimKey(m)].runAt == once.jobs[ReclaimKey(m)].runAt + later - now
  {
    hide AutomationsAfter, IndexAfter, RepairsAfter, ReclaimsAfter;
    var once := FollowUp(db, row, mediaId, mediaIds, now);
    NothingLeftSelected(db, row, mediaId, mediaIds, now, again);
    NothingChosen(once, again, mediaId, later);
    if mediaIds != [] && row.workspaceId in db.retention {
      var jobs := ResolveChosen(db, row, Selected(db.automations, row), mediaId, now).jobs;
      var media := set m | m in mediaIds;
      ReclaimsMove(jobs, row, media, db.retention[row.workspaceId], now, again, later);
      assert mediaIds[0] in media;
    }
  }

  lemma ReclaimsMove(jobs: map<string, Job>, row: Row, media: set<string>, days: nat, now: int, again: Row, later: int)
    requires again.workspaceId == row.workspaceId
    ensures var once := ReclaimsAfter(jobs, row, media, days, now);
            var twice := ReclaimsAfter(once, again, media, days, later);
            && (forall m | m in media ::
                  && ReclaimKey(m) in once && once[ReclaimKey(m)] == ReclaimJob(row, m, days, now)
                  && ReclaimKey(m) in twice && twice[ReclaimKey(m)] == ReclaimJob(again, m, days, later))
            && (later == now ==> twice == once)
  {
    forall m, n | ReclaimKey(m) == ReclaimKey(n) ensures m == n { ReclaimKeyInjective(m, n); }
  }

  lemma NothingChosen(db: Database, row: Row, mediaId: string, now: int)
    ensures ResolveChosen(db, row, {}, mediaId, now) == db
  {
    assert AutomationsAfter(db.automations, row, {}, mediaId) == db.automations;
    NoRowNoJob(db, row, mediaId, now);
    hide AutomationsAfter, IndexAfter, RepairsAfter;
  }

  lemma NoRowNoJob(db: Database, row: Row, mediaId: string, now: int)
    ensures IndexAfter(db.automations, db.index, {}, mediaId, now) == db.index
    ensures ProfilesOf(db.automations, {}) == {}
    ensures RepairsAfter(db.jobs, row, {}, mediaId, now) == db.jobs
  {
  }

  lemma ReclaimsTwice(jobs: map<string, Job>, row: Row, media: set<string>, days: nat, now: int, again: Row, later: int)
    requires again.workspaceId == row.workspaceId
    ensures var once := ReclaimsAfter(jobs, row, media, days, now);
            var twice := ReclaimsAfter(once, again, media, days, later);
            && twice.Keys == once.Keys
            && (forall k | k in once ::
                  && twice[k].payload == once[k].payload && twice[k].workspaceId == once[k].workspaceId
                  && (twice[k] != once[k] ==> once[k].payload.ReclaimMedia?))
  {
  }
}
