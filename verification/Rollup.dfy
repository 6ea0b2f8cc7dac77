/** The stored post status as a function of its target statuses (packages/core/src/domain/post-behavior.ts). */
module Rollup {
  import opened PublishRecords

  /** The source's function on the status list, without a review override. */
  function RollupList(statuses: seq<TargetStatus>): PostStatus {
    if exists s | s in statuses :: s == Publishing then PostPublishing
    else if |statuses| > 0 && forall s | s in statuses :: s == Published then PostPublished
    else
      var published := exists s | s in statuses :: s == Published;
      var failed := exists s | s in statuses :: s == Failed;
      if published && failed then PartiallyFailed
      else if |statuses| > 0 && forall s | s in statuses :: s == Failed then PostFailed
      else Scheduled
  }

  /** The same roll-up read from the set of statuses that occur. */
  function RollupSet(statuses: set<TargetStatus>): PostStatus {
    if Publishing in statuses then PostPublishing
    else if statuses == {Published} then PostPublished
    else if Published in statuses && Failed in statuses then PartiallyFailed
    else if statuses == {Failed} then PostFailed
    else Scheduled
  }

  /** The roll-up reads no order and no multiplicity, so an unordered SELECT determines it. */
  lemma RollupIsOfTheSet(statuses: seq<TargetStatus>)
    ensures RollupList(statuses) == RollupSet(set s | s in statuses)
  {
    var all := set s | s in statuses;
    if |statuses| > 0 {
      assert statuses[0] in all;
    }
    assert Publishing in all <==> exists s | s in statuses :: s == Publishing;
    assert Published in all <==> exists s | s in statuses :: s == Published;
    assert Failed in all <==> exists s | s in statuses :: s == Failed;
    if |statuses| > 0 && forall s | s in statuses :: s == Published {
      assert all == {Published};
    }
    if all == {Published} {
      forall s | s in statuses ensures s == Published { assert s in all; }
      assert Published in all && |statuses| > 0;
    }
    if |statuses| > 0 && forall s | s in statuses :: s == Failed {
      assert all == {Failed};
    }
    if all == {Failed} {
      forall s | s in statuses ensures s == Failed { assert s in all; }
      assert Failed in all && |statuses| > 0;
    }
  }

  /** Once every target is published or failed, the three terminal statuses say exactly which. */
  lemma RollupOfSettled(statuses: set<TargetStatus>)
    requires statuses != {} && statuses <= {Published, Failed}
    ensures RollupSet(statuses) == PostPublished <==> Failed !in statuses
    ensures RollupSet(statuses) == PostFailed <==> Published !in statuses
    ensures RollupSet(statuses) == PartiallyFailed <==> Published in statuses && Failed in statuses
  {
  }

  /** When each of the five stored statuses arises; no other ever does. */
  lemma RollupCases(statuses: set<TargetStatus>)
    ensures RollupSet(statuses) == PostPublishing <==> Publishing in statuses
    ensures RollupSet(statuses) == PostPublished <==> statuses == {Published}
    ensures RollupSet(statuses) == PostFailed <==> statuses == {Failed}
    ensures RollupSet(statuses) == PartiallyFailed <==>
      Publishing !in statuses && Published in statuses && Failed in statuses
    ensures RollupSet(statuses) == Scheduled <==>
      statuses == {} || (Pending in statuses && Publishing !in statuses && !(Published in statuses && Failed in statuses))
  {
    forall s | s in statuses ensures s in {Pending, Publishing, Published, Failed} {
      match s case Pending => case Publishing => case Published => case Failed =>
    }
    if Publishing !in statuses && Pending !in statuses {
      if Failed !in statuses && Published in statuses {
        assert statuses == {Published};
      } else if Published !in statuses && Failed in statuses {
        assert statuses == {Failed};
      } else if Published !in statuses {
        assert statuses == {};
      }
    }
  }
}
