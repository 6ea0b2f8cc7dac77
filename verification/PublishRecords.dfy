/** Rows and values read and written by the durable publisher (packages/worker/publish-target.ts). */
module PublishRecords {
  import opened Wrappers

  datatype TargetStatus = Pending | Publishing | Published | Failed

  datatype PostStatus =
    | Draft
    | PendingReview
    | ChangesRequested
    | Scheduled
    | PostPublishing
    | PostPublished
    | PartiallyFailed
    | PostFailed

  datatype PostResult = PostResult(platformPostId: string, platformPostUrl: string)

  /** What a provider runner reports (packages/connections/src/runtime.ts:11-14). */
  datatype Outcome =
    | Confirmed(result: PostResult)
    | ContinueAt(resumeAt: int)
    | Rejected(message: string, retryable: bool)

  /** The `provider_state` column: the two keys the publisher itself looks at, and the provider's own keys. */
  datatype ProviderState = ProviderState(
    executionOutcome: Option<Outcome>,
    youtubeUploadUrl: Option<string>,
    rest: map<string, string>)
  {
    /** JavaScript truthiness of `youtubeUploadUrl`. */
    predicate Resumable() {
      youtubeUploadUrl.Some? && youtubeUploadUrl.value != ""
    }

    predicate HasConfirmed() {
      executionOutcome.Some? && executionOutcome.value.Confirmed?
    }
  }

  datatype MediaReference = MediaReference(
    id: string,
    altText: Option<string>,
    thumbnailMediaId: Option<string>,
    thumbnailTimestamp: Option<int>)

  datatype Segment = Segment(text: string, media: seq<MediaReference>)

  datatype Group = Group(id: string, segments: seq<Segment>)

  /** A `post_targets` row. `platform` is joined from the target's connection, which no step writes. */
  datatype Target = Target(
    postId: string,
    connectionId: string,
    groupId: string,
    platform: string,
    status: TargetStatus,
    attempts: nat,
    state: ProviderState,
    platformPostId: Option<string>,
    error: Option<string>,
    updatedAt: int)

  datatype Post = Post(
    workspaceId: string,
    deleted: bool,
    content: seq<Group>,
    status: PostStatus,
    publishedAt: Option<int>)

  datatype Trigger = Trigger(
    targetMode: string,
    targetPostIds: Option<seq<string>>,
    pendingPostIds: Option<seq<string>>,
    rest: string)

  /** An `automations` row; `profileId` is joined from its connection. */
  datatype Automation = Automation(
    workspaceId: string,
    connectionId: string,
    profileId: string,
    enabled: bool,
    triggers: seq<Trigger>)

  datatype IndexRow = IndexRow(connectionId: string, profileId: string, enabled: bool, updatedAt: int)

  datatype JobPayload =
    | RepairAutomation(profileId: string, mediaId: string)
    | ReclaimMedia(reclaimed: string)

  datatype Job = Job(workspaceId: string, payload: JobPayload, runAt: int)

  /**
   * Everything a publish transaction can see. `retention` holds the media retention days of the
   * workspaces whose plan limits retention; a missing workspace keeps its media forever.
   */
  datatype Database = Database(
    targets: map<string, Target>,
    posts: map<string, Post>,
    automations: map<string, Automation>,
    index: map<(string, string), IndexRow>,
    jobs: map<string, Job>,
    retention: map<string, nat>)

  /** The unlocked snapshot a run starts from (publish-target.ts:183-189). */
  datatype Row = Row(
    id: string,
    postId: string,
    connectionId: string,
    groupId: string,
    platform: string,
    workspaceId: string,
    content: seq<Group>,
    status: TargetStatus,
    attempts: nat,
    state: ProviderState)

  /** The lease and staleness window, in milliseconds. */
  const LEASE: int := 15 * 60 * 1000

  const DAY: int := 86_400_000

  predicate Readable(db: Database, t: string) {
    t in db.targets && db.targets[t].postId in db.posts && !db.posts[db.targets[t].postId].deleted
  }

  function RowOf(db: Database, t: string): Row
    requires Readable(db, t)
  {
    var target := db.targets[t];
    var post := db.posts[target.postId];
    Row(t, target.postId, target.connectionId, target.groupId, target.platform,
        post.workspaceId, post.content, target.status, target.attempts, target.state)
  }
}
