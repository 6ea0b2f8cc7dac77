/**
 * In-place resolution of private media URLs (packages/worker/resolve-media-urls.ts): one task per private field,
 * completed in any order, each writing one field of one shared media object.
 */
module MediaUrls {
  import opened Wrappers

  const PRIVATE_HOST := "media.delulu.social"

  datatype Url = Url(host: string, pathname: string)

  /**
   * The foreign parts: `parse` is the URL parser, with None for its exception; `sign` is the presigned URL of an
   * object key at the time of the call, with None for a signing task that rejects.
   */
  datatype Signer = Signer(parse: string -> Option<Url>, sign: string -> Option<string>)

  /** `isPrivateUrl` (lines 7-16). */
  predicate IsPrivateUrl(signer: Signer, url: Option<string>) {
    && url.Some? && url.value != ""
    && signer.parse(url.value).Some? && signer.parse(url.value).value.host == PRIVATE_HOST
  }

  /** `keyFromUrl` (lines 19-26). */
  function KeyFromUrl(signer: Signer, url: string): Option<string> {
    match signer.parse(url)
    case None => None
    case Some(parsed) =>
      if parsed.pathname != [] && parsed.pathname[0] == '/' then Some(parsed.pathname[1..]) else Some(parsed.pathname)
  }

  /** The key a field is signed under: a stored key wins even when it is empty (lines 68-69, 80-82, 94-98). */
  function KeyFor(signer: Signer, storedKey: Option<string>, url: Option<string>): Option<string> {
    if storedKey.Some? then storedKey
    else if url.Some? && url.value != "" then KeyFromUrl(signer, url.value)
    else None
  }

  /** A field needs signing when it is private and has a non-empty key. */
  predicate Needs(signer: Signer, storedKey: Option<string>, url: Option<string>) {
    && IsPrivateUrl(signer, url)
    && KeyFor(signer, storedKey, url).Some? && KeyFor(signer, storedKey, url).value != ""
  }

  /** The pure map the in-place loop refines, on one field. */
  function Resolved(signer: Signer, storedKey: Option<string>, url: Option<string>): Option<string> {
    if Needs(signer, storedKey, url) && signer.sign(KeyFor(signer, storedKey, url).value).Some?
    then signer.sign(KeyFor(signer, storedKey, url).value) else url
  }

  datatype Field = UrlField | BucketField | ThumbnailField

  /** One media reference of the publish input, shared by every task that writes it. */
  class Media {
    var url: Option<string>
    var bucketUrl: Option<string>
    var thumbnailBucketUrl: Option<string>
    const bucketKey: Option<string>
    const thumbnailBucketKey: Option<string>

    constructor (url: Option<string>, bucketUrl: Option<string>, bucketKey: Option<string>,
        thumbnailBucketUrl: Option<string>, thumbnailBucketKey: Option<string>)
      ensures this.url == url && this.bucketUrl == bucketUrl && this.thumbnailBucketUrl == thumbnailBucketUrl
      ensures this.bucketKey == bucketKey && this.thumbnailBucketKey == thumbnailBucketKey
    {
      this.url, this.bucketUrl, this.thumbnailBucketUrl := url, bucketUrl, thumbnailBucketUrl;
      this.bucketKey, this.thumbnailBucketKey := bucketKey, thumbnailBucketKey;
    }

    function Get(field: Field): Option<string>
      reads this
    {
      match field
      case UrlField => url
      case BucketField => bucketUrl
      case ThumbnailField => thumbnailBucketUrl
    }

    function StoredKey(field: Field): Option<string> {
      if field.ThumbnailField? then thumbnailBucketKey else bucketKey
    }

    method Set(field: Field, value: string)
      modifies this
      ensures Get(field) == Some(value)
      ensures forall other | other != field :: Get(other) == old(Get(other))
    {
      match field {
        case UrlField => url := Some(value);
        case BucketField => bucketUrl := Some(value);
        case ThumbnailField => thumbnailBucketUrl := Some(value);
      }
    }
  }

  datatype Task = Task(media: Media, field: Field, key: string)

  /** Every media object of every segment; one object may occur more than once. */
  function AllMedia(content: seq<seq<Media>>): set<Media> {
    set i, j | 0 <= i < |content| && 0 <= j < |content[i]| :: content[i][j]
  }

  /** The task of one field, if it needs one: its key is captured from the current value. */
  function FieldTasks(signer: Signer, m: Media, f: Field): seq<Task>
    reads m
  {
    if Needs(signer, m.StoredKey(f), m.Get(f)) then [Task(m, f, KeyFor(signer, m.StoredKey(f), m.Get(f)).value)] else []
  }

  /** The task list is right for the current field values: the tasks the fields need, and no other. */
  ghost predicate Planned(signer: Signer, media: set<Media>, tasks: seq<Task>)
    reads media
  {
    && (forall t | t in tasks :: t.media in media && t in FieldTasks(signer, t.media, t.field))
    && (forall m, f, t | m in media && t in FieldTasks(signer, m, f) :: t in tasks)
  }

  /** One of the three blocks of the loop (lines 67-106). */
  method PlanField(signer: Signer, m: Media, field: Field) returns (tasks: seq<Task>)
    ensures tasks == FieldTasks(signer, m, field)
  {
    tasks := [];
    var key := KeyFor(signer, m.StoredKey(field), m.Get(field));
    if IsPrivateUrl(signer, m.Get(field)) && key.Some? && key.value != "" {
      tasks := [Task(m, field, key.value)];
    }
  }

  /** The synchronous loops (lines 65-108): every key is captured before any task completes. */
  method Plan(signer: Signer, content: seq<seq<Media>>) returns (tasks: seq<Task>)
    ensures Planned(signer, AllMedia(content), tasks)
    ensures forall m, key | m in AllMedia(content) ::
      && (Task(m, UrlField, key) in tasks <==> SignedUnder(signer, m.bucketKey, m.url, key))
      && (Task(m, BucketField, key) in tasks <==> SignedUnder(signer, m.bucketKey, m.bucketUrl, key))
      && (Task(m, ThumbnailField, key) in tasks <==> SignedUnder(signer, m.thumbnailBucketKey, m.thumbnailBucketUrl, key))
  {
    tasks := [];
    ghost var done: set<Media> := {};
    for i := 0 to |content|
      invariant Planned(signer, done, tasks)
      invariant done == AllMedia(content[..i])
    {
      ghost var outer := done;
      for j := 0 to |content[i]|
        invariant Planned(signer, done, tasks)
        invariant done == outer + set k | 0 <= k < j :: content[i][k]
      {
        var m := content[i][j];
        var a := PlanField(signer, m, UrlField);
        var b := PlanField(signer, m, BucketField);
        var c := PlanField(signer, m, ThumbnailField);
        PlanGrows(signer, done, tasks, m);
        tasks := tasks + a + b + c;
        done := done + {m};
      }
      AllMediaGrows(content, i);
    }
    assert content[..|content|] == content;
    PlannedTasks(signer, AllMedia(content), tasks);
  }

  lemma PlannedTasks(signer: Signer, media: set<Media>, tasks: seq<Task>)
    requires Planned(signer, media, tasks)
    ensures forall m, key | m in media ::
      && (Task(m, UrlField, key) in tasks <==> SignedUnder(signer, m.bucketKey, m.url, key))
      && (Task(m, BucketField, key) in tasks <==> SignedUnder(signer, m.bucketKey, m.bucketUrl, key))
      && (Task(m, ThumbnailField, key) in tasks <==> SignedUnder(signer, m.thumbnailBucketKey, m.thumbnailBucketUrl, key))
  {
    hide SignedUnder;
    forall m, key | m in media
      ensures Task(m, UrlField, key) in tasks <==> SignedUnder(signer, m.bucketKey, m.url, key)
      ensures Task(m, BucketField, key) in tasks <==> SignedUnder(signer, m.bucketKey, m.bucketUrl, key)
      ensures Task(m, ThumbnailField, key) in tasks <==> SignedUnder(signer, m.thumbnailBucketKey, m.thumbnailBucketUrl, key)
    {
      PlannedTask(signer, media, tasks, m, UrlField, key);
      PlannedTask(signer, media, tasks, m, BucketField, key);
      PlannedTask(signer, media, tasks, m, ThumbnailField, key);
    }
  }

  lemma PlannedTask(signer: Signer, media: set<Media>, tasks: seq<Task>, m: Media, f: Field, key: string)
    requires Planned(signer, media, tasks) && m in media
    ensures Task(m, f, key) in tasks <==> SignedUnder(signer, m.StoredKey(f), m.Get(f), key)
  {
    SignedUnderIs(signer, m.StoredKey(f), m.Get(f), key);
    hide SignedUnder, Needs, KeyFor;
    assert Task(m, f, key) in FieldTasks(signer, m, f) <==>
      Needs(signer, m.StoredKey(f), m.Get(f)) && KeyFor(signer, m.StoredKey(f), m.Get(f)) == Some(key);
  }

  lemma AllMediaGrows(content: seq<seq<Media>>, i: nat)
    requires i < |content|
    ensures AllMedia(content[..i + 1]) == AllMedia(content[..i]) + set k | 0 <= k < |content[i]| :: content[i][k]
  {
  }

  lemma PlanGrows(signer: Signer, media: set<Media>, tasks: seq<Task>, m: Media)
    requires Planned(signer, media, tasks)
    ensures Planned(signer, media + {m}, tasks + FieldTasks(signer, m, UrlField)
      + FieldTasks(signer, m, BucketField) + FieldTasks(signer, m, ThumbnailField))
  {
  }

  /** The three fields of a media object as a value. */
  type Fields = (Option<string>, Option<string>, Option<string>)

  function Pick(fields: Fields, field: Field): Option<string> {
    match field
    case UrlField => fields.0
    case BucketField => fields.1
    case ThumbnailField => fields.2
  }

  function Snapshot(media: set<Media>): (was: map<Media, Fields>)
    reads media
    ensures was.Keys == media
    ensures forall m, f | m in media :: Pick(was[m], f) == m.Get(f)
  {
    map m: Media | m in media :: (m.url, m.bucketUrl, m.thumbnailBucketUrl)
  }

  predicate Wants(signer: Signer, was: map<Media, Fields>, m: Media, f: Field) {
    m in was && Needs(signer, m.StoredKey(f), Pick(was[m], f))
  }

  function WantedKey(signer: Signer, was: map<Media, Fields>, m: Media, f: Field): string
    requires Wants(signer, was, m, f)
  {
    KeyFor(signer, m.StoredKey(f), Pick(was[m], f)).value
  }

  /** The task list is right for the captured field values `was`. */
  ghost predicate PlannedFor(signer: Signer, was: map<Media, Fields>, tasks: seq<Task>) {
    && (forall t | t in tasks :: Wants(signer, was, t.media, t.field) && t.key == WantedKey(signer, was, t.media, t.field))
    && (forall m, f | m in was && Wants(signer, was, m, f) :: Task(m, f, WantedKey(signer, was, m, f)) in tasks)
  }

  lemma PlannedForSnapshot(signer: Signer, media: set<Media>, tasks: seq<Task>)
    requires Planned(signer, media, tasks)
    ensures PlannedFor(signer, Snapshot(media), tasks)
  {
    var was := Snapshot(media);
    forall t | t in tasks
      ensures Wants(signer, was, t.media, t.field) && t.key == WantedKey(signer, was, t.media, t.field)
    {
      assert Pick(was[t.media], t.field) == t.media.Get(t.field);
    }
    forall m, f | m in was && Wants(signer, was, m, f) ensures Task(m, f, WantedKey(signer, was, m, f)) in tasks {
      assert Pick(was[m], f) == m.Get(f);
      assert Task(m, f, WantedKey(signer, was, m, f)) in FieldTasks(signer, m, f);
    }
  }

  /** What a field may hold while tasks complete: its captured or its resolved value. */
  ghost predicate OldOrResolved(signer: Signer, was: map<Media, Fields>, m: Media, f: Field)
    requires m in was
    reads m
  {
    m.Get(f) == Pick(was[m], f) || m.Get(f) == Resolved(signer, m.StoredKey(f), Pick(was[m], f))
  }

  predicate Done(signer: Signer, t: Task)
    reads t.media
  {
    signer.sign(t.key).Some? && t.media.Get(t.field) == signer.sign(t.key)
  }

  /** One task's `.then` callback: it writes its own field and disturbs no completed task. */
  method Complete(signer: Signer, task: Task, ghost tasks: seq<Task>, ghost was: map<Media, Fields>)
    requires PlannedFor(signer, was, tasks) && task in tasks && signer.sign(task.key).Some?
    requires forall m, f | m in was :: OldOrResolved(signer, was, m, f)
    modifies task.media
    ensures forall m, f | m in was :: OldOrResolved(signer, was, m, f)
    ensures Done(signer, task)
    ensures forall t | t in tasks && old(Done(signer, t)) :: Done(signer, t)
  {
    task.media.Set(task.field, signer.sign(task.key).value);
    assert Wants(signer, was, task.media, task.field);
    forall m, f | m in was ensures OldOrResolved(signer, was, m, f) {
      assert old(OldOrResolved(signer, was, m, f));
      if m == task.media && f == task.field {
        assert m.Get(f) == Resolved(signer, m.StoredKey(f), Pick(was[m], f));
      } else {
        assert m.Get(f) == old(m.Get(f));
      }
    }
  }

  /** `Promise.all`: the tasks settle in an arbitrary order, and the first rejection rejects the whole. */
  method Settle(signer: Signer, tasks: seq<Task>, ghost was: map<Media, Fields>) returns (fulfilled: bool)
    requires PlannedFor(signer, was, tasks)
    requires forall m, f | m in was :: m.Get(f) == Pick(was[m], f)
    modifies was.Keys
    ensures forall m, f | m in was :: OldOrResolved(signer, was, m, f)
    ensures fulfilled ==> forall m, f | m in was :: m.Get(f) == Resolved(signer, m.StoredKey(f), Pick(was[m], f))
    ensures fulfilled <==> forall m, f | m in was && Wants(signer, was, m, f) :: signer.sign(WantedKey(signer, was, m, f)).Some?
  {
    fulfilled := true;
    var pending := tasks;
    while pending != [] && fulfilled
      invariant forall t | t in pending :: t in tasks
      invariant forall m, f | m in was :: OldOrResolved(signer, was, m, f)
      invariant fulfilled ==> forall t | t in tasks && t !in pending :: Done(signer, t)
      invariant !fulfilled ==> exists t | t in tasks :: signer.sign(t.key).None?
      decreases |pending|, fulfilled
    {
      var i :| 0 <= i < |pending|;
      var task := pending[i];
      ghost var held := pending;
      pending := pending[..i] + pending[i + 1..];
      assert forall t | t in held :: t == task || t in pending;
      match signer.sign(task.key) {
        case None => fulfilled := false;
        case Some(_) =>
          Complete(signer, task, tasks, was);
      }
    }
    if fulfilled {
      forall m, f | m in was
        ensures m.Get(f) == Resolved(signer, m.StoredKey(f), Pick(was[m], f))
        ensures Wants(signer, was, m, f) ==> signer.sign(WantedKey(signer, was, m, f)).Some?
      {
        if Wants(signer, was, m, f) {
          assert Done(signer, Task(m, f, WantedKey(signer, was, m, f)));
        } else {
          assert OldOrResolved(signer, was, m, f);
        }
      }
    }
  }

  // What a field must end as, said of its own URL and stored key.

  /** A URL on the private host is signed under the stored key or, without one, under its path less one leading slash. */
  predicate SignedUnder(signer: Signer, stored: Option<string>, url: Option<string>, key: string) {
    && url.Some? && url.value != "" && signer.parse(url.value).Some?
    && signer.parse(url.value).value.host == "media.delulu.social"
    && key != ""
    && var path := signer.parse(url.value).value.pathname;
       stored == Some(key) || (stored.None? && (path == "/" + key || (path == key && key[0] != '/')))
  }

  ghost predicate FieldSigns(signer: Signer, stored: Option<string>, url: Option<string>) {
    forall key | SignedUnder(signer, stored, url, key) :: signer.sign(key).Some?
  }

  /** The field holds the presigned URL of its key, and what it held before if there is no such key. */
  ghost predicate FieldEnds(signer: Signer, stored: Option<string>, was: Option<string>, ends: Option<string>) {
    && (forall key | SignedUnder(signer, stored, was, key) :: ends == signer.sign(key))
    && ((forall key :: !SignedUnder(signer, stored, was, key)) ==> ends == was)
  }

  lemma SignedUnderIs(signer: Signer, stored: Option<string>, url: Option<string>, key: string)
    ensures SignedUnder(signer, stored, url, key) <==> Needs(signer, stored, url) && KeyFor(signer, stored, url) == Some(key)
  {
    if IsPrivateUrl(signer, url) {
      var path := signer.parse(url.value).value.pathname;
      if path != [] && path[0] == '/' {
        assert path == "/" + path[1..];
      }
      assert path == "/" + key ==> path[1..] == key;
    }
  }

  lemma FieldSignsIff(signer: Signer, stored: Option<string>, url: Option<string>)
    ensures FieldSigns(signer, stored, url) <==>
      (Needs(signer, stored, url) ==> signer.sign(KeyFor(signer, stored, url).value).Some?)
  {
    forall key ensures SignedUnder(signer, stored, url, key) <==>
      Needs(signer, stored, url) && KeyFor(signer, stored, url) == Some(key)
    {
      SignedUnderIs(signer, stored, url, key);
    }
    hide SignedUnder;
    if Needs(signer, stored, url) {
      assert SignedUnder(signer, stored, url, KeyFor(signer, stored, url).value);
    }
  }

  lemma ResolvedEnds(signer: Signer, stored: Option<string>, was: Option<string>)
    requires FieldSigns(signer, stored, was)
    ensures FieldEnds(signer, stored, was, Resolved(signer, stored, was))
  {
    forall key ensures SignedUnder(signer, stored, was, key) <==>
      Needs(signer, stored, was) && KeyFor(signer, stored, was) == Some(key)
    {
      SignedUnderIs(signer, stored, was, key);
    }
    FieldSignsIff(signer, stored, was);
    hide SignedUnder;
    if Needs(signer, stored, was) {
      assert SignedUnder(signer, stored, was, KeyFor(signer, stored, was).value);
    }
  }

  /** A field is either as it was or as it must end. */
  ghost predicate FieldEither(signer: Signer, stored: Option<string>, was: Option<string>, ends: Option<string>) {
    ends == was || (FieldSigns(signer, stored, was) && FieldEnds(signer, stored, was, ends))
  }

  lemma OldOrResolvedIsEither(signer: Signer, stored: Option<string>, was: Option<string>, ends: Option<string>)
    requires ends == was || ends == Resolved(signer, stored, was)
    ensures FieldEither(signer, stored, was, ends)
  {
    FieldSignsIff(signer, stored, was);
    if ends != was {
      ResolvedEnds(signer, stored, was);
    }
  }

  /** The three fields of a media object, each with the key stored for it. */
  ghost predicate MediaSigns(signer: Signer, m: Media, was: Fields) {
    && FieldSigns(signer, m.bucketKey, was.0) && FieldSigns(signer, m.bucketKey, was.1)
    && FieldSigns(signer, m.thumbnailBucketKey, was.2)
  }

  lemma MediaSignsIff(signer: Signer, m: Media, was: map<Media, Fields>)
    requires m in was
    ensures MediaSigns(signer, m, was[m]) <==>
      forall f | Wants(signer, was, m, f) :: signer.sign(WantedKey(signer, was, m, f)).Some?
  {
    FieldSignsIff(signer, m.bucketKey, was[m].0);
    FieldSignsIff(signer, m.bucketKey, was[m].1);
    FieldSignsIff(signer, m.thumbnailBucketKey, was[m].2);
    hide FieldSigns, Needs, KeyFor;
    assert Pick(was[m], UrlField) == was[m].0 && m.StoredKey(UrlField) == m.bucketKey;
    assert Pick(was[m], BucketField) == was[m].1 && m.StoredKey(BucketField) == m.bucketKey;
    assert Pick(was[m], ThumbnailField) == was[m].2 && m.StoredKey(ThumbnailField) == m.thumbnailBucketKey;
    assert (Wants(signer, was, m, UrlField) <==> Needs(signer, m.bucketKey, was[m].0))
        && (Wants(signer, was, m, BucketField) <==> Needs(signer, m.bucketKey, was[m].1))
        && (Wants(signer, was, m, ThumbnailField) <==> Needs(signer, m.thumbnailBucketKey, was[m].2));
    if MediaSigns(signer, m, was[m]) {
      forall f | Wants(signer, was, m, f) ensures signer.sign(WantedKey(signer, was, m, f)).Some? {
        match f case UrlField => case BucketField => case ThumbnailField =>
      }
    }
  }

  lemma MediaEnds(signer: Signer, m: Media, was: map<Media, Fields>)
    requires m in was && MediaSigns(signer, m, was[m])
    requires forall f :: m.Get(f) == Resolved(signer, m.StoredKey(f), Pick(was[m], f))
    ensures FieldEnds(signer, m.bucketKey, was[m].0, m.url)
    ensures FieldEnds(signer, m.bucketKey, was[m].1, m.bucketUrl)
    ensures FieldEnds(signer, m.thumbnailBucketKey, was[m].2, m.thumbnailBucketUrl)
  {
    ResolvedEnds(signer, m.bucketKey, was[m].0);
    ResolvedEnds(signer, m.bucketKey, was[m].1);
    ResolvedEnds(signer, m.thumbnailBucketKey, was[m].2);
    hide FieldEnds, FieldSigns, Resolved;
    assert m.Get(UrlField) == m.url && m.Get(BucketField) == m.bucketUrl && m.Get(ThumbnailField) == m.thumbnailBucketUrl;
  }

  lemma MediaEither(signer: Signer, m: Media, was: map<Media, Fields>)
    requires m in was && forall f :: OldOrResolved(signer, was, m, f)
    ensures FieldEither(signer, m.bucketKey, was[m].0, m.url)
    ensures FieldEither(signer, m.bucketKey, was[m].1, m.bucketUrl)
    ensures FieldEither(signer, m.thumbnailBucketKey, was[m].2, m.thumbnailBucketUrl)
  {
    hide FieldEither, Resolved;
    assert OldOrResolved(signer, was, m, UrlField) && OldOrResolved(signer, was, m, BucketField)
        && OldOrResolved(signer, was, m, ThumbnailField);
    OldOrResolvedIsEither(signer, m.bucketKey, was[m].0, m.url);
    OldOrResolvedIsEither(signer, m.bucketKey, was[m].1, m.bucketUrl);
    OldOrResolvedIsEither(signer, m.thumbnailBucketKey, was[m].2, m.thumbnailBucketUrl);
  }

  /**
   * `resolveMediaUrls` (lines 33-111), with the tasks completing in an arbitrary order. It fulfils exactly when
   * credentials are missing or every key it needs signs. Without credentials nothing changes. With them, when it
   * fulfils, every field ends as it must; when it rejects, every field is as it was or as it must end.
   */
  method ResolveMediaUrls(signer: Signer, configured: bool, content: seq<seq<Media>>) returns (fulfilled: bool)
    modifies AllMedia(content)
    ensures !configured ==> fulfilled && forall i, j | 0 <= i < |content| && 0 <= j < |content[i]| ::
      var m := content[i][j];
      m.url == old(m.url) && m.bucketUrl == old(m.bucketUrl) && m.thumbnailBucketUrl == old(m.thumbnailBucketUrl)
    ensures configured && fulfilled ==> forall i, j | 0 <= i < |content| && 0 <= j < |content[i]| ::
      var m := content[i][j];
      && FieldEnds(signer, m.bucketKey, old(m.url), m.url)
      && FieldEnds(signer, m.bucketKey, old(m.bucketUrl), m.bucketUrl)
      && FieldEnds(signer, m.thumbnailBucketKey, old(m.thumbnailBucketUrl), m.thumbnailBucketUrl)
    ensures configured ==> (fulfilled <==> forall i, j | 0 <= i < |content| && 0 <= j < |content[i]| ::
      var m := content[i][j];
      && FieldSigns(signer, m.bucketKey, old(m.url)) && FieldSigns(signer, m.bucketKey, old(m.bucketUrl))
      && FieldSigns(signer, m.thumbnailBucketKey, old(m.thumbnailBucketUrl)))
    ensures forall i, j | 0 <= i < |content| && 0 <= j < |content[i]| ::
      var m := content[i][j];
      && FieldEither(signer, m.bucketKey, old(m.url), m.url)
      && FieldEither(signer, m.bucketKey, old(m.bucketUrl), m.bucketUrl)
      && FieldEither(signer, m.thumbnailBucketKey, old(m.thumbnailBucketUrl), m.thumbnailBucketUrl)
  {
    hide FieldEnds, FieldSigns, Resolved, Needs, KeyFor;
    if !configured {
      return true;
    }
    var tasks := Plan(signer, content);
    ghost var was := Snapshot(AllMedia(content));
    PlannedForSnapshot(signer, AllMedia(content), tasks);
    assert forall m | m in was :: was[m] == (old(m.url), old(m.bucketUrl), old(m.thumbnailBucketUrl));
    fulfilled := Settle(signer, tasks, was);
    forall m | m in was
      ensures MediaSigns(signer, m, was[m]) <==>
        forall f | Wants(signer, was, m, f) :: signer.sign(WantedKey(signer, was, m, f)).Some?
      ensures FieldEither(signer, m.bucketKey, was[m].0, m.url)
      ensures FieldEither(signer, m.bucketKey, was[m].1, m.bucketUrl)
      ensures FieldEither(signer, m.thumbnailBucketKey, was[m].2, m.thumbnailBucketUrl)
    {
      MediaSignsIff(signer, m, was);
      MediaEither(signer, m, was);
    }
    if fulfilled {
      forall m | m in was
        ensures FieldEnds(signer, m.bucketKey, was[m].0, m.url)
        ensures FieldEnds(signer, m.bucketKey, was[m].1, m.bucketUrl)
        ensures FieldEnds(signer, m.thumbnailBucketKey, was[m].2, m.thumbnailBucketUrl)
      {
        MediaEnds(signer, m, was);
      }
    } else {
      ghost var m :| m in was && !MediaSigns(signer, m, was[m]);
      ghost var i, j :| 0 <= i < |content| && 0 <= j < |content[i]| && content[i][j] == m;
    }
  }
}
