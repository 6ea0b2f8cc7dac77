/**
 * The checks a run makes before it asks for a lease, and the publish input it builds from the checked media
 * (publish-target.ts:231-344).
 */
module Preflight {
  import opened Wrappers
  import opened PublishRecords

  /** A `media` row. `thumbnails` is None when the column does not hold an array. */
  datatype MediaRow = MediaRow(
    workspaceId: string,
    url: string,
    bucketKey: string,
    mediaType: string,
    altText: Option<string>,
    thumbnails: Option<seq<string>>,
    durationSeconds: Option<real>,
    ready: bool,
    deleted: bool)

  datatype MediaInput = MediaInput(
    url: string,
    bucketUrl: string,
    bucketKey: string,
    mediaType: string,
    altText: Option<string>,
    thumbnailBucketUrl: Option<string>,
    thumbnailBucketKey: Option<string>,
    thumbnailTimestamp: Option<int>,
    durationSeconds: Option<real>)

  datatype SegmentInput = SegmentInput(order: nat, text: string, media: seq<MediaInput>)

  /** The media table, the supported platforms and their rules; `rules` yields the joined errors of a segment. */
  datatype Library = Library(
    media: map<string, MediaRow>,
    supported: set<string>,
    rules: (string, string, seq<MediaInput>) -> Option<string>)

  datatype Check = Passed(content: seq<SegmentInput>) | Refused(message: string) | Disappeared

  function UpperChar(c: char): char {
    if 'a' <= c <= 'z' then (c as int - 32) as char else c
  }

  function Upper(s: string): (r: string)
    ensures |r| == |s|
  {
    seq(|s|, i requires 0 <= i < |s| => UpperChar(s[i]))
  }

  /** The `i`-th group is the first one with this id. */
  predicate IsFirstGroup(content: seq<Group>, id: string, i: int) {
    0 <= i < |content| && content[i].id == id && forall k | 0 <= k < i :: content[k].id != id
  }

  function FindGroup(content: seq<Group>, id: string): (r: Option<Group>)
    ensures r.None? <==> forall i | 0 <= i < |content| :: content[i].id != id
    ensures forall i | IsFirstGroup(content, id, i) :: r == Some(content[i])
    ensures r.Some? ==> exists i :: IsFirstGroup(content, id, i)
  {
    if content == [] then None
    else if content[0].id == id then
      assert IsFirstGroup(content, id, 0);
      Some(content[0])
    else
      FirstGroupShifts(content, id);
      assert forall i | IsFirstGroup(content[1..], id, i) :: IsFirstGroup(content, id, i + 1);
      FindGroup(content[1..], id)
  }

  lemma FirstGroupShifts(content: seq<Group>, id: string)
    requires content != [] && content[0].id != id
    ensures forall i :: IsFirstGroup(content, id, i) <==> IsFirstGroup(content[1..], id, i - 1)
  {
    forall i ensures IsFirstGroup(content, id, i) <==> IsFirstGroup(content[1..], id, i - 1) {
      if IsFirstGroup(content[1..], id, i - 1) {
        assert content[i] == content[1..][i - 1];
        forall k | 0 <= k < i ensures content[k].id != id {
          if k > 0 { assert content[k] == content[1..][k - 1]; }
        }
      }
      if IsFirstGroup(content, id, i) {
        assert content[1..][i - 1] == content[i];
        assert forall k | 0 <= k < i - 1 :: content[1..][k] == content[k + 1];
      }
    }
  }

  function IdsOf(media: seq<MediaReference>): seq<string> {
    if media == [] then [] else [media[0].id] + IdsOf(media[1..])
  }

  /** A thumbnail reference counts only when it is present and not the empty string. */
  predicate HasThumbnail(item: MediaReference) {
    item.thumbnailMediaId.Some? && item.thumbnailMediaId.value != ""
  }

  function ThumbnailsOf(media: seq<MediaReference>): seq<string> {
    if media == [] then []
    else (if HasThumbnail(media[0]) then [media[0].thumbnailMediaId.value] else []) + ThumbnailsOf(media[1..])
  }

  function PrimaryMediaIds(segments: seq<Segment>): seq<string> {
    if segments == [] then [] else IdsOf(segments[0].media) + PrimaryMediaIds(segments[1..])
  }

  function ThumbnailMediaIds(segments: seq<Segment>): seq<string> {
    if segments == [] then [] else ThumbnailsOf(segments[0].media) + ThumbnailMediaIds(segments[1..])
  }

  function SegmentsOf(row: Row): seq<Segment> {
    match FindGroup(row.content, row.groupId)
    case Some(group) => group.segments
    case None => []
  }

  function MediaIdsOf(row: Row): seq<string> {
    PrimaryMediaIds(SegmentsOf(row)) + ThumbnailMediaIds(SegmentsOf(row))
  }

  /** The rows the media query returns, by id (lines 249-259). */
  function LookUp(library: Library, workspaceId: string, ids: seq<string>): map<string, MediaRow> {
    map id | id in ids && id in library.media
      && library.media[id].workspaceId == workspaceId && library.media[id].ready && !library.media[id].deleted
      :: library.media[id]
  }

  function FirstMissing(ids: seq<string>, byMedia: map<string, MediaRow>): (r: Option<string>)
    ensures r.None? <==> forall id | id in ids :: id in byMedia
    ensures r.Some? ==> r.value in ids && r.value !in byMedia
  {
    if ids == [] then None
    else if ids[0] !in byMedia then Some(ids[0])
    else FirstMissing(ids[1..], byMedia)
  }

  predicate IsImage(id: string, byMedia: map<string, MediaRow>) {
    id in byMedia && Upper(byMedia[id].mediaType) == "IMAGE"
  }

  function FirstNonImage(ids: seq<string>, byMedia: map<string, MediaRow>): (r: Option<string>)
    ensures r.None? <==> forall id | id in ids :: IsImage(id, byMedia)
    ensures r.Some? ==> r.value in ids && !IsImage(r.value, byMedia)
  {
    if ids == [] then None
    else if !IsImage(ids[0], byMedia) then Some(ids[0])
    else FirstNonImage(ids[1..], byMedia)
  }

  function FirstStored(thumbnails: Option<seq<string>>): Option<string> {
    if thumbnails.Some? && thumbnails.value != [] && thumbnails.value[0] != "" then Some(thumbnails.value[0]) else None
  }

  /** Lines 282-314 for a reference whose media row is known. */
  function BuildMedia(reference: MediaReference, media: MediaRow, byMedia: map<string, MediaRow>): MediaInput {
    var thumbnail :=
      if HasThumbnail(reference) && reference.thumbnailMediaId.value in byMedia
      then Some(byMedia[reference.thumbnailMediaId.value]) else None;
    MediaInput(
      media.url,
      media.url,
      media.bucketKey,
      Upper(media.mediaType),
      if reference.altText.Some? then reference.altText else media.altText,
      if thumbnail.Some? then Some(thumbnail.value.url) else FirstStored(media.thumbnails),
      if thumbnail.Some? then Some(thumbnail.value.bucketKey) else None,
      reference.thumbnailTimestamp,
      media.durationSeconds)
  }

  /** None is the thrown "Validated media disappeared". */
  function BuildAll(media: seq<MediaReference>, byMedia: map<string, MediaRow>): (r: Option<seq<MediaInput>>)
    ensures r.Some? <==> forall item | item in media :: item.id in byMedia
    ensures r.Some? ==>
      (|r.value| == |media|
       && forall j | 0 <= j < |media| :: r.value[j] == BuildMedia(media[j], byMedia[media[j].id], byMedia))
  {
    if media == [] then Some([])
    else if media[0].id !in byMedia then None
    else
      match BuildAll(media[1..], byMedia)
      case None => None
      case Some(rest) => Some([BuildMedia(media[0], byMedia[media[0].id], byMedia)] + rest)
  }

  function BuildSegments(segments: seq<Segment>, byMedia: map<string, MediaRow>, from: nat): (r: Option<seq<SegmentInput>>)
    ensures r.Some? <==> forall s | s in segments :: BuildAll(s.media, byMedia).Some?
    ensures r.Some? ==>
      (|r.value| == |segments|
       && forall i | 0 <= i < |segments| ::
            && BuildAll(segments[i].media, byMedia).Some?
            && r.value[i] == SegmentInput(from + i, segments[i].text, BuildAll(segments[i].media, byMedia).value))
    decreases |segments|
  {
    if segments == [] then Some([])
    else
      match BuildAll(segments[0].media, byMedia)
      case None => None
      case Some(media) =>
        match BuildSegments(segments[1..], byMedia, from + 1)
        case None => None
        case Some(rest) => Some([SegmentInput(from, segments[0].text, media)] + rest)
  }

  /** The errors the platform's rules find in a segment, joined; None is a valid segment. */
  function ErrorsOf(library: Library, platform: string, segment: SegmentInput): Option<string> {
    library.rules(platform, segment.text, segment.media)
  }

  /** The first segment with errors decides, and only if there is none is the content valid. */
  predicate FirstErrors(library: Library, platform: string, content: seq<SegmentInput>, invalid: Option<string>) {
    && (invalid.None? <==> forall i | 0 <= i < |content| :: ErrorsOf(library, platform, content[i]).None?)
    && (invalid.Some? ==>
          exists i | 0 <= i < |content| :: ErrorsOf(library, platform, content[i]) == invalid
            && forall k | 0 <= k < i :: ErrorsOf(library, platform, content[k]).None?)
  }

  function FirstInvalid(library: Library, platform: string, content: seq<SegmentInput>): (r: Option<string>)
    ensures FirstErrors(library, platform, content, r)
  {
    if content == [] then None
    else
      match ErrorsOf(library, platform, content[0])
      case Some(errors) => Some(errors)
      case None =>
        assert forall i | 0 <= i < |content| - 1 :: content[1..][i] == content[i + 1];
        FirstInvalid(library, platform, content[1..])
  }

  /** The media and thumbnail checks (lines 260-273). A missing id that is the empty string is not reported. */
  function MediaCheck(segments: seq<Segment>, byMedia: map<string, MediaRow>): Option<string> {
    var missing := FirstMissing(PrimaryMediaIds(segments) + ThumbnailMediaIds(segments), byMedia);
    if missing.Some? && missing.value != "" then Some("Media " + missing.value + " is not ready")
    else
      var invalid := FirstNonImage(ThumbnailMediaIds(segments), byMedia);
      if invalid.Some? && invalid.value != "" then Some("Thumbnail " + invalid.value + " must be an image") else None
  }

  /** Lines 245-344. */
  function CheckRow(row: Row, library: Library): Check {
    if FindGroup(row.content, row.groupId).None? then Refused("Target content group not found")
    else
      var segments := SegmentsOf(row);
      var byMedia := LookUp(library, row.workspaceId, MediaIdsOf(row));
      match MediaCheck(segments, byMedia)
      case Some(message) => Refused(message)
      case None =>
        match BuildSegments(segments, byMedia, 0)
        case None => Disappeared
        case Some(content) =>
          if row.platform !in library.supported then Refused("Unsupported platform " + row.platform)
          else
            match FirstInvalid(library, row.platform, content)
            case Some(errors) => Refused("Platform validation failed: " + errors)
            case None => Passed(content)
  }

  /** The validation loop (lines 333-344). */
  method ValidateSegments(library: Library, platform: string, content: seq<SegmentInput>) returns (invalid: Option<string>)
    ensures FirstErrors(library, platform, content, invalid)
  {
    for i := 0 to |content|
      invariant forall k | 0 <= k < i :: ErrorsOf(library, platform, content[k]).None?
    {
      invalid := ErrorsOf(library, platform, content[i]);
      if invalid.Some? {
        return;
      }
    }
    invalid := None;
  }

  /** That description determines the verdict, so the loop and the recursion agree. */
  lemma FirstErrorsUnique(library: Library, platform: string, content: seq<SegmentInput>, a: Option<string>, b: Option<string>)
    requires FirstErrors(library, platform, content, a) && FirstErrors(library, platform, content, b)
    ensures a == b
  {
  }

  lemma {:induction false} InIdsOf(media: seq<MediaReference>, id: string)
    ensures id in IdsOf(media) <==> exists item | item in media :: item.id == id
  {
    if media != [] {
      InIdsOf(media[1..], id);
      assert media == [media[0]] + media[1..];
    }
  }

  lemma {:induction false} InPrimary(segments: seq<Segment>, id: string)
    ensures id in PrimaryMediaIds(segments) <==> exists s | s in segments :: id in IdsOf(s.media)
  {
    if segments != [] {
      InPrimary(segments[1..], id);
      assert segments == [segments[0]] + segments[1..];
    }
  }

  lemma {:induction false} InThumbnailsOf(media: seq<MediaReference>, id: string)
    ensures id in ThumbnailsOf(media) <==>
      exists item | item in media :: HasThumbnail(item) && item.thumbnailMediaId.value == id
  {
    if media != [] {
      InThumbnailsOf(media[1..], id);
      assert media == [media[0]] + media[1..];
    }
  }

  lemma {:induction false} InThumbnails(segments: seq<Segment>, id: string)
    ensures id in ThumbnailMediaIds(segments) <==> exists s | s in segments :: id in ThumbnailsOf(s.media)
  {
    if segments != [] {
      InThumbnails(segments[1..], id);
      assert segments == [segments[0]] + segments[1..];
    }
  }

  /** Building throws exactly when some primary media id has no row. */
  lemma BuildThrowsWhenMissing(segments: seq<Segment>, byMedia: map<string, MediaRow>)
    ensures BuildSegments(segments, byMedia, 0).None? <==> exists id | id in PrimaryMediaIds(segments) :: id !in byMedia
  {
    if BuildSegments(segments, byMedia, 0).None? {
      var s :| s in segments && BuildAll(s.media, byMedia).None?;
      var item :| item in s.media && item.id !in byMedia;
      InIdsOf(s.media, item.id);
      InPrimary(segments, item.id);
    }
    forall id | id in PrimaryMediaIds(segments) && id !in byMedia ensures BuildSegments(segments, byMedia, 0).None? {
      MissingThrows(segments, byMedia, id);
    }
  }

  lemma MissingThrows(segments: seq<Segment>, byMedia: map<string, MediaRow>, id: string)
    requires id in PrimaryMediaIds(segments) && id !in byMedia
    ensures BuildSegments(segments, byMedia, 0).None?
  {
    InPrimary(segments, id);
    var s :| s in segments && id in IdsOf(s.media);
    InIdsOf(s.media, id);
    var item :| item in s.media && item.id == id;
    assert BuildAll(s.media, byMedia).None?;
  }

  /**
   * The checks are sufficient exactly when no segment refers to media by the empty string: after they pass,
   * building throws if and only if the empty id is a primary media id without a row.
   */
  lemma ChecksSufficeUnlessEmptyId(segments: seq<Segment>, byMedia: map<string, MediaRow>)
    requires MediaCheck(segments, byMedia).None?
    ensures BuildSegments(segments, byMedia, 0).None? <==> "" in PrimaryMediaIds(segments) && "" !in byMedia
  {
    BuildThrowsWhenMissing(segments, byMedia);
    var thumbnails := ThumbnailMediaIds(segments);
    ThumbnailIdsNotEmpty(segments);
    var missing := FirstMissing(PrimaryMediaIds(segments) + thumbnails, byMedia);
    if missing.Some? {
      assert missing.value == "";
      assert "" in PrimaryMediaIds(segments) + thumbnails;
    }
    forall id | id in PrimaryMediaIds(segments) && id !in byMedia ensures "" in PrimaryMediaIds(segments) && "" !in byMedia {
      assert id in PrimaryMediaIds(segments) + thumbnails;
    }
  }

  lemma ThumbnailIdsNotEmpty(segments: seq<Segment>)
    ensures "" !in ThumbnailMediaIds(segments)
  {
    InThumbnails(segments, "");
    forall s | s in segments ensures "" !in ThumbnailsOf(s.media) {
      InThumbnailsOf(s.media, "");
    }
  }

  /** The empty id slips through the checks: a segment whose only media id is "" passes them and then throws. */
  lemma EmptyIdPassesAndThrows()
    ensures var segments := [Segment("", [MediaReference("", None, None, None)])];
            MediaCheck(segments, map[]).None? && BuildSegments(segments, map[], 0).None?
  {
  }

  /** The first media id without a row is the empty string, and every thumbnail is an image. */
  predicate NamesEmptyMedia(row: Row, library: Library) {
    var byMedia := LookUp(library, row.workspaceId, MediaIdsOf(row));
    && FindGroup(row.content, row.groupId).Some?
    && FirstMissing(MediaIdsOf(row), byMedia) == Some("")
    && forall id | id in ThumbnailMediaIds(SegmentsOf(row)) :: IsImage(id, byMedia)
  }

  /** Preflight throws exactly on such content, which always names the empty media id, and throws instead of refusing. */
  lemma ThrowsExactlyOnEmptyId(row: Row, library: Library)
    ensures CheckRow(row, library).Disappeared? <==> NamesEmptyMedia(row, library)
    ensures CheckRow(row, library).Disappeared? <==>
      var byMedia := LookUp(library, row.workspaceId, MediaIdsOf(row));
      && FindGroup(row.content, row.groupId).Some? && MediaCheck(SegmentsOf(row), byMedia).None?
      && "" in PrimaryMediaIds(SegmentsOf(row)) && "" !in byMedia
  {
    var segments := SegmentsOf(row);
    var byMedia := LookUp(library, row.workspaceId, MediaIdsOf(row));
    ThumbnailIdsNotEmpty(segments);
    if MediaCheck(segments, byMedia).None? {
      ChecksSufficeUnlessEmptyId(segments, byMedia);
    }
  }

  /**
   * What passing preflight yields: segments and media in order, `order` equal to the index, every primary media
   * row used, every thumbnail reference resolved to an image, and the platform's rules satisfied by every segment.
   */
  lemma PassedInput(row: Row, library: Library, i: nat, j: nat)
    requires CheckRow(row, library).Passed?
    requires i < |SegmentsOf(row)| && j < |SegmentsOf(row)[i].media|
    ensures var content := CheckRow(row, library).content;
            var segments := SegmentsOf(row);
            var reference := segments[i].media[j];
            && |content| == |segments|
            && row.platform in library.supported && ErrorsOf(library, row.platform, content[i]).None?
            && content[i].order == i && content[i].text == segments[i].text
            && |content[i].media| == |segments[i].media|
            && reference.id in library.media
            && content[i].media[j].url == library.media[reference.id].url
            && content[i].media[j].bucketKey == library.media[reference.id].bucketKey
            && (HasThumbnail(reference) ==>
                  && reference.thumbnailMediaId.value in library.media
                  && Upper(library.media[reference.thumbnailMediaId.value].mediaType) == "IMAGE"
                  && content[i].media[j].thumbnailBucketUrl == Some(library.media[reference.thumbnailMediaId.value].url)
                  && content[i].media[j].thumbnailBucketKey == Some(library.media[reference.thumbnailMediaId.value].bucketKey))
  {
    var segments := SegmentsOf(row);
    var byMedia := LookUp(library, row.workspaceId, MediaIdsOf(row));
    var reference := segments[i].media[j];
    assert segments[i] in segments;
    assert BuildAll(segments[i].media, byMedia).Some?;
    assert reference in segments[i].media;
    if HasThumbnail(reference) {
      var id := reference.thumbnailMediaId.value;
      InThumbnailsOf(segments[i].media, id);
      InThumbnails(segments, id);
      ThumbnailIdsNotEmpty(segments);
      assert IsImage(id, byMedia);
    }
  }
}
