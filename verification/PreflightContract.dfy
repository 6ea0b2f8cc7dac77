/**
 * What preflight lets through, read off the post's content and the media table alone, and the publish input it builds
 * (publish-target.ts:231-344).
 */
module PreflightContract {
  import opened Wrappers
  import opened PublishRecords
  import opened Preflight

  /** A media row of the workspace that is ready and not deleted. */
  predicate Usable(library: Library, workspaceId: string, id: string) {
    && id in library.media
    && library.media[id].workspaceId == workspaceId && library.media[id].ready && !library.media[id].deleted
  }

  /** `upper` is `s` with its ASCII letters in upper case. */
  predicate IsUpper(upper: string, s: string) {
    && |upper| == |s|
    && forall i | 0 <= i < |s| ::
         if 'a' <= s[i] <= 'z' then upper[i] as int == s[i] as int - 32 else upper[i] == s[i]
  }

  predicate NamesThumbnail(reference: MediaReference) {
    reference.thumbnailMediaId.Some? && reference.thumbnailMediaId.value != ""
  }

  predicate ThumbnailIs(reference: MediaReference, id: string) {
    NamesThumbnail(reference) && reference.thumbnailMediaId.value == id
  }

  /** The media a reference needs can be used, and its thumbnail is an image. */
  predicate ReferenceOk(library: Library, workspaceId: string, reference: MediaReference) {
    && Usable(library, workspaceId, reference.id)
    && (NamesThumbnail(reference) ==>
          && Usable(library, workspaceId, reference.thumbnailMediaId.value)
          && IsUpper("IMAGE", library.media[reference.thumbnailMediaId.value].mediaType))
  }

  /** The input built from a reference, field by field. */
  predicate MediaFits(library: Library, reference: MediaReference, input: MediaInput)
    requires reference.id in library.media
    requires NamesThumbnail(reference) ==> reference.thumbnailMediaId.value in library.media
  {
    var media := library.media[reference.id];
    && input.url == media.url && input.bucketUrl == media.url && input.bucketKey == media.bucketKey
    && IsUpper(input.mediaType, media.mediaType)
    && input.altText == (if reference.altText.Some? then reference.altText else media.altText)
    && input.thumbnailTimestamp == reference.thumbnailTimestamp
    && input.durationSeconds == media.durationSeconds
    && if NamesThumbnail(reference) then
         var thumbnail := library.media[reference.thumbnailMediaId.value];
         input.thumbnailBucketUrl == Some(thumbnail.url) && input.thumbnailBucketKey == Some(thumbnail.bucketKey)
       else
         && input.thumbnailBucketKey == None
         && input.thumbnailBucketUrl ==
              if media.thumbnails.Some? && |media.thumbnails.value| > 0 && media.thumbnails.value[0] != ""
              then Some(media.thumbnails.value[0]) else None
  }

  ghost predicate ReferencesOk(segments: seq<Segment>, workspaceId: string, library: Library) {
    forall i, j | 0 <= i < |segments| && 0 <= j < |segments[i].media| ::
      ReferenceOk(library, workspaceId, segments[i].media[j])
  }

  /** The input is the segments in their order, each with its media in their order. */
  ghost predicate InputFits(segments: seq<Segment>, workspaceId: string, library: Library, input: seq<SegmentInput>)
    requires ReferencesOk(segments, workspaceId, library)
  {
    && |input| == |segments|
    && forall i | 0 <= i < |segments| ::
         && input[i].order == i && input[i].text == segments[i].text && |input[i].media| == |segments[i].media|
         && forall j | 0 <= j < |segments[i].media| ::
              ReferenceOk(library, workspaceId, segments[i].media[j])
              && MediaFits(library, segments[i].media[j], input[i].media[j])
  }

  ghost predicate RulesHold(library: Library, platform: string, input: seq<SegmentInput>) {
    forall i | 0 <= i < |input| :: library.rules(platform, input[i].text, input[i].media).None?
  }

  /** Everything preflight demands of a target, and the input it yields. */
  ghost predicate Publishable(content: seq<Group>, groupId: string, workspaceId: string, platform: string,
      library: Library, input: seq<SegmentInput>)
  {
    exists g | 0 <= g < |content| ::
      && content[g].id == groupId && (forall k | 0 <= k < g :: content[k].id != groupId)
      && ReferencesOk(content[g].segments, workspaceId, library)
      && InputFits(content[g].segments, workspaceId, library, input)
      && platform in library.supported
      && RulesHold(library, platform, input)
  }

  lemma UpperExactly(upper: string, s: string)
    ensures upper == Upper(s) <==> IsUpper(upper, s)
  {
    if IsUpper(upper, s) {
      assert forall i | 0 <= i < |s| :: upper[i] == Upper(s)[i];
    }
  }

  lemma MediaFitsExactly(library: Library, byMedia: map<string, MediaRow>, reference: MediaReference, input: MediaInput)
    requires reference.id in byMedia && (NamesThumbnail(reference) ==> reference.thumbnailMediaId.value in byMedia)
    requires forall id | id in byMedia :: id in library.media && library.media[id] == byMedia[id]
    ensures MediaFits(library, reference, input) <==> input == BuildMedia(reference, byMedia[reference.id], byMedia)
  {
    UpperExactly(input.mediaType, byMedia[reference.id].mediaType);
    hide Upper, IsUpper;
  }

  /** The ids the media query is asked for are those of the references and of their thumbnails. */
  lemma MediaIdsAre(segments: seq<Segment>, id: string)
    ensures id in PrimaryMediaIds(segments) <==>
      exists i, j | 0 <= i < |segments| && 0 <= j < |segments[i].media| :: segments[i].media[j].id == id
    ensures id in ThumbnailMediaIds(segments) <==>
      exists i, j | 0 <= i < |segments| && 0 <= j < |segments[i].media| ::
        ThumbnailIs(segments[i].media[j], id)
  {
    PrimaryIdsAre(segments, id);
    ThumbnailIdsAre(segments, id);
  }

  lemma PrimaryIdsAre(segments: seq<Segment>, id: string)
    ensures id in PrimaryMediaIds(segments) <==>
      exists i, j | 0 <= i < |segments| && 0 <= j < |segments[i].media| :: segments[i].media[j].id == id
  {
    InPrimary(segments, id);
    if id in PrimaryMediaIds(segments) {
      var s :| s in segments && id in IdsOf(s.media);
      InIdsOf(s.media, id);
      var i :| 0 <= i < |segments| && segments[i] == s;
      var item :| item in s.media && item.id == id;
      var j :| 0 <= j < |s.media| && s.media[j] == item;
      assert segments[i].media[j].id == id;
    }
    if i, j :| 0 <= i < |segments| && 0 <= j < |segments[i].media| && segments[i].media[j].id == id {
      InIdsOf(segments[i].media, id);
      assert segments[i].media[j] in segments[i].media && segments[i] in segments;
    }
  }

  lemma ThumbnailIdsAre(segments: seq<Segment>, id: string)
    ensures id in ThumbnailMediaIds(segments) <==>
      exists i, j | 0 <= i < |segments| && 0 <= j < |segments[i].media| ::
        ThumbnailIs(segments[i].media[j], id)
  {
    InThumbnails(segments, id);
    if id in ThumbnailMediaIds(segments) {
      var s :| s in segments && id in ThumbnailsOf(s.media);
      InThumbnailsOf(s.media, id);
      var i :| 0 <= i < |segments| && segments[i] == s;
      var item :| item in s.media && HasThumbnail(item) && item.thumbnailMediaId.value == id;
      var j :| 0 <= j < |s.media| && s.media[j] == item;
      assert ThumbnailIs(segments[i].media[j], id);
    }
    if i, j :| 0 <= i < |segments| && 0 <= j < |segments[i].media| && ThumbnailIs(segments[i].media[j], id) {
      InThumbnailsOf(segments[i].media, id);
      assert segments[i].media[j] in segments[i].media && segments[i] in segments;
      assert HasThumbnail(segments[i].media[j]);
    }
  }

  /** The checks pass and building does not throw exactly when every reference is in order. */
  lemma ChecksExactly(row: Row, library: Library)
    ensures var segments := SegmentsOf(row);
            var byMedia := LookUp(library, row.workspaceId, MediaIdsOf(row));
            MediaCheck(segments, byMedia).None? && BuildSegments(segments, byMedia, 0).Some? <==>
              ReferencesOk(segments, row.workspaceId, library)
  {
    var segments := SegmentsOf(row);
    var byMedia := LookUp(library, row.workspaceId, MediaIdsOf(row));
    BuildThrowsWhenMissing(segments, byMedia);
    ThumbnailIdsNotEmpty(segments);
    if ReferencesOk(segments, row.workspaceId, library) {
      ReferencesFound(row, library);
    } else {
      var i, j :| 0 <= i < |segments| && 0 <= j < |segments[i].media|
        && !ReferenceOk(library, row.workspaceId, segments[i].media[j]);
      BadReferenceStops(row, library, i, j);
    }
  }

  lemma ReferencesFound(row: Row, library: Library)
    requires ReferencesOk(SegmentsOf(row), row.workspaceId, library)
    ensures var byMedia := LookUp(library, row.workspaceId, MediaIdsOf(row));
            && (forall id | id in MediaIdsOf(row) :: id in byMedia)
            && (forall id | id in ThumbnailMediaIds(SegmentsOf(row)) :: IsImage(id, byMedia))
  {
    hide LookUp;
    var segments := SegmentsOf(row);
    var byMedia := LookUp(library, row.workspaceId, MediaIdsOf(row));
    forall id | id in MediaIdsOf(row) ensures id in byMedia {
      MediaIdsAre(segments, id);
      LookUpFinds(library, row.workspaceId, MediaIdsOf(row), id);
    }
    forall id | id in ThumbnailMediaIds(segments) ensures IsImage(id, byMedia) {
      MediaIdsAre(segments, id);
      LookUpFinds(library, row.workspaceId, MediaIdsOf(row), id);
      assert id in MediaIdsOf(row);
      UpperExactly("IMAGE", library.media[id].mediaType);
    }
  }

  lemma LookUpFinds(library: Library, workspaceId: string, ids: seq<string>, id: string)
    ensures var byMedia := LookUp(library, workspaceId, ids);
            && (id in byMedia <==> id in ids && Usable(library, workspaceId, id))
            && (id in byMedia ==> byMedia[id] == library.media[id])
  {
  }

  lemma BadReferenceStops(row: Row, library: Library, i: nat, j: nat)
    requires i < |SegmentsOf(row)| && j < |SegmentsOf(row)[i].media|
    requires !ReferenceOk(library, row.workspaceId, SegmentsOf(row)[i].media[j])
    ensures var byMedia := LookUp(library, row.workspaceId, MediaIdsOf(row));
            MediaCheck(SegmentsOf(row), byMedia).Some? || BuildSegments(SegmentsOf(row), byMedia, 0).None?
  {
    hide LookUp;
    var segments := SegmentsOf(row);
    var byMedia := LookUp(library, row.workspaceId, MediaIdsOf(row));
    var reference := segments[i].media[j];
    MediaIdsAre(segments, reference.id);
    LookUpFinds(library, row.workspaceId, MediaIdsOf(row), reference.id);
    if !Usable(library, row.workspaceId, reference.id) {
      BuildThrowsWhenMissing(segments, byMedia);
    } else {
      var id := reference.thumbnailMediaId.value;
      MediaIdsAre(segments, id);
      LookUpFinds(library, row.workspaceId, MediaIdsOf(row), id);
      ThumbnailIdsNotEmpty(segments);
      if id in byMedia {
        UpperExactly("IMAGE", library.media[id].mediaType);
      }
      assert !IsImage(id, byMedia);
    }
  }

  /** With every reference in order, the input built is the only one that fits. */
  lemma BuiltExactly(row: Row, library: Library, input: seq<SegmentInput>)
    requires ReferencesOk(SegmentsOf(row), row.workspaceId, library)
    ensures var byMedia := LookUp(library, row.workspaceId, MediaIdsOf(row));
            BuildSegments(SegmentsOf(row), byMedia, 0) == Some(input) <==>
              InputFits(SegmentsOf(row), row.workspaceId, library, input)
  {
    var segments := SegmentsOf(row);
    var byMedia := LookUp(library, row.workspaceId, MediaIdsOf(row));
    ReferencesFound(row, library);
    ChecksExactly(row, library);
    var built := BuildSegments(segments, byMedia, 0).value;
    forall i, j | 0 <= i < |segments| && 0 <= j < |segments[i].media|
      ensures |built[i].media| == |segments[i].media|
      ensures |input| == |segments| && |input[i].media| == |segments[i].media| ==>
        (MediaFits(library, segments[i].media[j], input[i].media[j]) <==> input[i].media[j] == built[i].media[j])
    {
      if |input| == |segments| && |input[i].media| == |segments[i].media| {
        var reference := segments[i].media[j];
        assert ReferenceOk(library, row.workspaceId, reference);
        MediaIdsAre(segments, reference.id);
        if NamesThumbnail(reference) { MediaIdsAre(segments, reference.thumbnailMediaId.value); }
        MediaFitsExactly(library, byMedia, reference, input[i].media[j]);
      }
    }
    SameInput(segments, row.workspaceId, library, built, input);
  }

  lemma SameInput(segments: seq<Segment>, workspaceId: string, library: Library, built: seq<SegmentInput>, input: seq<SegmentInput>)
    requires ReferencesOk(segments, workspaceId, library)
    requires |built| == |segments|
    requires forall i | 0 <= i < |segments| ::
      built[i].order == i && built[i].text == segments[i].text && |built[i].media| == |segments[i].media|
    requires |input| == |segments| ==>
      forall i, j | 0 <= i < |segments| && 0 <= j < |segments[i].media| && |input[i].media| == |segments[i].media| ::
        ReferenceOk(library, workspaceId, segments[i].media[j])
        && (MediaFits(library, segments[i].media[j], input[i].media[j]) <==> input[i].media[j] == built[i].media[j])
    ensures built == input <==> InputFits(segments, workspaceId, library, input)
  {
    if InputFits(segments, workspaceId, library, input) {
      forall i | 0 <= i < |segments| ensures built[i] == input[i] {
        assert built[i].media == input[i].media;
      }
    }
  }

  /** Preflight passes, with a given input, exactly when the target is publishable with that input. */
  lemma PassedExactly(row: Row, library: Library, input: seq<SegmentInput>)
    ensures CheckRow(row, library) == Passed(input) <==>
      Publishable(row.content, row.groupId, row.workspaceId, row.platform, library, input)
  {
    hide MediaCheck, BuildSegments, LookUp, InputFits, ReferencesOk;
    if FindGroup(row.content, row.groupId).Some? {
      var g :| IsFirstGroup(row.content, row.groupId, g);
      assert SegmentsOf(row) == row.content[g].segments;
      ChecksExactly(row, library);
      if ReferencesOk(SegmentsOf(row), row.workspaceId, library) {
        BuiltExactly(row, library, input);
      }
      PassedParts(row, library, input);
    }
  }

  lemma PassedParts(row: Row, library: Library, input: seq<SegmentInput>)
    ensures var byMedia := LookUp(library, row.workspaceId, MediaIdsOf(row));
            CheckRow(row, library) == Passed(input) <==>
              && FindGroup(row.content, row.groupId).Some?
              && MediaCheck(SegmentsOf(row), byMedia).None?
              && BuildSegments(SegmentsOf(row), byMedia, 0) == Some(input)
              && row.platform in library.supported
              && RulesHold(library, row.platform, input)
  {
    hide MediaCheck, LookUp, SegmentsOf;
    var byMedia := LookUp(library, row.workspaceId, MediaIdsOf(row));
    var built := BuildSegments(SegmentsOf(row), byMedia, 0);
    if built.Some? {
      assert FirstErrors(library, row.platform, built.value, FirstInvalid(library, row.platform, built.value));
      assert RulesHold(library, row.platform, built.value) <==>
        forall i | 0 <= i < |built.value| :: ErrorsOf(library, row.platform, built.value[i]).None?;
    }
  }

  /** Some reference of the target's group, or its thumbnail, names this id. */
  ghost predicate Named(row: Row, id: string) {
    exists i, j | 0 <= i < |SegmentsOf(row)| && 0 <= j < |SegmentsOf(row)[i].media| ::
      SegmentsOf(row)[i].media[j].id == id || ThumbnailIs(SegmentsOf(row)[i].media[j], id)
  }

  /** The `i`-th segment of the built input is the first that breaks a rule, and its errors are the message. */
  ghost predicate RulesRefuse(row: Row, library: Library, input: seq<SegmentInput>, i: int, message: string) {
    && ReferencesOk(SegmentsOf(row), row.workspaceId, library)
    && InputFits(SegmentsOf(row), row.workspaceId, library, input)
    && 0 <= i < |input|
    && (forall k | 0 <= k < i :: library.rules(row.platform, input[k].text, input[k].media).None?)
    && library.rules(row.platform, input[i].text, input[i].media).Some?
    && message == "Platform validation failed: " + library.rules(row.platform, input[i].text, input[i].media).value
  }

  /** The reasons to refuse a target, each with its message. */
  ghost predicate Reason(row: Row, library: Library, message: string) {
    || (message == "Target content group not found" && forall i | 0 <= i < |row.content| :: row.content[i].id != row.groupId)
    || (exists id :: Named(row, id) && id != "" && !Usable(library, row.workspaceId, id)
                     && message == "Media " + id + " is not ready")
    || (exists id :: Named(row, id)
                     && (Usable(library, row.workspaceId, id) ==> !IsUpper("IMAGE", library.media[id].mediaType))
                     && message == "Thumbnail " + id + " must be an image")
    || (row.platform !in library.supported && message == "Unsupported platform " + row.platform)
    || (exists input, i :: RulesRefuse(row, library, input, i, message))
  }

  /** A target is refused for a reason, with its message; one that neither passes nor is refused names the empty id. */
  lemma RefusedBecause(row: Row, library: Library)
    ensures CheckRow(row, library).Refused? ==> Reason(row, library, CheckRow(row, library).message)
    ensures CheckRow(row, library).Disappeared? ==> Named(row, "") && !Usable(library, row.workspaceId, "")
  {
    hide MediaCheck, BuildSegments, LookUp, Named, SegmentsOf, MediaIdsOf, Usable, FirstInvalid;
    var byMedia := LookUp(library, row.workspaceId, MediaIdsOf(row));
    if FindGroup(row.content, row.groupId).Some? {
      if MediaCheck(SegmentsOf(row), byMedia).Some? {
        RefusedByMedia(row, library);
      } else if BuildSegments(SegmentsOf(row), byMedia, 0).None? {
        ThrownOnEmptyId(row, library);
      } else if FirstInvalid(library, row.platform, BuildSegments(SegmentsOf(row), byMedia, 0).value).Some? {
        RefusedByRules(row, library);
      }
    }
  }

  lemma IdsAreNamed(row: Row, id: string)
    requires id in MediaIdsOf(row)
    ensures Named(row, id)
  {
    MediaIdsAre(SegmentsOf(row), id);
  }

  lemma RefusedByMedia(row: Row, library: Library)
    requires MediaCheck(SegmentsOf(row), LookUp(library, row.workspaceId, MediaIdsOf(row))).Some?
    ensures Reason(row, library, MediaCheck(SegmentsOf(row), LookUp(library, row.workspaceId, MediaIdsOf(row))).value)
  {
    hide Named, LookUp, RulesRefuse;
    var byMedia := LookUp(library, row.workspaceId, MediaIdsOf(row));
    var missing := FirstMissing(MediaIdsOf(row), byMedia);
    if missing.Some? && missing.value != "" {
      IdsAreNamed(row, missing.value);
      LookUpFinds(library, row.workspaceId, MediaIdsOf(row), missing.value);
    } else {
      var id := FirstNonImage(ThumbnailMediaIds(SegmentsOf(row)), byMedia).value;
      assert id in MediaIdsOf(row);
      IdsAreNamed(row, id);
      LookUpFinds(library, row.workspaceId, MediaIdsOf(row), id);
      if id in byMedia {
        UpperExactly("IMAGE", byMedia[id].mediaType);
      }
    }
  }

  lemma ThrownOnEmptyId(row: Row, library: Library)
    requires var byMedia := LookUp(library, row.workspaceId, MediaIdsOf(row));
             MediaCheck(SegmentsOf(row), byMedia).None? && BuildSegments(SegmentsOf(row), byMedia, 0).None?
    ensures Named(row, "") && !Usable(library, row.workspaceId, "")
  {
    hide LookUp;
    ChecksSufficeUnlessEmptyId(SegmentsOf(row), LookUp(library, row.workspaceId, MediaIdsOf(row)));
    assert "" in MediaIdsOf(row);
    IdsAreNamed(row, "");
    LookUpFinds(library, row.workspaceId, MediaIdsOf(row), "");
  }

  lemma RefusedByRules(row: Row, library: Library)
    requires var byMedia := LookUp(library, row.workspaceId, MediaIdsOf(row));
             var built := BuildSegments(SegmentsOf(row), byMedia, 0);
             && MediaCheck(SegmentsOf(row), byMedia).None? && built.Some?
             && FirstInvalid(library, row.platform, built.value).Some?
    ensures var built := BuildSegments(SegmentsOf(row), LookUp(library, row.workspaceId, MediaIdsOf(row)), 0).value;
            Reason(row, library, "Platform validation failed: " + FirstInvalid(library, row.platform, built).value)
  {
    hide MediaCheck, BuildSegments, LookUp, InputFits, ReferencesOk, SegmentsOf, MediaIdsOf;
    var built := BuildSegments(SegmentsOf(row), LookUp(library, row.workspaceId, MediaIdsOf(row)), 0).value;
    ChecksExactly(row, library);
    BuiltExactly(row, library, built);
    var invalid := FirstInvalid(library, row.platform, built);
    assert FirstErrors(library, row.platform, built, invalid);
    var i :| 0 <= i < |built| && ErrorsOf(library, row.platform, built[i]) == invalid
      && forall k | 0 <= k < i :: ErrorsOf(library, row.platform, built[k]).None?;
    assert forall k | 0 <= k < i :: library.rules(row.platform, built[k].text, built[k].media).None? by {
      forall k | 0 <= k < i ensures library.rules(row.platform, built[k].text, built[k].media).None? {
        assert ErrorsOf(library, row.platform, built[k]).None?;
      }
    }
    assert RulesRefuse(row, library, built, i, "Platform validation failed: " + invalid.value);
  }
}
