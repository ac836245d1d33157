/** Validation of the API's request and response records. A `Raw` record
    holds what a request body or a keyword-argument dict provides: each key
    present or missing (`None` also stands for an explicit null where the
    field accepts one). Validating a raw record fails when a required key
    is missing or a list that must be non-empty is empty, and otherwise
    fills every missing key with its declared default. Dumping a record
    back gives a raw record with every key present, which validates to the
    record itself. */
module SceneModels {
  import opened Wrappers

  /** Why validation failed: the first required key that is missing, or a
      list that is shorter than its minimum. */
  datatype Invalid = Missing(field: string) | TooShort(field: string)

  /** Validates every element of a list; fails on the first element that
      does not validate. */
  function ValidateEach<R, T>(raws: seq<R>, v: R -> Result<T, Invalid>): (r: Result<seq<T>, Invalid>)
    ensures r.Ok? <==> forall i :: 0 <= i < |raws| ==> v(raws[i]).Ok?
    ensures r.Ok? ==> |r.value| == |raws| && forall i :: 0 <= i < |raws| ==> r.value[i] == v(raws[i]).value
    decreases |raws|
  {
    if raws == [] then Ok([])
    else match v(raws[0])
      case Err(e) => Err(e)
      case Ok(x) =>
        match ValidateEach(raws[1..], v)
        case Err(e) => Err(e)
        case Ok(xs) =>
          assert forall i :: 1 <= i < |raws| ==> raws[i] == raws[1..][i - 1];
          Ok([x] + xs)
  }

  // ---------------------------------------------------------------------
  // FaceInfo
  // ---------------------------------------------------------------------

  datatype FaceInfo = FaceInfo(faceId: string, name: string)

  datatype RawFaceInfo = RawFaceInfo(faceId: Option<string>, name: Option<string>)

  /** Both `face_id` and `name` are required. */
  function ValidateFaceInfo(raw: RawFaceInfo): (r: Result<FaceInfo, Invalid>)
    ensures r.Ok? <==> raw.faceId.Some? && raw.name.Some?
    ensures r.Ok? ==> r.value == FaceInfo(raw.faceId.value, raw.name.value)
  {
    if raw.faceId.None? then Err(Missing("face_id"))
    else if raw.name.None? then Err(Missing("name"))
    else Ok(FaceInfo(raw.faceId.value, raw.name.value))
  }

  function DumpFaceInfo(f: FaceInfo): RawFaceInfo {
    RawFaceInfo(Some(f.faceId), Some(f.name))
  }

  // ---------------------------------------------------------------------
  // VideoInfo
  // ---------------------------------------------------------------------

  /** `video_created_at` is a datetime; it is kept as its ISO text. */
  datatype VideoInfo = VideoInfo(
    videoId: string,
    videoTitle: string,
    videoName: string,
    videoSummary: string,
    videoTags: seq<string>,
    videoDurationSec: Option<real>,
    videoCreatedAt: Option<string>,
    resolution: string,
    fps: Option<real>,
    programId: string,
    broadcastDate: string,
    contentTypeId: string)

  datatype RawVideoInfo = RawVideoInfo(
    videoId: Option<string>,
    videoTitle: Option<string>,
    videoName: Option<string>,
    videoSummary: Option<string>,
    videoTags: Option<seq<string>>,
    videoDurationSec: Option<real>,
    videoCreatedAt: Option<string>,
    resolution: Option<string>,
    fps: Option<real>,
    programId: Option<string>,
    broadcastDate: Option<string>,
    contentTypeId: Option<string>)

  /** `video_id` and `video_title` are required; the strings default to
      "", the tags to [], and duration, creation time and fps to None. */
  function ValidateVideoInfo(raw: RawVideoInfo): (r: Result<VideoInfo, Invalid>)
    ensures r.Ok? <==> raw.videoId.Some? && raw.videoTitle.Some?
    ensures r.Ok? ==>
      && r.value.videoId == raw.videoId.value && r.value.videoTitle == raw.videoTitle.value
      && r.value.videoName == raw.videoName.GetOr("") && r.value.videoSummary == raw.videoSummary.GetOr("")
      && r.value.videoTags == raw.videoTags.GetOr([])
      && r.value.videoDurationSec == raw.videoDurationSec && r.value.fps == raw.fps
      && r.value.videoCreatedAt == raw.videoCreatedAt
      && r.value.resolution == raw.resolution.GetOr("")
      && r.value.programId == raw.programId.GetOr("")
      && r.value.broadcastDate == raw.broadcastDate.GetOr("")
      && r.value.contentTypeId == raw.contentTypeId.GetOr("")
  {
    if raw.videoId.None? then Err(Missing("video_id"))
    else if raw.videoTitle.None? then Err(Missing("video_title"))
    else Ok(VideoInfo(
      raw.videoId.value, raw.videoTitle.value, raw.videoName.GetOr(""), raw.videoSummary.GetOr(""),
      raw.videoTags.GetOr([]), raw.videoDurationSec, raw.videoCreatedAt, raw.resolution.GetOr(""),
      raw.fps, raw.programId.GetOr(""), raw.broadcastDate.GetOr(""), raw.contentTypeId.GetOr("")))
  }

  function DumpVideoInfo(v: VideoInfo): RawVideoInfo {
    RawVideoInfo(
      Some(v.videoId), Some(v.videoTitle), Some(v.videoName), Some(v.videoSummary), Some(v.videoTags),
      v.videoDurationSec, v.videoCreatedAt, Some(v.resolution), v.fps, Some(v.programId),
      Some(v.broadcastDate), Some(v.contentTypeId))
  }

  /** The two required keys alone give a record of defaults. */
  lemma VideoInfoDefaults(id: string, title: string)
    ensures ValidateVideoInfo(RawVideoInfo(Some(id), Some(title), None, None, None, None, None, None, None, None, None, None))
      == Ok(VideoInfo(id, title, "", "", [], None, None, "", None, "", "", ""))
  {
  }

  // ---------------------------------------------------------------------
  // SceneIngestItem and IngestRequest
  // ---------------------------------------------------------------------

  datatype SceneIngestItem = SceneIngestItem(
    sceneId: string,
    sceneDescription: string,
    visualCaption: string,
    audioSummarization: string,
    audioTranscription: string,
    faces: seq<FaceInfo>,
    startTimeSec: real,
    endTimeSec: real,
    video: VideoInfo,
    category: string,
    createdDate: string,
    author: string)

  datatype RawSceneIngestItem = RawSceneIngestItem(
    sceneId: Option<string>,
    sceneDescription: Option<string>,
    visualCaption: Option<string>,
    audioSummarization: Option<string>,
    audioTranscription: Option<string>,
    faces: Option<seq<RawFaceInfo>>,
    startTimeSec: Option<real>,
    endTimeSec: Option<real>,
    video: Option<RawVideoInfo>,
    category: Option<string>,
    createdDate: Option<string>,
    author: Option<string>)

  function RawFaces(raw: RawSceneIngestItem): seq<RawFaceInfo> {
    raw.faces.GetOr([])
  }

  /** `scene_id`, `scene_description`, `start_time_sec`, `end_time_sec`
      and a valid `video` are required, and every face must be valid; the
      other strings default to "" and `faces` to []. */
  function ValidateSceneIngestItem(raw: RawSceneIngestItem): (r: Result<SceneIngestItem, Invalid>)
    ensures r.Ok? <==>
      && raw.sceneId.Some? && raw.sceneDescription.Some?
      && raw.startTimeSec.Some? && raw.endTimeSec.Some?
      && raw.video.Some? && ValidateVideoInfo(raw.video.value).Ok?
      && forall i :: 0 <= i < |RawFaces(raw)| ==> ValidateFaceInfo(RawFaces(raw)[i]).Ok?
    // the required keys are kept, the video and every face validated
    ensures r.Ok? ==>
      && r.value.sceneId == raw.sceneId.value
      && r.value.sceneDescription == raw.sceneDescription.value
      && r.value.startTimeSec == raw.startTimeSec.value
      && r.value.endTimeSec == raw.endTimeSec.value
      && r.value.video == ValidateVideoInfo(raw.video.value).value
      && |r.value.faces| == |RawFaces(raw)|
      && (forall i :: 0 <= i < |RawFaces(raw)| ==> r.value.faces[i] == ValidateFaceInfo(RawFaces(raw)[i]).value)
    // the optional strings are kept when given and "" otherwise
    ensures r.Ok? ==>
      && r.value.visualCaption == raw.visualCaption.GetOr("")
      && r.value.audioSummarization == raw.audioSummarization.GetOr("")
      && r.value.audioTranscription == raw.audioTranscription.GetOr("")
      && r.value.category == raw.category.GetOr("")
      && r.value.createdDate == raw.createdDate.GetOr("")
      && r.value.author == raw.author.GetOr("")
  {
    if raw.sceneId.None? then Err(Missing("scene_id"))
    else if raw.sceneDescription.None? then Err(Missing("scene_description"))
    else if raw.startTimeSec.None? then Err(Missing("start_time_sec"))
    else if raw.endTimeSec.None? then Err(Missing("end_time_sec"))
    else if raw.video.None? then Err(Missing("video"))
    else
      var faces :- ValidateEach(RawFaces(raw), ValidateFaceInfo);
      var video :- ValidateVideoInfo(raw.video.value);
      Ok(SceneIngestItem(
        raw.sceneId.value, raw.sceneDescription.value, raw.visualCaption.GetOr(""),
        raw.audioSummarization.GetOr(""), raw.audioTranscription.GetOr(""), faces,
        raw.startTimeSec.value, raw.endTimeSec.value, video, raw.category.GetOr(""),
        raw.createdDate.GetOr(""), raw.author.GetOr("")))
  }

  function DumpFaces(fs: seq<FaceInfo>): (raws: seq<RawFaceInfo>)
    ensures |raws| == |fs| && forall i :: 0 <= i < |fs| ==> raws[i] == DumpFaceInfo(fs[i])
  {
    seq(|fs|, i requires 0 <= i < |fs| => DumpFaceInfo(fs[i]))
  }

  function DumpSceneIngestItem(s: SceneIngestItem): RawSceneIngestItem {
    RawSceneIngestItem(
      Some(s.sceneId), Some(s.sceneDescription), Some(s.visualCaption), Some(s.audioSummarization),
      Some(s.audioTranscription), Some(DumpFaces(s.faces)), Some(s.startTimeSec), Some(s.endTimeSec),
      Some(DumpVideoInfo(s.video)), Some(s.category), Some(s.createdDate), Some(s.author))
  }

  /** A dumped scene item validates to itself. */
  lemma SceneIngestItemRoundTrip(s: SceneIngestItem)
    ensures ValidateSceneIngestItem(DumpSceneIngestItem(s)) == Ok(s)
  {
    var raw := DumpSceneIngestItem(s);
    var faces := ValidateEach(RawFaces(raw), ValidateFaceInfo);
    assert faces.Ok?;
    assert faces.value == s.faces;
  }

  /** `scenes` is required and must hold at least one item. */
  datatype IngestRequest = IngestRequest(scenes: seq<SceneIngestItem>)

  datatype RawIngestRequest = RawIngestRequest(scenes: Option<seq<RawSceneIngestItem>>)

  function ValidateIngestRequest(raw: RawIngestRequest): (r: Result<IngestRequest, Invalid>)
    ensures r.Ok? <==>
      && raw.scenes.Some? && |raw.scenes.value| >= 1
      && forall i :: 0 <= i < |raw.scenes.value| ==> ValidateSceneIngestItem(raw.scenes.value[i]).Ok?
    ensures raw.scenes == Some([]) ==> r == Err(TooShort("scenes"))
    ensures r.Ok? ==> |r.value.scenes| == |raw.scenes.value| >= 1
  {
    if raw.scenes.None? then Err(Missing("scenes"))
    else if |raw.scenes.value| < 1 then Err(TooShort("scenes"))
    else
      var scenes :- ValidateEach(raw.scenes.value, ValidateSceneIngestItem);
      Ok(IngestRequest(scenes))
  }

  // ---------------------------------------------------------------------
  // ContentIngestItem and ContentIngestRequest
  // ---------------------------------------------------------------------

  datatype ContentIngestItem = ContentIngestItem(
    contentId: string,
    title: string,
    description: string,
    videoSummary: string,
    tags: seq<string>,
    durationSec: real,
    createdAt: string,
    category: string,
    author: string,
    videoName: string,
    resolution: string,
    fps: real,
    programId: string,
    broadcastDate: string,
    contentTypeId: string)

  datatype RawContentIngestItem = RawContentIngestItem(
    contentId: Option<string>,
    title: Option<string>,
    description: Option<string>,
    videoSummary: Option<string>,
    tags: Option<seq<string>>,
    durationSec: Option<real>,
    createdAt: Option<string>,
    category: Option<string>,
    author: Option<string>,
    videoName: Option<string>,
    resolution: Option<string>,
    fps: Option<real>,
    programId: Option<string>,
    broadcastDate: Option<string>,
    contentTypeId: Option<string>)

  /** `content_id` and `title` are required; `tags` defaults to [],
      `duration_sec` and `fps` to 0.0 and the strings to "". */
  function ValidateContentIngestItem(raw: RawContentIngestItem): (r: Result<ContentIngestItem, Invalid>)
    ensures r.Ok? <==> raw.contentId.Some? && raw.title.Some?
    ensures r.Ok? ==>
      && r.value.contentId == raw.contentId.value && r.value.title == raw.title.value
      && r.value.description == raw.description.GetOr("")
      && r.value.tags == raw.tags.GetOr([])
      && r.value.durationSec == raw.durationSec.GetOr(0.0)
      && r.value.fps == raw.fps.GetOr(0.0)
      && r.value.videoSummary == raw.videoSummary.GetOr("")
      && r.value.createdAt == raw.createdAt.GetOr("")
      && r.value.category == raw.category.GetOr("")
      && r.value.author == raw.author.GetOr("")
      && r.value.videoName == raw.videoName.GetOr("")
      && r.value.resolution == raw.resolution.GetOr("")
      && r.value.programId == raw.programId.GetOr("")
      && r.value.broadcastDate == raw.broadcastDate.GetOr("")
      && r.value.contentTypeId == raw.contentTypeId.GetOr("")
  {
    if raw.contentId.None? then Err(Missing("content_id"))
    else if raw.title.None? then Err(Missing("title"))
    else Ok(ContentIngestItem(
      raw.contentId.value, raw.title.value, raw.description.GetOr(""), raw.videoSummary.GetOr(""),
      raw.tags.GetOr([]), raw.durationSec.GetOr(0.0), raw.createdAt.GetOr(""), raw.category.GetOr(""),
      raw.author.GetOr(""), raw.videoName.GetOr(""), raw.resolution.GetOr(""), raw.fps.GetOr(0.0),
      raw.programId.GetOr(""), raw.broadcastDate.GetOr(""), raw.contentTypeId.GetOr("")))
  }

  function DumpContentIngestItem(c: ContentIngestItem): RawContentIngestItem {
    RawContentIngestItem(
      Some(c.contentId), Some(c.title), Some(c.description), Some(c.videoSummary), Some(c.tags),
      Some(c.durationSec), Some(c.createdAt), Some(c.category), Some(c.author), Some(c.videoName),
      Some(c.resolution), Some(c.fps), Some(c.programId), Some(c.broadcastDate), Some(c.contentTypeId))
  }

  lemma ContentIngestItemRoundTrip(c: ContentIngestItem)
    ensures ValidateContentIngestItem(DumpContentIngestItem(c)) == Ok(c)
  {
  }

  datatype ContentIngestRequest = ContentIngestRequest(contents: seq<ContentIngestItem>)

  datatype RawContentIngestRequest = RawContentIngestRequest(contents: Option<seq<RawContentIngestItem>>)

  /** `contents` is required and must hold at least one item. */
  function ValidateContentIngestRequest(raw: RawContentIngestRequest): (r: Result<ContentIngestRequest, Invalid>)
    ensures r.Ok? <==>
      && raw.contents.Some? && |raw.contents.value| >= 1
      && forall i :: 0 <= i < |raw.contents.value| ==> ValidateContentIngestItem(raw.contents.value[i]).Ok?
    ensures raw.contents == Some([]) ==> r == Err(TooShort("contents"))
    ensures r.Ok? ==> |r.value.contents| == |raw.contents.value| >= 1
  {
    if raw.contents.None? then Err(Missing("contents"))
    else if |raw.contents.value| < 1 then Err(TooShort("contents"))
    else
      var contents :- ValidateEach(raw.contents.value, ValidateContentIngestItem);
      Ok(ContentIngestRequest(contents))
  }

  // ---------------------------------------------------------------------
  // IngestResponse
  // ---------------------------------------------------------------------

  datatype IngestResponse = IngestResponse(indexed: int, errors: seq<string>)

  datatype RawIngestResponse = RawIngestResponse(indexed: Option<int>, errors: Option<seq<string>>)

  /** `indexed` is required; `errors` defaults to []. */
  function ValidateIngestResponse(raw: RawIngestResponse): (r: Result<IngestResponse, Invalid>)
    ensures r.Ok? <==> raw.indexed.Some?
    ensures r.Ok? ==> r.value == IngestResponse(raw.indexed.value, raw.errors.GetOr([]))
  {
    if raw.indexed.None? then Err(Missing("indexed"))
    else Ok(IngestResponse(raw.indexed.value, raw.errors.GetOr([])))
  }
}

/** The search response records. */
module SearchModels {
  import opened Wrappers
  import opened SceneModels
  import MQ = MilvusQueries

  datatype FaceItem = FaceItem(faceId: string, name: string)

  datatype RawFaceItem = RawFaceItem(faceId: Option<string>, name: Option<string>)

  function ValidateFaceItem(raw: RawFaceItem): (r: Result<FaceItem, Invalid>)
    ensures r.Ok? <==> raw.faceId.Some? && raw.name.Some?
    ensures r.Ok? ==> r.value == FaceItem(raw.faceId.value, raw.name.value)
  {
    if raw.faceId.None? then Err(Missing("face_id"))
    else if raw.name.None? then Err(Missing("name"))
    else Ok(FaceItem(raw.faceId.value, raw.name.value))
  }

  // ---------------------------------------------------------------------
  // SceneHit
  // ---------------------------------------------------------------------

  datatype SceneHit = SceneHit(
    score: real,
    sceneId: string,
    sceneDescription: string,
    visualCaption: string,
    audioSummarization: string,
    audioTranscription: string,
    faces: seq<FaceItem>,
    startTimeSec: real,
    endTimeSec: real,
    contentId: string,
    videoTitle: string,
    videoName: string,
    videoSummary: string,
    videoTags: seq<string>,
    videoDurationSec: real,
    videoCreatedAt: string,
    resolution: string,
    fps: real,
    programId: string,
    broadcastDate: string,
    contentTypeId: string,
    category: string,
    createdDate: string,
    author: string)

  /** The keyword arguments a `SceneHit(...)` call receives. Keys the model
      does not declare (such as `video_id`) are ignored and so do not
      appear here. */
  datatype RawSceneHit = RawSceneHit(
    score: Option<real>,
    sceneId: Option<string>,
    sceneDescription: Option<string>,
    visualCaption: Option<string>,
    audioSummarization: Option<string>,
    audioTranscription: Option<string>,
    faces: Option<seq<RawFaceItem>>,
    startTimeSec: Option<real>,
    endTimeSec: Option<real>,
    contentId: Option<string>,
    videoTitle: Option<string>,
    videoName: Option<string>,
    videoSummary: Option<string>,
    videoTags: Option<seq<string>>,
    videoDurationSec: Option<real>,
    videoCreatedAt: Option<string>,
    resolution: Option<string>,
    fps: Option<real>,
    programId: Option<string>,
    broadcastDate: Option<string>,
    contentTypeId: Option<string>,
    category: Option<string>,
    createdDate: Option<string>,
    author: Option<string>)

  function RawHitFaces(raw: RawSceneHit): seq<RawFaceItem> {
    raw.faces.GetOr([])
  }

  /** `score`, `scene_id`, `scene_description`, `start_time_sec`,
      `end_time_sec`, `content_id` and `video_title` are required and every
      face must be valid; the other strings default to "", the lists to []
      and the numbers to 0.0. */
  function ValidateSceneHit(raw: RawSceneHit): (r: Result<SceneHit, Invalid>)
    ensures r.Ok? <==>
      && raw.score.Some? && raw.sceneId.Some? && raw.sceneDescription.Some?
      && raw.startTimeSec.Some? && raw.endTimeSec.Some?
      && raw.contentId.Some? && raw.videoTitle.Some?
      && forall i :: 0 <= i < |RawHitFaces(raw)| ==> ValidateFaceItem(RawHitFaces(raw)[i]).Ok?
    // the required keys are kept and every face validated
    ensures r.Ok? ==>
      && r.value.score == raw.score.value && r.value.sceneId == raw.sceneId.value
      && r.value.sceneDescription == raw.sceneDescription.value
      && r.value.startTimeSec == raw.startTimeSec.value && r.value.endTimeSec == raw.endTimeSec.value
      && r.value.contentId == raw.contentId.value && r.value.videoTitle == raw.videoTitle.value
      && |r.value.faces| == |RawHitFaces(raw)|
      && (forall i :: 0 <= i < |RawHitFaces(raw)| ==> r.value.faces[i] == ValidateFaceItem(RawHitFaces(raw)[i]).value)
    // the optional keys are kept when given, and default to "", [] or 0.0
    ensures r.Ok? ==>
      && r.value.visualCaption == raw.visualCaption.GetOr("")
      && r.value.audioSummarization == raw.audioSummarization.GetOr("")
      && r.value.audioTranscription == raw.audioTranscription.GetOr("")
      && r.value.videoName == raw.videoName.GetOr("")
      && r.value.videoSummary == raw.videoSummary.GetOr("")
      && r.value.videoTags == raw.videoTags.GetOr([])
      && r.value.videoDurationSec == raw.videoDurationSec.GetOr(0.0)
      && r.value.videoCreatedAt == raw.videoCreatedAt.GetOr("")
      && r.value.resolution == raw.resolution.GetOr("")
      && r.value.fps == raw.fps.GetOr(0.0)
      && r.value.programId == raw.programId.GetOr("")
      && r.value.broadcastDate == raw.broadcastDate.GetOr("")
      && r.value.contentTypeId == raw.contentTypeId.GetOr("")
      && r.value.category == raw.category.GetOr("")
      && r.value.createdDate == raw.createdDate.GetOr("")
      && r.value.author == raw.author.GetOr("")
  {
    if raw.score.None? then Err(Missing("score"))
    else if raw.sceneId.None? then Err(Missing("scene_id"))
    else if raw.sceneDescription.None? then Err(Missing("scene_description"))
    else if raw.startTimeSec.None? then Err(Missing("start_time_sec"))
    else if raw.endTimeSec.None? then Err(Missing("end_time_sec"))
    else if raw.contentId.None? then Err(Missing("content_id"))
    else if raw.videoTitle.None? then Err(Missing("video_title"))
    else
      var faces :- ValidateEach(RawHitFaces(raw), ValidateFaceItem);
      Ok(SceneHit(
        raw.score.value, raw.sceneId.value, raw.sceneDescription.value, raw.visualCaption.GetOr(""),
        raw.audioSummarization.GetOr(""), raw.audioTranscription.GetOr(""), faces,
        raw.startTimeSec.value, raw.endTimeSec.value, raw.contentId.value, raw.videoTitle.value,
        raw.videoName.GetOr(""), raw.videoSummary.GetOr(""), raw.videoTags.GetOr([]),
        raw.videoDurationSec.GetOr(0.0), raw.videoCreatedAt.GetOr(""), raw.resolution.GetOr(""),
        raw.fps.GetOr(0.0), raw.programId.GetOr(""), raw.broadcastDate.GetOr(""),
        raw.contentTypeId.GetOr(""), raw.category.GetOr(""), raw.createdDate.GetOr(""),
        raw.author.GetOr("")))
  }

  function DumpFaceItem(f: FaceItem): RawFaceItem {
    RawFaceItem(Some(f.faceId), Some(f.name))
  }

  function DumpFaceItems(fs: seq<FaceItem>): (raws: seq<RawFaceItem>)
    ensures |raws| == |fs| && forall i :: 0 <= i < |fs| ==> raws[i] == DumpFaceItem(fs[i])
  {
    seq(|fs|, i requires 0 <= i < |fs| => DumpFaceItem(fs[i]))
  }

  function DumpSceneHit(h: SceneHit): RawSceneHit {
    RawSceneHit(
      Some(h.score), Some(h.sceneId), Some(h.sceneDescription), Some(h.visualCaption),
      Some(h.audioSummarization), Some(h.audioTranscription), Some(DumpFaceItems(h.faces)),
      Some(h.startTimeSec), Some(h.endTimeSec), Some(h.contentId), Some(h.videoTitle),
      Some(h.videoName), Some(h.videoSummary), Some(h.videoTags), Some(h.videoDurationSec),
      Some(h.videoCreatedAt), Some(h.resolution), Some(h.fps), Some(h.programId),
      Some(h.broadcastDate), Some(h.contentTypeId), Some(h.category), Some(h.createdDate),
      Some(h.author))
  }

  /** A dumped hit validates to itself. */
  lemma SceneHitRoundTrip(h: SceneHit)
    ensures ValidateSceneHit(DumpSceneHit(h)) == Ok(h)
  {
    var raw := DumpSceneHit(h);
    var faces := ValidateEach(RawHitFaces(raw), ValidateFaceItem);
    assert faces.Ok?;
    assert faces.value == h.faces;
  }

  /** The seven required keys alone give a hit of defaults. */
  lemma SceneHitDefaults(score: real, id: string, desc: string, start: real, end: real, content: string, title: string)
    ensures ValidateSceneHit(RawSceneHit(
      Some(score), Some(id), Some(desc), None, None, None, None, Some(start), Some(end), Some(content),
      Some(title), None, None, None, None, None, None, None, None, None, None, None, None, None))
      == Ok(SceneHit(score, id, desc, "", "", "", [], start, end, content, title, "", "", [], 0.0, "",
                     "", 0.0, "", "", "", "", "", ""))
  {
  }

  // ---------------------------------------------------------------------
  // Facets
  // ---------------------------------------------------------------------

  datatype FacetItem = FacetItem(value: string, count: int, sceneIds: seq<string>)

  /** Six facet lists, each defaulting to []. */
  datatype Facets = Facets(
    category: seq<FacetItem>,
    createdDate: seq<FacetItem>,
    author: seq<FacetItem>,
    broadcastDate: seq<FacetItem>,
    programId: seq<FacetItem>,
    contentTypeId: seq<FacetItem>)

  datatype RawFacets = RawFacets(
    category: Option<seq<FacetItem>>,
    createdDate: Option<seq<FacetItem>>,
    author: Option<seq<FacetItem>>,
    broadcastDate: Option<seq<FacetItem>>,
    programId: Option<seq<FacetItem>>,
    contentTypeId: Option<seq<FacetItem>>)

  /** Every list is optional: a missing one is []. */
  function ValidateFacets(raw: RawFacets): (r: Facets)
    // a list that is given is kept
    ensures raw.category.Some? ==> r.category == raw.category.value
    ensures raw.createdDate.Some? ==> r.createdDate == raw.createdDate.value
    ensures raw.author.Some? ==> r.author == raw.author.value
    ensures raw.broadcastDate.Some? ==> r.broadcastDate == raw.broadcastDate.value
    ensures raw.programId.Some? ==> r.programId == raw.programId.value
    ensures raw.contentTypeId.Some? ==> r.contentTypeId == raw.contentTypeId.value
    // a missing one is []
    ensures raw.category.None? ==> r.category == []
    ensures raw.createdDate.None? ==> r.createdDate == []
    ensures raw.author.None? ==> r.author == []
    ensures raw.broadcastDate.None? ==> r.broadcastDate == []
    ensures raw.programId.None? ==> r.programId == []
    ensures raw.contentTypeId.None? ==> r.contentTypeId == []
  {
    Facets(
      raw.category.GetOr([]), raw.createdDate.GetOr([]), raw.author.GetOr([]),
      raw.broadcastDate.GetOr([]), raw.programId.GetOr([]), raw.contentTypeId.GetOr([]))
  }

  /** `facets` is optional and defaults to None. */
  datatype SearchResponse = SearchResponse(total: int, hits: seq<SceneHit>, facets: Option<Facets>)

  // ---------------------------------------------------------------------
  // ContentHit
  // ---------------------------------------------------------------------

  datatype ContentHit = ContentHit(
    score: real,
    contentId: string,
    title: string,
    description: string,
    videoSummary: string,
    tags: seq<string>,
    durationSec: real,
    createdAt: string,
    category: string,
    author: string,
    videoName: string,
    resolution: string,
    fps: real,
    programId: string,
    broadcastDate: string,
    contentTypeId: string)

  datatype RawContentHit = RawContentHit(
    score: Option<real>,
    contentId: Option<string>,
    title: Option<string>,
    description: Option<string>,
    videoSummary: Option<string>,
    tags: Option<seq<string>>,
    durationSec: Option<real>,
    createdAt: Option<string>,
    category: Option<string>,
    author: Option<string>,
    videoName: Option<string>,
    resolution: Option<string>,
    fps: Option<real>,
    programId: Option<string>,
    broadcastDate: Option<string>,
    contentTypeId: Option<string>)

  /** `score`, `content_id` and `title` are required; `description`
      defaults to "", `tags` to [] and `duration_sec` to 0.0. */
  function ValidateContentHit(raw: RawContentHit): (r: Result<ContentHit, Invalid>)
    ensures r.Ok? <==> raw.score.Some? && raw.contentId.Some? && raw.title.Some?
    ensures r.Ok? ==>
      && r.value.contentId == raw.contentId.value && r.value.title == raw.title.value
      && r.value.description == raw.description.GetOr("")
      && r.value.tags == raw.tags.GetOr([])
      && r.value.durationSec == raw.durationSec.GetOr(0.0)
      && r.value.score == raw.score.value
      && r.value.fps == raw.fps.GetOr(0.0)
      && r.value.videoSummary == raw.videoSummary.GetOr("")
      && r.value.createdAt == raw.createdAt.GetOr("")
      && r.value.category == raw.category.GetOr("")
      && r.value.author == raw.author.GetOr("")
      && r.value.videoName == raw.videoName.GetOr("")
      && r.value.resolution == raw.resolution.GetOr("")
      && r.value.programId == raw.programId.GetOr("")
      && r.value.broadcastDate == raw.broadcastDate.GetOr("")
      && r.value.contentTypeId == raw.contentTypeId.GetOr("")
  {
    if raw.score.None? then Err(Missing("score"))
    else if raw.contentId.None? then Err(Missing("content_id"))
    else if raw.title.None? then Err(Missing("title"))
    else Ok(ContentHit(
      raw.score.value, raw.contentId.value, raw.title.value, raw.description.GetOr(""),
      raw.videoSummary.GetOr(""), raw.tags.GetOr([]), raw.durationSec.GetOr(0.0),
      raw.createdAt.GetOr(""), raw.category.GetOr(""), raw.author.GetOr(""),
      raw.videoName.GetOr(""), raw.resolution.GetOr(""), raw.fps.GetOr(0.0),
      raw.programId.GetOr(""), raw.broadcastDate.GetOr(""), raw.contentTypeId.GetOr("")))
  }

  function DumpContentHit(h: ContentHit): RawContentHit {
    RawContentHit(
      Some(h.score), Some(h.contentId), Some(h.title), Some(h.description), Some(h.videoSummary),
      Some(h.tags), Some(h.durationSec), Some(h.createdAt), Some(h.category), Some(h.author),
      Some(h.videoName), Some(h.resolution), Some(h.fps), Some(h.programId), Some(h.broadcastDate),
      Some(h.contentTypeId))
  }

  lemma ContentHitRoundTrip(h: ContentHit)
    ensures ValidateContentHit(DumpContentHit(h)) == Ok(h)
  {
  }

  datatype ContentFacetItem = ContentFacetItem(value: string, count: int, contentIds: seq<string>)

  /** Five facet lists: no `created_date`. */
  datatype ContentFacets = ContentFacets(
    category: seq<ContentFacetItem>,
    author: seq<ContentFacetItem>,
    broadcastDate: seq<ContentFacetItem>,
    programId: seq<ContentFacetItem>,
    contentTypeId: seq<ContentFacetItem>)

  datatype ContentSearchResponse = ContentSearchResponse(total: int, hits: seq<ContentHit>, facets: Option<ContentFacets>)

  function ToFacetItems(items: seq<MQ.FacetItem>): (r: seq<FacetItem>)
    ensures |r| == |items|
    ensures forall i :: 0 <= i < |items| ==>
      r[i] == FacetItem(items[i].value, items[i].count, items[i].ids)
  {
    seq(|items|, i requires 0 <= i < |items| => FacetItem(items[i].value, items[i].count, items[i].ids))
  }

  /** `Facets(**build_scene_facets(hits))`: the three computed lists, and
      [] for the three the facet code does not fill. */
  function FacetsOf(f: MQ.SceneFacets): (r: Facets)
    ensures r.broadcastDate == [] && r.programId == [] && r.contentTypeId == []
  {
    Facets(ToFacetItems(f.category), ToFacetItems(f.createdDate), ToFacetItems(f.author), [], [], [])
  }

  function ToContentFacetItems(items: seq<MQ.FacetItem>): (r: seq<ContentFacetItem>)
    ensures |r| == |items|
    ensures forall i :: 0 <= i < |items| ==>
      r[i] == ContentFacetItem(items[i].value, items[i].count, items[i].ids)
  {
    seq(|items|, i requires 0 <= i < |items| => ContentFacetItem(items[i].value, items[i].count, items[i].ids))
  }

  /** `ContentFacets(**build_content_facets(hits))`: the two computed
      lists, and [] for the other three. */
  function ContentFacetsOf(f: MQ.ContentFacets): (r: ContentFacets)
    ensures r.broadcastDate == [] && r.programId == [] && r.contentTypeId == []
  {
    ContentFacets(ToContentFacetItems(f.category), ToContentFacetItems(f.author), [], [], [])
  }
}
