/** The shape of a `video_queue` document as the sync code reads it.
    Every key the code looks up is a field; `None` stands for a key that is
    absent from the document. The `_id` key is an ObjectId or a plain string. */
module Documents {
  import opened Wrappers

  /** A document's `_id`: an ObjectId (shown by str() as its hex digits) or
      any other value whose str() is the given text. */
  datatype DocId = ObjectId(hex: string) | TextId(text: string)

  /** `str(_id)`. */
  function IdText(id: DocId): string {
    match id
    case ObjectId(h) => h
    case TextId(t) => t
  }

  /** `video_created_at`: a BSON date (which has `.isoformat()`) or a string. */
  datatype DateValue = DateTime(iso: string) | DateText(text: string)

  /** A scene's `start` / `end`: an "H:MM:SS.fff" string or a number. */
  datatype TimeValue = TimeText(text: string) | TimeNumber(seconds: real)

  /** One entry of `enriched_data.scene_list`. */
  datatype SceneEntry = SceneEntry(
    sceneId: Option<string>,
    captioning: Option<string>,
    start: Option<TimeValue>,
    end: Option<TimeValue>,
    category: Option<string>,
    videoType: Option<string>,
    createdDate: Option<string>,
    author: Option<string>,
    audioSummary: Option<string>)

  /** `enriched_data.audio.metadata`. */
  datatype AudioMetadata = AudioMetadata(transcription: Option<string>)

  /** `enriched_data.audio`: per-scene summaries keyed by the scene's
      position written as a decimal string, and whole-video texts. */
  datatype Audio = Audio(
    sceneSummaries: Option<map<string, string>>,
    metadata: Option<AudioMetadata>,
    transcription: Option<string>,
    summary: Option<string>)

  /** `enriched_data.video_info`. */
  datatype VideoInfo = VideoInfo(duration: Option<string>)

  datatype Enriched = Enriched(
    sceneList: Option<seq<SceneEntry>>,
    audio: Option<Audio>,
    videoInfo: Option<VideoInfo>)

  /** A `video_queue` document. The same shape describes a `$set` body:
      there `Some` marks a key the body sets. */
  datatype MongoDoc = MongoDoc(
    id: Option<DocId>,
    uniqueId: Option<string>,
    status: Option<string>,
    title: Option<string>,
    videoDurationSec: Option<real>,
    videoCreatedAt: Option<DateValue>,
    videoTags: Option<seq<string>>,
    enriched: Option<Enriched>)

  /** A dict is truthy iff it has at least one key. */
  predicate Truthy(d: MongoDoc) {
    d.id.Some? || d.uniqueId.Some? || d.status.Some? || d.title.Some?
    || d.videoDurationSec.Some? || d.videoCreatedAt.Some? || d.videoTags.Some?
    || d.enriched.Some?
  }

  /** `doc.get("status") == "completed"`. */
  predicate Completed(d: MongoDoc) {
    d.status == Some("completed")
  }

  /** `doc.get("enriched_data", {}).get("scene_list", [])`. */
  function SceneList(d: MongoDoc): (scenes: seq<SceneEntry>)
    ensures d.enriched.None? ==> scenes == []
  {
    match d.enriched
    case None => []
    case Some(e) => e.sceneList.GetOr([])
  }

  /** `doc.get("unique_id", str(doc.get("_id", "")))`: the key the index uses
      for a video. */
  function VideoKey(d: MongoDoc): (key: string)
    ensures d.uniqueId.Some? ==> key == d.uniqueId.value
    ensures d.uniqueId.None? && d.id.Some? ==> key == IdText(d.id.value)
    ensures d.uniqueId.None? && d.id.None? ==> key == []
  {
    match d.uniqueId
    case Some(u) => u
    case None => match d.id case Some(i) => IdText(i) case None => ""
  }

  /** `collection.update_one(..., {"$set": body})`: every key the body sets
      takes the body's value; every other key keeps the document's. */
  function ApplySet(d: MongoDoc, body: MongoDoc): (r: MongoDoc)
    // a key the body sets holds the body's value
    ensures body.id.Some? ==> r.id == body.id
    ensures body.uniqueId.Some? ==> r.uniqueId == body.uniqueId
    ensures body.status.Some? ==> r.status == body.status
    ensures body.title.Some? ==> r.title == body.title
    ensures body.videoDurationSec.Some? ==> r.videoDurationSec == body.videoDurationSec
    ensures body.videoCreatedAt.Some? ==> r.videoCreatedAt == body.videoCreatedAt
    ensures body.videoTags.Some? ==> r.videoTags == body.videoTags
    ensures body.enriched.Some? ==> r.enriched == body.enriched
    // every other key keeps the document's value (or stays absent)
    ensures body.id.None? ==> r.id == d.id
    ensures body.uniqueId.None? ==> r.uniqueId == d.uniqueId
    ensures body.status.None? ==> r.status == d.status
    ensures body.title.None? ==> r.title == d.title
    ensures body.videoDurationSec.None? ==> r.videoDurationSec == d.videoDurationSec
    ensures body.videoCreatedAt.None? ==> r.videoCreatedAt == d.videoCreatedAt
    ensures body.videoTags.None? ==> r.videoTags == d.videoTags
    ensures body.enriched.None? ==> r.enriched == d.enriched
  {
    MongoDoc(
      if body.id.Some? then body.id else d.id,
      if body.uniqueId.Some? then body.uniqueId else d.uniqueId,
      if body.status.Some? then body.status else d.status,
      if body.title.Some? then body.title else d.title,
      if body.videoDurationSec.Some? then body.videoDurationSec else d.videoDurationSec,
      if body.videoCreatedAt.Some? then body.videoCreatedAt else d.videoCreatedAt,
      if body.videoTags.Some? then body.videoTags else d.videoTags,
      if body.enriched.Some? then body.enriched else d.enriched)
  }

  /** A `$set` body sets nothing at all. */
  predicate EmptyBody(body: MongoDoc) {
    !Truthy(body)
  }

  /** `$set` with a body that sets nothing leaves the document as it was,
      and setting the same body twice is the same as setting it once. */
  lemma ApplySetLaws(d: MongoDoc, body: MongoDoc)
    ensures EmptyBody(body) ==> ApplySet(d, body) == d
    ensures ApplySet(ApplySet(d, body), body) == ApplySet(d, body)
  {
  }
}
