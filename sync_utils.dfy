/** The shared sync utilities: the transform from a `video_queue` document
    to scene records, the scene-id extraction, and the upsert / delete of
    scene records in the configured vector backend (Milvus or OpenSearch).
    The backend's index is a map from scene id to the row last written
    under it. */
module SyncUtils {
  import opened Wrappers
  import opened Text
  import opened StepRuns
  import opened Json
  import opened Documents
  import MilvusFilter

  // ---------------------------------------------------------------------
  // The transform
  // ---------------------------------------------------------------------

  /** The `video` block every scene record of a document carries. */
  datatype VideoBlock = VideoBlock(
    videoId: string,
    videoTitle: string,
    videoDescription: string,
    videoTags: seq<string>,
    videoDurationSec: Option<real>,
    videoCreatedAt: Option<DateValue>)

  /** One SceneIngestItem-compatible record. */
  datatype SceneRecord = SceneRecord(
    sceneId: string,
    description: string,
    startSec: real,
    endSec: real,
    video: VideoBlock,
    category: string,
    createdDate: string,
    author: string)

  function AudioOf(d: MongoDoc): Option<Audio> {
    match d.enriched
    case None => None
    case Some(e) => e.audio
  }

  /** `enriched.get("audio", {}).get("scene_summaries", {})`. */
  function SceneSummaries(d: MongoDoc): map<string, string> {
    match AudioOf(d)
    case None => map[]
    case Some(a) => a.sceneSummaries.GetOr(map[])
  }

  /** The audio metadata transcription, falling back to the audio
      transcription when the first is missing or empty. */
  function VideoDescription(d: MongoDoc): (r: string)
    ensures AudioOf(d).None? ==> r == ""
  {
    match AudioOf(d)
    case None => ""
    case Some(a) =>
      var fromMetadata := match a.metadata case None => "" case Some(m) => m.transcription.GetOr("");
      if fromMetadata != "" then fromMetadata else a.transcription.GetOr("")
  }

  /** `enriched.get("video_info", {}).get("duration", "")`. */
  function DurationText(d: MongoDoc): string {
    match d.enriched
    case None => ""
    case Some(e) => match e.videoInfo case None => "" case Some(v) => v.duration.GetOr("")
  }

  /** The video duration: the document's own `video_duration_sec`, else the
      `video_info.duration` text when it contains ':' and parses; a parse
      failure gives None and is never raised. */
  function DurationOf(d: MongoDoc): (r: Option<real>)
    ensures d.videoDurationSec.Some? ==> r == d.videoDurationSec
    ensures d.videoDurationSec.None? && r.Some? ==>
      ':' in DurationText(d) && ParseTimeToSec(DurationText(d)) == Ok(r.value)
    ensures d.videoDurationSec.None? && ':' in DurationText(d) && ParseTimeToSec(DurationText(d)).Ok? ==>
      r == Some(ParseTimeToSec(DurationText(d)).value)
  {
    if d.videoDurationSec.Some? then d.videoDurationSec
    else
      var text := DurationText(d);
      if text != "" && ':' in text then
        match ParseTimeToSec(text)
        case Ok(x) => Some(x)
        case Err(_) => None
      else None
  }

  /** The block shared by all records of a document. */
  function VideoBlockOf(d: MongoDoc): (v: VideoBlock)
    ensures v.videoId == VideoKey(d)
    ensures v.videoDurationSec == DurationOf(d)
  {
    VideoBlock(VideoKey(d), d.title.GetOr(""), VideoDescription(d), d.videoTags.GetOr([]),
               DurationOf(d), d.videoCreatedAt)
  }

  /** The caption fused with an audio summary: when the summary is non-empty
      the two are joined by a newline and stripped; otherwise the caption
      alone, unstripped. */
  function Describe(caption: string, summary: string): string {
    if summary != "" then Strip(caption + "\n" + summary) else caption
  }

  /** `scene.get("start", 0)` read as seconds: a missing value is 0, a number
      is taken as it is, a string goes through the time parser (which may
      raise). */
  function TimeSec(t: Option<TimeValue>): Result<real, Raised> {
    match t
    case None => Ok(0.0)
    case Some(TimeNumber(x)) => Ok(x)
    case Some(TimeText(s)) => ParseTimeToSec(s)
  }

  /** `scene.get("category", scene.get("video_type", ""))`. */
  function CategoryOf(e: SceneEntry): string {
    match e.category
    case Some(c) => c
    case None => e.videoType.GetOr("")
  }

  /** The record for the scene at position `idx`. The start time is parsed
      first, then the end time, then `scene["scene_id"]` is read. */
  function SceneOf(d: MongoDoc, idx: nat, e: SceneEntry): (r: Result<SceneRecord, Raised>)
    ensures r.Ok? ==> e.sceneId == Some(r.value.sceneId)
  {
    var start :- TimeSec(e.start);
    var end :- TimeSec(e.end);
    if e.sceneId.None? then Err(KeyError("scene_id"))
    else
      var summary := if NatToString(idx) in SceneSummaries(d) then SceneSummaries(d)[NatToString(idx)] else "";
      Ok(SceneRecord(e.sceneId.value, Describe(e.captioning.GetOr(""), summary), start, end,
                     VideoBlockOf(d), CategoryOf(e), e.createdDate.GetOr(""), e.author.GetOr("")))
  }

  /** One step per entry of the scene list: its record, or what it raises. */
  function SceneSteps(d: MongoDoc): (rs: seq<Result<SceneRecord, Raised>>)
    ensures |rs| == |SceneList(d)|
  {
    seq(|SceneList(d)|, i requires 0 <= i < |SceneList(d)| => SceneOf(d, i, SceneList(d)[i]))
  }

  /** `transform_mongo_doc`. */
  function Transform(d: MongoDoc): Result<seq<SceneRecord>, Raised> {
    if !Completed(d) || SceneList(d) == [] then Ok([])
    else Collect(SceneSteps(d))
  }

  /** `transform_mongo_doc`, as the source writes it: one pass over the
      scene list appending one record per scene. */
  method TransformMongoDoc(d: MongoDoc) returns (r: Result<seq<SceneRecord>, Raised>)
    ensures r == Transform(d)
  {
    if !Completed(d) {
      return Ok([]);
    }
    var sceneList := SceneList(d);
    if sceneList == [] {
      return Ok([]);
    }
    ghost var steps := SceneSteps(d);
    var scenes: seq<SceneRecord> := [];
    var idx := 0;
    while idx < |sceneList|
      invariant 0 <= idx <= |sceneList|
      invariant Collect(steps[..idx]) == Ok(scenes)
    {
      var one := SceneOf(d, idx, sceneList[idx]);
      assert steps[..idx + 1][..idx] == steps[..idx] && steps[..idx + 1][idx] == one;
      if one.Err? {
        CollectErr(steps, idx + 1);
        return Err(one.error);
      }
      scenes := scenes + [one.value];
      idx := idx + 1;
    }
    assert steps[..idx] == steps;
    return Ok(scenes);
  }

  /** A document that is not completed, or has no scenes, gives no records. */
  lemma TransformGate(d: MongoDoc)
    requires !Completed(d) || SceneList(d) == []
    ensures Transform(d) == Ok([])
  {
  }

  /** The scene has an id and readable start and end times. */
  predicate EntryOk(e: SceneEntry) {
    e.sceneId.Some? && TimeSec(e.start).Ok? && TimeSec(e.end).Ok?
  }

  lemma SceneOfOk(d: MongoDoc, idx: nat, e: SceneEntry)
    ensures SceneOf(d, idx, e).Ok? <==> EntryOk(e)
  {
  }

  /** The transform of a completed document with scenes, step by step: it
      succeeds exactly when every scene is well formed, and then holds each
      scene's record at the scene's position. */
  lemma TransformSteps(d: MongoDoc)
    requires Completed(d) && SceneList(d) != []
    ensures Transform(d).Ok? <==> forall i :: 0 <= i < |SceneList(d)| ==> EntryOk(SceneList(d)[i])
    ensures Transform(d).Ok? ==> (|Transform(d).value| == |SceneList(d)|
      && forall i :: 0 <= i < |SceneList(d)| ==> SceneOf(d, i, SceneList(d)[i]) == Ok(Transform(d).value[i]))
  {
    var steps := SceneSteps(d);
    CollectOk(steps);
    forall i | 0 <= i < |SceneList(d)|
      ensures steps[i].Ok? <==> EntryOk(SceneList(d)[i])
    {
      SceneOfOk(d, i, SceneList(d)[i]);
    }
  }

  /** For a completed document with scenes, the transform succeeds exactly
      when every scene has an id and readable start and end times; it then
      gives one record per scene, in order, with `scene_id` copied and every
      record carrying the same video block, whose `video_id` is `unique_id`
      falling back to `str(_id)`. */
  lemma TransformRecords(d: MongoDoc)
    requires Completed(d) && SceneList(d) != []
    ensures Transform(d).Ok? <==> forall i :: 0 <= i < |SceneList(d)| ==> EntryOk(SceneList(d)[i])
    ensures Transform(d).Ok? ==>
      var rs := Transform(d).value;
      && |rs| == |SceneList(d)|
      && forall i :: 0 <= i < |rs| ==>
        && Some(rs[i].sceneId) == SceneList(d)[i].sceneId
        && rs[i].video == VideoBlockOf(d)
        && rs[i].video.videoId == VideoKey(d)
  {
    TransformSteps(d);
    if Transform(d).Ok? {
      var rs := Transform(d).value;
      forall i | 0 <= i < |rs| ensures rs[i].video == VideoBlockOf(d) {
        assert SceneOf(d, i, SceneList(d)[i]) == Ok(rs[i]);
      }
    }
  }

  /** The description of the scene at position idx fuses the caption with
      the `scene_summaries` entry keyed by `str(idx)`. */
  lemma TransformDescription(d: MongoDoc, idx: nat)
    requires Transform(d).Ok? && Completed(d) && idx < |SceneList(d)|
    ensures var e := SceneList(d)[idx];
      var key := NatToString(idx);
      var summary := if key in SceneSummaries(d) then SceneSummaries(d)[key] else "";
      && idx < |Transform(d).value|
      && Transform(d).value[idx].description == Describe(e.captioning.GetOr(""), summary)
      && Transform(d).value[idx].category == CategoryOf(e)
  {
    TransformSteps(d);
    assert SceneOf(d, idx, SceneList(d)[idx]) == Ok(Transform(d).value[idx]);
  }

  /** A document without `video_duration_sec` whose `video_info.duration`
      is "h:m:s" gets h*3600 + m*60 + s as its duration. */
  lemma DurationFromVideoInfo(d: MongoDoc, h: nat, m: nat, s: nat)
    requires d.videoDurationSec.None?
    requires DurationText(d) == ClockText(h, m, s)
    ensures DurationOf(d) == Some(h as real * 3600.0 + m as real * 60.0 + s as real)
  {
    ParseTimeOfFields(h, m, s);
    DurationOfText(d, ClockText(h, m, s), h as real * 3600.0 + m as real * 60.0 + s as real);
  }

  /** A duration text with a colon that parses gives the duration. */
  lemma DurationOfText(d: MongoDoc, text: string, x: real)
    requires d.videoDurationSec.None? && DurationText(d) == text
    requires ':' in text && ParseTimeToSec(text) == Ok(x)
    ensures DurationOf(d) == Some(x)
  {
  }

  // ---------------------------------------------------------------------
  // get_scene_ids_from_doc
  // ---------------------------------------------------------------------

  /** The `scene_id`s of the entries that have one, in list order. */
  function SceneIdsOf(entries: seq<SceneEntry>): (ids: seq<string>)
    ensures |ids| <= |entries|
    ensures forall i :: 0 <= i < |entries| && entries[i].sceneId.Some? ==> entries[i].sceneId.value in ids
    ensures forall x :: x in ids ==> exists i :: 0 <= i < |entries| && entries[i].sceneId == Some(x)
  {
    if entries == [] then []
    else
      var rest := SceneIdsOf(entries[1..]);
      assert forall i :: 1 <= i < |entries| ==> entries[i] == entries[1..][i - 1];
      match entries[0].sceneId
      case Some(x) => [x] + rest
      case None => rest
  }

  /** One entry contributes its `scene_id`, or nothing when it has none. */
  lemma SceneIdsOne(e: SceneEntry)
    ensures SceneIdsOf([e]) == if e.sceneId.Some? then [e.sceneId.value] else []
  {
    assert [e][1..] == [];
  }

  /** The ids of two stretches of entries are the ids of the first, then
      those of the second: order and multiplicity follow the list. */
  lemma {:induction false} SceneIdsConcat(a: seq<SceneEntry>, b: seq<SceneEntry>)
    ensures SceneIdsOf(a + b) == SceneIdsOf(a) + SceneIdsOf(b)
  {
    if a == [] {
      assert a + b == b;
    } else {
      assert (a + b)[0] == a[0];
      assert (a + b)[1..] == a[1..] + b;
      SceneIdsConcat(a[1..], b);
      match a[0].sceneId
      case Some(x) => AppendAssoc([x], SceneIdsOf(a[1..]), SceneIdsOf(b));
      case None =>
    }
  }

  /** `get_scene_ids_from_doc`: it reads the scene list whatever the status. */
  function GetSceneIds(d: MongoDoc): seq<string> {
    SceneIdsOf(SceneList(d))
  }

  function RecordIds(rs: seq<SceneRecord>): (ids: seq<string>)
    ensures |ids| == |rs|
    ensures forall i :: 0 <= i < |rs| ==> ids[i] == rs[i].sceneId
  {
    seq(|rs|, i requires 0 <= i < |rs| => rs[i].sceneId)
  }

  lemma {:induction false} SceneIdsAllPresent(entries: seq<SceneEntry>)
    requires forall i :: 0 <= i < |entries| ==> entries[i].sceneId.Some?
    ensures |SceneIdsOf(entries)| == |entries|
    ensures forall i :: 0 <= i < |entries| ==> SceneIdsOf(entries)[i] == entries[i].sceneId.value
  {
    if entries != [] {
      SceneIdsAllPresent(entries[1..]);
    }
  }

  /** For a document the transform accepts, the extracted scene ids are
      exactly the ids of the transformed records, in the same order. */
  lemma SceneIdsMatchTransform(d: MongoDoc)
    requires Completed(d) && Transform(d).Ok?
    ensures GetSceneIds(d) == RecordIds(Transform(d).value)
  {
    if SceneList(d) != [] {
      TransformRecords(d);
      SceneIdsAllPresent(SceneList(d));
    }
  }

  // ---------------------------------------------------------------------
  // Backend rows
  // ---------------------------------------------------------------------

  datatype Backend = Milvus | OpenSearch

  /** `settings.backend == "milvus"`; any other setting means OpenSearch. */
  function BackendOf(setting: string): (b: Backend)
    ensures b == Milvus <==> setting == "milvus"
  {
    if setting == "milvus" then Milvus else OpenSearch
  }

  /** A Milvus scene row. `embeddedText` is the text whose embedding the
      row's vector holds. */
  datatype MilvusSceneRow = MilvusSceneRow(
    sceneId: string,
    description: string,
    startSec: real,
    endSec: real,
    videoId: string,
    videoTitle: string,
    videoDescription: string,
    videoTags: JsonText<seq<string>>,
    videoDurationSec: real,
    videoCreatedAt: string,
    category: string,
    createdDate: string,
    author: string,
    embeddedText: string)

  /** An OpenSearch scene document, stored under `_id`. */
  datatype OpenSearchSceneRow = OpenSearchSceneRow(
    id: string,
    videoId: string,
    videoTitle: string,
    videoDescription: string,
    videoTags: seq<string>,
    videoDurationSec: Option<real>,
    videoCreatedAt: Option<string>,
    sceneId: string,
    description: string,
    startSec: real,
    endSec: real)

  datatype SceneRow = MilvusRow(milvus: MilvusSceneRow) | OpenSearchRow(openSearch: OpenSearchSceneRow)

  /** The key a row is stored under: the Milvus primary key `scene_id`, or
      the OpenSearch `_id`. */
  function RowKey(row: SceneRow): string {
    match row
    case MilvusRow(m) => m.sceneId
    case OpenSearchRow(o) => o.id
  }

  /** The combined text that is embedded: description and title joined by a
      space, stripped. */
  function EmbedText(description: string, title: string): string {
    Strip(description + " " + title)
  }

  /** `video_created_at` for Milvus: the ISO text of a date, the string
      itself, or "" when missing. */
  function CreatedAtText(v: Option<DateValue>): string {
    match v
    case None => ""
    case Some(DateTime(iso)) => iso
    case Some(DateText(t)) => t
  }

  function MilvusRowOf(s: SceneRecord): (row: SceneRow)
    ensures RowKey(row) == s.sceneId
  {
    MilvusRow(MilvusSceneRow(
      s.sceneId, s.description, s.startSec, s.endSec, s.video.videoId, s.video.videoTitle,
      s.video.videoDescription, Dumps(s.video.videoTags), s.video.videoDurationSec.GetOr(0.0),
      CreatedAtText(s.video.videoCreatedAt), s.category, s.createdDate, s.author,
      EmbedText(s.description, s.video.videoTitle)))
  }

  function OpenSearchRowOf(s: SceneRecord): (row: SceneRow)
    ensures RowKey(row) == s.sceneId
  {
    var createdAt := match s.video.videoCreatedAt
      case None => None
      case Some(DateTime(iso)) => Some(iso)
      case Some(DateText(t)) => Some(t);
    OpenSearchRow(OpenSearchSceneRow(
      s.sceneId, s.video.videoId, s.video.videoTitle, s.video.videoDescription, s.video.videoTags,
      s.video.videoDurationSec, createdAt, s.sceneId, s.description, s.startSec, s.endSec))
  }

  function RowOf(backend: Backend, s: SceneRecord): (row: SceneRow)
    ensures RowKey(row) == s.sceneId
  {
    if backend == Milvus then MilvusRowOf(s) else OpenSearchRowOf(s)
  }

  /** The rows built for a batch of records, one per record, in order. */
  function RowsFor(backend: Backend, records: seq<SceneRecord>): (rows: seq<SceneRow>)
    ensures |rows| == |records|
    ensures forall i :: 0 <= i < |records| ==> rows[i] == RowOf(backend, records[i])
  {
    seq(|records|, i requires 0 <= i < |records| => RowOf(backend, records[i]))
  }

  // ---------------------------------------------------------------------
  // The keyed index
  // ---------------------------------------------------------------------

  /** The keys of the rows that the backend accepts. */
  function AcceptedKeys(rows: seq<SceneRow>, rejects: set<string>): (keys: set<string>)
    ensures forall i :: 0 <= i < |rows| && RowKey(rows[i]) !in rejects ==> RowKey(rows[i]) in keys
    ensures forall k :: k in keys ==> k !in rejects && exists i :: 0 <= i < |rows| && RowKey(rows[i]) == k
  {
    if rows == [] then {}
    else
      var prefix := rows[..|rows| - 1];
      var k := RowKey(rows[|rows| - 1]);
      assert forall i :: 0 <= i < |rows| - 1 ==> rows[i] == prefix[i];
      AcceptedKeys(prefix, rejects) + (if k in rejects then {} else {k})
  }

  /** The index after writing the rows in order: each accepted row replaces
      whatever was stored under its key. */
  function Upserted(m: map<string, SceneRow>, rows: seq<SceneRow>, rejects: set<string>): map<string, SceneRow> {
    if rows == [] then m
    else
      var last := rows[|rows| - 1];
      var before := Upserted(m, rows[..|rows| - 1], rejects);
      if RowKey(last) in rejects then before else before[RowKey(last) := last]
  }

  /** The row an accepted key ends up holding: the last accepted row with
      that key. */
  function LastRowWith(rows: seq<SceneRow>, k: string, rejects: set<string>): SceneRow
    requires k in AcceptedKeys(rows, rejects)
  {
    var last := rows[|rows| - 1];
    if RowKey(last) == k && k !in rejects then last else LastRowWith(rows[..|rows| - 1], k, rejects)
  }

  /** Writing rows by key: the stored keys are the old keys plus the
      accepted row keys; an accepted key holds its last row, every other key
      keeps its old row. */
  lemma {:induction false} UpsertedAt(m: map<string, SceneRow>, rows: seq<SceneRow>, rejects: set<string>)
    ensures Upserted(m, rows, rejects).Keys == m.Keys + AcceptedKeys(rows, rejects)
    ensures forall k :: k in Upserted(m, rows, rejects) ==>
      Upserted(m, rows, rejects)[k] ==
        if k in AcceptedKeys(rows, rejects) then LastRowWith(rows, k, rejects) else m[k]
  {
    if rows != [] {
      UpsertedAt(m, rows[..|rows| - 1], rejects);
    }
  }

  /** Writing the same rows twice leaves the same index as writing them
      once: rows are keyed, so a repeated upsert only rewrites equal rows. */
  lemma UpsertTwice(m: map<string, SceneRow>, rows: seq<SceneRow>, rejects: set<string>)
    ensures Upserted(Upserted(m, rows, rejects), rows, rejects) == Upserted(m, rows, rejects)
  {
    var once := Upserted(m, rows, rejects);
    UpsertedAt(m, rows, rejects);
    UpsertedAt(once, rows, rejects);
    var twice := Upserted(once, rows, rejects);
    assert twice.Keys == once.Keys;
    forall k | k in twice ensures twice[k] == once[k] {
    }
  }

  /** The ids that a delete removes: those the backend does not refuse. */
  function Removable(ids: seq<string>, rejects: set<string>): (r: set<string>)
    ensures forall x :: x in r <==> x in ids && x !in rejects
  {
    set x | x in ids && x !in rejects
  }

  /** Re-syncing a video is "delete these rows, then write these rows".
      Doing it twice leaves the index as doing it once. */
  lemma ResyncTwice(m: map<string, SceneRow>, gone: set<string>, rows: seq<SceneRow>, rejects: set<string>)
    ensures var once := Upserted(m - gone, rows, rejects);
      Upserted(once - gone, rows, rejects) == once
  {
    var once := Upserted(m - gone, rows, rejects);
    var twice := Upserted(once - gone, rows, rejects);
    UpsertedAt(m - gone, rows, rejects);
    UpsertedAt(once - gone, rows, rejects);
    assert twice.Keys == once.Keys;
    forall k | k in twice ensures twice[k] == once[k] {
    }
  }

  /** The number of writes the backend accepts. */
  function AcceptedCount(rows: seq<SceneRow>, rejects: set<string>): (n: nat)
    ensures n <= |rows|
  {
    if rows == [] then 0
    else AcceptedCount(rows[1..], rejects) + (if RowKey(rows[0]) in rejects then 0 else 1)
  }

  /** The number of deletes that do not raise. */
  function DeletedCount(ids: seq<string>, rejects: set<string>): (n: nat)
  {
    if ids == [] then 0
    else DeletedCount(ids[..|ids| - 1], rejects) + (if ids[|ids| - 1] in rejects then 0 else 1)
  }

  // ---------------------------------------------------------------------
  // The vector backend
  // ---------------------------------------------------------------------

  /** The content record derived from a document. The transform that builds
      it is not part of this model; callers pass it in. */
  datatype ContentDoc = ContentDoc(contentId: string, source: MongoDoc)

  /** The calls the sync code makes on the backend, in order. */
  datatype Call =
    | WriteRows(rows: seq<SceneRow>)
    | DeleteByFilter(expr: string)
    | DeleteById(id: string)
    | WriteContent(content: ContentDoc)
    | DeleteContent(contentId: string)

  /** The OpenSearch delete calls, one per id. */
  function DeleteCalls(ids: seq<string>): (cs: seq<Call>)
    ensures |cs| == |ids|
    ensures forall i :: 0 <= i < |ids| ==> cs[i] == DeleteById(ids[i])
  {
    seq(|ids|, i requires 0 <= i < |ids| => DeleteById(ids[i]))
  }

  /** The delete calls of `sync_delete_scenes` for a non-empty id list:
      one filter delete on Milvus, one delete per id on OpenSearch. */
  function DeleteLog(backend: Backend, ids: seq<string>): (cs: seq<Call>)
    ensures backend == OpenSearch ==> cs == DeleteCalls(ids)
    ensures backend == Milvus ==> |cs| == 1 && cs[0].DeleteByFilter?
  {
    if backend == Milvus then [DeleteByFilter(MilvusFilter.IdListFilter("scene_id", ids))]
    else DeleteCalls(ids)
  }

  /** A backend's scene index together with the calls made on it so far. */
  datatype Index = Index(scenes: map<string, SceneRow>, calls: seq<Call>)

  /** The index after `sync_upsert_scenes(records)`: nothing happens for no
      records; otherwise the stored keys grow by the record ids the backend
      accepts, keys no record names keep their rows, and one write call is
      logged. */
  function AfterUpsert(backend: Backend, refused: set<string>, ix: Index, records: seq<SceneRecord>): (r: Index)
    ensures records == [] ==> r == ix
    ensures records != [] ==> r.calls == ix.calls + [WriteRows(RowsFor(backend, records))]
    ensures forall k :: k in r.scenes <==> k in ix.scenes || (k in RecordIds(records) && k !in refused)
    ensures forall k :: k in ix.scenes && k !in RecordIds(records) ==> r.scenes[k] == ix.scenes[k]
  {
    if records == [] then ix
    else
      var rows := RowsFor(backend, records);
      UpsertedAt(ix.scenes, rows, refused);
      AcceptedRecordKeys(backend, refused, records);
      Index(Upserted(ix.scenes, rows, refused), ix.calls + [WriteRows(rows)])
  }

  /** The accepted keys of the rows built for some records are the record
      ids the backend does not refuse. */
  lemma AcceptedRecordKeys(backend: Backend, refused: set<string>, records: seq<SceneRecord>)
    ensures forall k :: k in AcceptedKeys(RowsFor(backend, records), refused) <==> k in RecordIds(records) && k !in refused
  {
    var rows := RowsFor(backend, records);
    var ids := RecordIds(records);
    forall k ensures k in AcceptedKeys(rows, refused) <==> k in ids && k !in refused {
      if k in ids && k !in refused {
        var i :| 0 <= i < |ids| && ids[i] == k;
        assert RowKey(rows[i]) == k;
      }
      if k in AcceptedKeys(rows, refused) {
        var i :| 0 <= i < |rows| && RowKey(rows[i]) == k;
        assert ids[i] == k;
      }
    }
  }

  /** The scene ids `sync_delete_scenes(ids)` removes: none for no ids.
      OpenSearch deletes id by id, so every id it does not refuse. Milvus
      deletes the rows its `scene_id in [...]` filter selects; the ids are
      quoted without escaping, so the filter selects exactly the ids when
      none holds a backslash or a double quote (`DeletedClean`), and may
      select other rows, or none, otherwise (`MilvusFilter.IdListWidens`). */
  function Deleted(backend: Backend, refused: set<string>, ids: seq<string>): set<string> {
    if ids == [] then {}
    else if backend == Milvus then MilvusFilter.Selected("scene_id", MilvusFilter.IdListFilter("scene_id", ids))
    else Removable(ids, refused)
  }

  /** OpenSearch removes the ids it does not refuse; Milvus removes every
      id when the ids are free of backslashes and double quotes. */
  lemma DeletedClean(backend: Backend, refused: set<string>, ids: seq<string>)
    requires backend == Milvus ==> forall i :: 0 <= i < |ids| ==> MilvusFilter.Clean(ids[i])
    ensures backend == Milvus ==> Deleted(backend, refused, ids) == Removable(ids, {})
    ensures backend == OpenSearch ==> Deleted(backend, refused, ids) == Removable(ids, refused)
  {
    if backend == Milvus && ids != [] {
      MilvusFilter.IdListSelectsClean("scene_id", ids);
    }
  }

  /** The index after `sync_delete_scenes(ids)`: nothing happens for no
      ids; otherwise the rows the backend's deletes select are gone, every
      other row stays as it was, and the delete calls are logged. */
  function AfterDelete(backend: Backend, refused: set<string>, ix: Index, ids: seq<string>): (r: Index)
    ensures ids == [] ==> r == ix
    ensures ids != [] ==> r.calls == ix.calls + DeleteLog(backend, ids)
    ensures forall k :: k in r.scenes <==> k in ix.scenes && k !in Deleted(backend, refused, ids)
    ensures forall k :: k in r.scenes ==> r.scenes[k] == ix.scenes[k]
  {
    if ids == [] then ix
    else Index(ix.scenes - Deleted(backend, refused, ids), ix.calls + DeleteLog(backend, ids))
  }

  /** The configured vector backend, its scene index, and the calls made on
      it. `rejects` holds the OpenSearch ids whose write or delete fails
      (the bulk helper reports them, the delete loop logs them); Milvus
      writes and deletes are all or nothing and are not given failures. */
  class VectorStore {
    const backend: Backend
    const rejects: set<string>
    var scenes: map<string, SceneRow>
    var calls: seq<Call>

    constructor (backend: Backend, rejects: set<string>, scenes: map<string, SceneRow>)
      ensures this.backend == backend && this.rejects == rejects
      ensures this.scenes == scenes && calls == []
    {
      this.backend := backend;
      this.rejects := rejects;
      this.scenes := scenes;
      calls := [];
    }

    function State(): Index
      reads this
    {
      Index(scenes, calls)
    }

    /** The ids this backend refuses. */
    function Refused(): set<string>
      reads this
    {
      if backend == Milvus then {} else rejects
    }

    /** `sync_upsert_scenes`: nothing for no records; otherwise one batch
      of rows keyed by scene id. Milvus reports every row; OpenSearch
      reports the rows its bulk helper accepted. */
    method UpsertScenes(records: seq<SceneRecord>) returns (count: nat)
      modifies this
      ensures records == [] ==> count == 0 && scenes == old(scenes) && calls == old(calls)
      ensures records != [] ==>
        var rows := RowsFor(backend, records);
        && scenes == Upserted(old(scenes), rows, Refused())
        && calls == old(calls) + [WriteRows(rows)]
        && count == (if backend == Milvus then |records| else AcceptedCount(rows, rejects))
      ensures State() == AfterUpsert(backend, Refused(), old(State()), records)
    {
      if records == [] {
        return 0;
      }
      var rows: seq<SceneRow> := [];
      var i := 0;
      while i < |records|
        invariant 0 <= i <= |records|
        invariant |rows| == i
        invariant forall k :: 0 <= k < i ==> rows[k] == RowOf(backend, records[k])
      {
        rows := rows + [RowOf(backend, records[i])];
        i := i + 1;
      }
      assert rows == RowsFor(backend, records);
      scenes := Upserted(scenes, rows, Refused());
      calls := calls + [WriteRows(rows)];
      count := if backend == Milvus then |rows| else AcceptedCount(rows, rejects);
    }

    /** `sync_delete_scenes`: nothing for no ids. Milvus deletes by one
      `scene_id in [...]` filter and reports every id; OpenSearch deletes
      id by id, a missing id (404) counting as deleted and a failing one
      being logged and skipped. */
    method DeleteScenes(ids: seq<string>) returns (count: nat)
      modifies this
      ensures ids == [] ==> count == 0 && scenes == old(scenes) && calls == old(calls)
      ensures ids != [] && backend == Milvus ==>
        && count == |ids|
        && scenes == old(scenes) - Deleted(Milvus, {}, ids)
        && calls == old(calls) + [DeleteByFilter(MilvusFilter.IdListFilter("scene_id", ids))]
      ensures ids != [] && backend == OpenSearch ==>
        && count == DeletedCount(ids, rejects)
        && scenes == old(scenes) - Removable(ids, rejects)
        && calls == old(calls) + DeleteCalls(ids)
      ensures State() == AfterDelete(backend, Refused(), old(State()), ids)
    {
      if ids == [] {
        return 0;
      }
      if backend == Milvus {
        calls := calls + [DeleteByFilter(MilvusFilter.IdListFilter("scene_id", ids))];
        scenes := scenes - Deleted(Milvus, {}, ids);
        return |ids|;
      }
      count := DeleteEach(ids);
    }

    /** The OpenSearch delete loop, one id at a time. */
    method DeleteEach(ids: seq<string>) returns (count: nat)
      modifies this
      ensures count == DeletedCount(ids, rejects)
      ensures scenes == old(scenes) - Removable(ids, rejects)
      ensures calls == old(calls) + DeleteCalls(ids)
    {
      var deleted := 0;
      var i := 0;
      while i < |ids|
        invariant 0 <= i <= |ids|
        invariant deleted == DeletedCount(ids[..i], rejects)
        invariant scenes == old(scenes) - Removable(ids[..i], rejects)
        invariant calls == old(calls) + DeleteCalls(ids[..i])
      {
        var sid := ids[i];
        calls := calls + [DeleteById(sid)];
        if sid !in rejects {
          scenes := scenes - {sid};
          deleted := deleted + 1;
        }
        DeleteStep(ids, i, rejects);
        i := i + 1;
      }
      assert ids[..i] == ids;
      return deleted;
    }

    /** The content upsert call (its effect on the content index is not part
      of this model). */
    method UpsertContent(c: ContentDoc)
      modifies this
      ensures scenes == old(scenes) && calls == old(calls) + [WriteContent(c)]
    {
      calls := calls + [WriteContent(c)];
    }

    /** The content delete call, keyed by content id. */
    method DeleteContentOf(contentId: string)
      modifies this
      ensures scenes == old(scenes) && calls == old(calls) + [DeleteContent(contentId)]
    {
      calls := calls + [DeleteContent(contentId)];
    }
  }

  /** What one more id adds to the OpenSearch delete loop's state. */
  lemma DeleteStep(ids: seq<string>, i: nat, rejects: set<string>)
    requires i < |ids|
    ensures DeletedCount(ids[..i + 1], rejects) == DeletedCount(ids[..i], rejects) + (if ids[i] in rejects then 0 else 1)
    ensures Removable(ids[..i + 1], rejects) == Removable(ids[..i], rejects) + (if ids[i] in rejects then {} else {ids[i]})
    ensures DeleteCalls(ids[..i + 1]) == DeleteCalls(ids[..i]) + [DeleteById(ids[i])]
  {
    assert ids[..i + 1][..i] == ids[..i];
    assert ids[..i + 1] == ids[..i] + [ids[i]];
  }

  /** Every delete that does not raise is counted, so the OpenSearch count
      never exceeds the number of ids, and equals it when nothing fails. */
  lemma {:induction false} DeletedCountBound(ids: seq<string>, rejects: set<string>)
    ensures DeletedCount(ids, rejects) <= |ids|
    ensures DeletedCount(ids, rejects) == |ids| <==> forall i :: 0 <= i < |ids| ==> ids[i] !in rejects
  {
    if ids != [] {
      var prefix := ids[..|ids| - 1];
      DeletedCountBound(prefix, rejects);
      assert forall i :: 0 <= i < |ids| - 1 ==> ids[i] == prefix[i];
    }
  }
}
