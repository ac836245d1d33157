/** The ingest endpoints: a validated request becomes one backend record
    per scene (or per content item), in order, keyed by its id. The
    embedding model, the bulk helper and the Milvus client are parameters:
    what they answer is given, not computed. */
module IngestRoutes {
  import opened Wrappers
  import opened Http
  import opened Json
  import opened Text
  import opened SceneModels
  import SearchModels
  import SearchRoutes
  import FaceSearch
  import MQ = MilvusQueries
  import SyncUtils

  /** An embedding vector; its values are the model's and are not
      modelled. */
  type Vector = seq<real>

  /** `[{"face_id": f.face_id, "name": f.name} for f in scene.faces]`. */
  function FacesData(faces: seq<FaceInfo>): (data: seq<SearchModels.RawFaceItem>)
    ensures |data| == |faces|
    ensures forall i :: 0 <= i < |faces| ==>
      data[i] == SearchModels.RawFaceItem(Some(faces[i].faceId), Some(faces[i].name))
  {
    seq(|faces|, i requires 0 <= i < |faces| => SearchModels.RawFaceItem(Some(faces[i].faceId), Some(faces[i].name)))
  }

  /** `[f(x) for x in xs]`, built front to back as the ingest loops
      build their lists. */
  function MapSeq<A, B>(xs: seq<A>, f: A -> B): (ys: seq<B>)
    ensures |ys| == |xs|
    decreases |xs|
  {
    if xs == [] then [] else MapSeq(xs[..|xs| - 1], f) + [f(xs[|xs| - 1])]
  }

  /** Element `i` of the mapped list is `f` of element `i`. */
  lemma {:induction false} MapSeqAt<A, B>(xs: seq<A>, f: A -> B, i: int)
    requires 0 <= i < |xs|
    ensures MapSeq(xs, f)[i] == f(xs[i])
    decreases |xs|
  {
    if i < |xs| - 1 {
      MapSeqAt(xs[..|xs| - 1], f, i);
    }
  }

  // ---------------------------------------------------------------------
  // OpenSearch
  // ---------------------------------------------------------------------

  /** A bulk action of `_ingest_opensearch` (the `_index` key is the
      configured index name and is left out). It has no category,
      created_date or author. */
  datatype OpenSearchAction = OpenSearchAction(
    id: string,
    videoId: string,
    videoTitle: string,
    videoName: string,
    videoSummary: string,
    videoTags: seq<string>,
    videoDurationSec: Option<real>,
    videoCreatedAt: Option<string>,
    resolution: string,
    fps: real,
    programId: string,
    broadcastDate: string,
    contentTypeId: string,
    sceneId: string,
    sceneDescription: string,
    visualCaption: string,
    audioSummarization: string,
    audioTranscription: string,
    faces: JsonText<seq<SearchModels.RawFaceItem>>,
    startTimeSec: real,
    endTimeSec: real)

  /** The action for one scene: keyed by `scene_id`; `fps or 0.0`; the
      faces as JSON text. */
  function ActionOf(s: SceneIngestItem): (a: OpenSearchAction)
    ensures a.id == a.sceneId == s.sceneId
    ensures a.fps == s.video.fps.GetOr(0.0)
  {
    OpenSearchAction(
      s.sceneId, s.video.videoId, s.video.videoTitle, s.video.videoName, s.video.videoSummary,
      s.video.videoTags, s.video.videoDurationSec, s.video.videoCreatedAt, s.video.resolution,
      s.video.fps.GetOr(0.0), s.video.programId, s.video.broadcastDate, s.video.contentTypeId,
      s.sceneId, s.sceneDescription, s.visualCaption, s.audioSummarization, s.audioTranscription,
      Dumps(FacesData(s.faces)), s.startTimeSec, s.endTimeSec)
  }

  /** The `_source` OpenSearch stores for an action. A missing duration or
      creation time is stored as JSON null, which this model cannot hold,
      so only actions with both are stored. */
  function StoredSource(a: OpenSearchAction): SearchRoutes.OpenSearchSource
    requires a.videoDurationSec.Some? && a.videoCreatedAt.Some?
  {
    SearchRoutes.OpenSearchSource(
      Some(a.sceneId), Some(a.sceneDescription), Some(a.visualCaption), Some(a.audioSummarization),
      Some(a.audioTranscription), Encoded(a.faces), Some(a.startTimeSec), Some(a.endTimeSec),
      Some(a.videoId), Some(a.videoTitle), Some(a.videoName), Some(a.videoSummary), Some(a.videoTags),
      a.videoDurationSec, a.videoCreatedAt, Some(a.resolution), Some(a.fps), Some(a.programId),
      Some(a.broadcastDate), Some(a.contentTypeId), None, None, None)
  }

  /** A scene ingested into OpenSearch is found again as a SceneHit with
      its own scene id, description, times, title, tags and faces, and its
      video's id as `content_id`; its facet fields read back empty. */
  lemma OpenSearchIngestReadsBack(s: SceneIngestItem, score: real)
    requires s.video.videoDurationSec.Some? && s.video.videoCreatedAt.Some?
    ensures var hit := SearchRoutes.OpenSearchHit(Some(score), Some(StoredSource(ActionOf(s))));
      && SearchRoutes.OpenSearchSceneHit(hit).Ok?
      && var h := SearchRoutes.OpenSearchSceneHit(hit).value;
      && h.score == score && h.sceneId == s.sceneId && h.sceneDescription == s.sceneDescription
      && h.startTimeSec == s.startTimeSec && h.endTimeSec == s.endTimeSec
      && h.contentId == s.video.videoId && h.videoTitle == s.video.videoTitle
      && h.videoTags == s.video.videoTags && h.category == ""
      && |h.faces| == |s.faces|
      && forall i :: 0 <= i < |s.faces| ==> h.faces[i] == SearchModels.FaceItem(s.faces[i].faceId, s.faces[i].name)
  {
    var hit := SearchRoutes.OpenSearchHit(Some(score), Some(StoredSource(ActionOf(s))));
    var data := FacesData(s.faces);
    assert ListOrEmpty(hit.source.value.faces) == data;
    SearchRoutes.OpenSearchSceneHitSpec(hit);
    var raw := SearchRoutes.OpenSearchKwargs(hit).value;
    assert SearchModels.RawHitFaces(raw) == data;
    var h := SearchRoutes.OpenSearchSceneHit(hit).value;
    assert h == SearchModels.ValidateSceneHit(raw).value;
    forall i | 0 <= i < |s.faces|
      ensures h.faces[i] == SearchModels.FaceItem(s.faces[i].faceId, s.faces[i].name)
    {
      SearchRoutes.ValidateEachAt(data, SearchModels.ValidateFaceItem, i);
    }
  }

  /** The loop that builds `actions`. */
  method BuildActions(scenes: seq<SceneIngestItem>) returns (actions: seq<OpenSearchAction>)
    ensures |actions| == |scenes|
    ensures forall i :: 0 <= i < |scenes| ==> actions[i] == ActionOf(scenes[i])
  {
    actions := [];
    var i := 0;
    while i < |scenes|
      invariant 0 <= i <= |scenes|
      invariant |actions| == i
      invariant forall j :: 0 <= j < i ==> actions[j] == ActionOf(scenes[j])
    {
      var scene := scenes[i];
      var facesData := FacesData(scene.faces);
      actions := actions + [OpenSearchAction(
        scene.sceneId, scene.video.videoId, scene.video.videoTitle, scene.video.videoName,
        scene.video.videoSummary, scene.video.videoTags, scene.video.videoDurationSec,
        scene.video.videoCreatedAt, scene.video.resolution, scene.video.fps.GetOr(0.0),
        scene.video.programId, scene.video.broadcastDate, scene.video.contentTypeId,
        scene.sceneId, scene.sceneDescription, scene.visualCaption, scene.audioSummarization,
        scene.audioTranscription, Dumps(facesData), scene.startTimeSec, scene.endTimeSec)];
      i := i + 1;
    }
  }

  /** What `bulk(..., raise_on_error=False)` answers: the number of
      successful actions and the per-item errors as text, or an exception. */
  datatype BulkAnswer = Bulk(successCount: int, errors: seq<string>) | BulkRaised

  /** `_ingest_opensearch`: `indexed` is the success count and the
      per-item errors are passed on; an exception is 502. */
  method IngestOpenSearch(req: IngestRequest, bulk: BulkAnswer)
    returns (actions: seq<OpenSearchAction>, response: Result<IngestResponse, HttpError>)
    ensures |actions| == |req.scenes|
    ensures forall i :: 0 <= i < |req.scenes| ==> actions[i] == ActionOf(req.scenes[i])
    ensures bulk.BulkRaised? ==> response == Err(Status(502))
    ensures bulk.Bulk? ==> response == Ok(IngestResponse(bulk.successCount, bulk.errors))
  {
    actions := BuildActions(req.scenes);
    if bulk.BulkRaised? {
      return actions, Err(Status(502));
    }
    response := Ok(IngestResponse(bulk.successCount, bulk.errors));
  }

  // ---------------------------------------------------------------------
  // Milvus scenes
  // ---------------------------------------------------------------------

  /** A document of `_ingest_milvus`; `embedding` is None until the
      vectors are attached. */
  datatype MilvusDoc = MilvusDoc(
    sceneId: string,
    sceneDescription: string,
    visualCaption: string,
    audioSummarization: string,
    audioTranscription: string,
    faces: JsonText<seq<SearchModels.RawFaceItem>>,
    startTimeSec: real,
    endTimeSec: real,
    videoId: string,
    videoTitle: string,
    videoName: string,
    videoSummary: string,
    videoTags: JsonText<seq<string>>,
    videoDurationSec: real,
    videoCreatedAt: string,
    resolution: string,
    fps: real,
    programId: string,
    broadcastDate: string,
    contentTypeId: string,
    category: string,
    createdDate: string,
    author: string,
    bm25Text: string,
    embedding: Option<Vector>)

  /** The text embedded for a scene: description and title joined by a
      space, stripped. */
  function SceneText(s: SceneIngestItem): string {
    SyncUtils.EmbedText(s.sceneDescription, s.video.videoTitle)
  }

  /** The document for one scene before its vector is attached: a missing
      duration or fps is 0.0, a missing creation time is "", and
      `bm25_text` is the embedded text. */
  function MilvusDocOf(s: SceneIngestItem): (d: MilvusDoc)
    ensures d.sceneId == s.sceneId && d.bm25Text == SceneText(s) && d.embedding.None?
    ensures d.videoDurationSec == s.video.videoDurationSec.GetOr(0.0) && d.fps == s.video.fps.GetOr(0.0)
    ensures d.videoCreatedAt == s.video.videoCreatedAt.GetOr("")
  {
    MilvusDoc(
      s.sceneId, s.sceneDescription, s.visualCaption, s.audioSummarization, s.audioTranscription,
      Dumps(FacesData(s.faces)), s.startTimeSec, s.endTimeSec, s.video.videoId, s.video.videoTitle,
      s.video.videoName, s.video.videoSummary, Dumps(s.video.videoTags),
      s.video.videoDurationSec.GetOr(0.0), s.video.videoCreatedAt.GetOr(""), s.video.resolution,
      s.video.fps.GetOr(0.0), s.video.programId, s.video.broadcastDate, s.video.contentTypeId,
      s.category, s.createdDate, s.author, SceneText(s), None)
  }

  /** The entity the face-search query reads back for a stored document. */
  function EntityOf(d: MilvusDoc): FaceSearch.FaceEntity {
    FaceSearch.FaceEntity(
      Some(d.sceneId), Some(d.sceneDescription), Some(d.visualCaption), Some(d.audioSummarization),
      Some(d.audioTranscription), Encoded(d.faces), Some(d.startTimeSec), Some(d.endTimeSec),
      Some(d.videoId), Some(d.videoTitle), Some(d.videoName), Some(d.videoSummary),
      Encoded(d.videoTags), Some(d.videoDurationSec), Some(d.videoCreatedAt), Some(d.resolution),
      Some(d.fps), Some(d.programId), Some(d.broadcastDate), Some(d.contentTypeId),
      Some(d.category), Some(d.createdDate), Some(d.author))
  }

  /** A scene ingested into Milvus is found again by face search as a
      valid SceneHit carrying its own ids, texts, times, tags, facet fields
      and faces. */
  lemma MilvusIngestReadsBack(s: SceneIngestItem)
    ensures var raw := FaceSearch.ParseEntity(EntityOf(MilvusDocOf(s)));
      && SearchModels.ValidateSceneHit(raw).Ok?
      && var h := SearchModels.ValidateSceneHit(raw).value;
      && h.sceneId == s.sceneId && h.contentId == s.video.videoId
      && h.sceneDescription == s.sceneDescription && h.visualCaption == s.visualCaption
      && h.startTimeSec == s.startTimeSec && h.endTimeSec == s.endTimeSec
      && h.videoTags == s.video.videoTags && h.fps == s.video.fps.GetOr(0.0)
      && h.category == s.category && h.createdDate == s.createdDate && h.author == s.author
      && |h.faces| == |s.faces|
      && forall i :: 0 <= i < |s.faces| ==> h.faces[i] == SearchModels.FaceItem(s.faces[i].faceId, s.faces[i].name)
  {
    var data := FacesData(s.faces);
    var raw := FaceSearch.ParseEntity(EntityOf(MilvusDocOf(s)));
    MilvusHitFaces(s);
    var h := SearchModels.ValidateSceneHit(raw).value;
    forall i | 0 <= i < |s.faces|
      ensures h.faces[i] == SearchModels.FaceItem(s.faces[i].faceId, s.faces[i].name)
    {
      SearchRoutes.ValidateEachAt(data, SearchModels.ValidateFaceItem, i);
    }
  }

  /** The faces of a stored document are read back as they were written,
      and each of them is valid. */
  lemma MilvusHitFaces(s: SceneIngestItem)
    ensures var raw := FaceSearch.ParseEntity(EntityOf(MilvusDocOf(s)));
      && SearchModels.RawHitFaces(raw) == FacesData(s.faces)
      && SearchModels.ValidateSceneHit(raw).Ok?
  {
    var raw := FaceSearch.ParseEntity(EntityOf(MilvusDocOf(s)));
    assert SearchModels.RawHitFaces(raw) == FacesData(s.faces);
  }

  /** When the description does not start and the title does not end
      with whitespace, stripping changes nothing: the embedded text is the
      two joined by one space. */
  lemma EmbedTextPlain(description: string, title: string)
    requires description != [] && !IsSpace(description[0])
    requires title != [] && !IsSpace(title[|title| - 1])
    ensures SyncUtils.EmbedText(description, title) == description + " " + title
  {
    var s := description + " " + title;
    assert s[0] == description[0];
    assert TrimStart(s) == s;
    assert s[|s| - 1] == title[|title| - 1];
    assert TrimEnd(s) == s;
  }

  /** What `encode_documents` answers: the vectors, or an exception. */
  datatype EmbedAnswer = Vectors(vectors: seq<Vector>) | EmbedRaised

  /** What `upsert` and `flush` answer: the `upsert_count`, or an
      exception. */
  datatype UpsertAnswer = UpsertCount(count: int) | UpsertRaised

  /** The documents with the i-th vector attached to the i-th document by
      `attach`; scene and content documents share it. */
  function WithVectors<D>(docs: seq<D>, vectors: seq<Vector>, attach: (D, Vector) -> D): (r: seq<D>)
    requires |vectors| >= |docs|
    ensures |r| == |docs|
    ensures forall i :: 0 <= i < |docs| ==> r[i] == attach(docs[i], vectors[i])
  {
    seq(|docs|, i requires 0 <= i < |docs| => attach(docs[i], vectors[i]))
  }

  /** `doc["embedding"] = vector` on a scene document. */
  function SceneEmbedded(doc: MilvusDoc, v: Vector): MilvusDoc {
    doc.(embedding := Some(v))
  }

  /** `for i, doc in enumerate(docs): doc["embedding"] = vectors[i]`, for
      scene and content documents alike. */
  method AttachVectors<D>(docs: seq<D>, vectors: seq<Vector>, attach: (D, Vector) -> D) returns (r: seq<D>)
    requires |vectors| >= |docs|
    ensures r == WithVectors(docs, vectors, attach)
  {
    r := docs;
    var j := 0;
    while j < |r|
      invariant 0 <= j <= |r| == |docs|
      invariant forall m :: 0 <= m < j ==> r[m] == attach(docs[m], vectors[m])
      invariant forall m :: j <= m < |r| ==> r[m] == docs[m]
    {
      r := r[j := attach(r[j], vectors[j])];
      j := j + 1;
    }
  }

  /** The documents sent to Milvus carry the scene ids, in order. */
  lemma MilvusDocIds(scenes: seq<SceneIngestItem>, vectors: seq<Vector>)
    requires |vectors| >= |scenes|
    ensures var docs := WithVectors(MapSeq(scenes, MilvusDocOf), vectors, SceneEmbedded);
      forall i :: 0 <= i < |scenes| ==> docs[i].sceneId == scenes[i].sceneId
  {
    forall i | 0 <= i < |scenes|
      ensures MapSeq(scenes, MilvusDocOf)[i].sceneId == scenes[i].sceneId
    {
      MapSeqAt(scenes, MilvusDocOf, i);
    }
  }

  /** The loop that builds `combined_texts` and `docs`. */
  method BuildMilvusDocs(scenes: seq<SceneIngestItem>) returns (texts: seq<string>, docs: seq<MilvusDoc>)
    ensures texts == MapSeq(scenes, SceneText)
    ensures docs == MapSeq(scenes, MilvusDocOf)
  {
    texts := [];
    docs := [];
    var i := 0;
    while i < |scenes|
      invariant 0 <= i <= |scenes|
      invariant texts == MapSeq(scenes[..i], SceneText)
      invariant docs == MapSeq(scenes[..i], MilvusDocOf)
    {
      var combined := SyncUtils.EmbedText(scenes[i].sceneDescription, scenes[i].video.videoTitle);
      texts := texts + [combined];
      docs := docs + [MilvusDocOf(scenes[i])];
      assert scenes[..i + 1][..i] == scenes[..i];
      i := i + 1;
    }
    assert scenes[..|scenes|] == scenes;
  }

  /** `_ingest_milvus`: one text and one document per scene, in order;
      the vectors are attached in order and the documents upserted. An
      exception from the model or the client, or too few vectors, is 502;
      otherwise `indexed` is the client's upsert count. */
  method IngestMilvus(req: IngestRequest, embed: EmbedAnswer, upsert: UpsertAnswer)
    returns (texts: seq<string>, upserted: Option<seq<MilvusDoc>>, response: Result<IngestResponse, HttpError>)
    ensures |texts| == |req.scenes|
    ensures forall i :: 0 <= i < |req.scenes| ==> texts[i] == SceneText(req.scenes[i])
    ensures upserted.Some? <==> embed.Vectors? && |embed.vectors| >= |req.scenes|
    ensures upserted.Some? ==> upserted.value == WithVectors(MapSeq(req.scenes, MilvusDocOf), embed.vectors, SceneEmbedded)
    ensures upserted.None? ==> response == Err(Status(502))
    ensures upserted.Some? ==> match upsert
      case UpsertRaised => response == Err(Status(502))
      case UpsertCount(n) => response == Ok(IngestResponse(n, []))
  {
    var docs;
    texts, docs := BuildMilvusDocs(req.scenes);
    forall i | 0 <= i < |req.scenes|
      ensures texts[i] == SceneText(req.scenes[i])
    {
      MapSeqAt(req.scenes, SceneText, i);
    }
    if embed.EmbedRaised? || |embed.vectors| < |docs| {
      return texts, None, Err(Status(502));
    }
    docs := AttachVectors(docs, embed.vectors, SceneEmbedded);
    upserted := Some(docs);
    match upsert
    case UpsertRaised => {
      response := Err(Status(502));
    }
    case UpsertCount(n) => {
      response := Ok(IngestResponse(n, []));
    }
  }

  // ---------------------------------------------------------------------
  // Milvus contents
  // ---------------------------------------------------------------------

  /** A document of `_ingest_milvus_content`. */
  datatype ContentDoc = ContentDoc(
    contentId: string,
    title: string,
    description: string,
    videoSummary: string,
    tags: JsonText<seq<string>>,
    durationSec: real,
    createdAt: string,
    category: string,
    author: string,
    videoName: string,
    resolution: string,
    fps: real,
    programId: string,
    broadcastDate: string,
    contentTypeId: string,
    bm25Text: string,
    embedding: Option<Vector>)

  /** The text embedded for a content item: title, description and the
      space-joined tags, separated by spaces and stripped. */
  function ContentText(c: ContentIngestItem): string {
    Strip(c.title + " " + c.description + " " + Join(" ", c.tags))
  }

  function ContentDocOf(c: ContentIngestItem): (d: ContentDoc)
    ensures d.contentId == c.contentId && d.bm25Text == ContentText(c) && d.embedding.None?
  {
    ContentDoc(
      c.contentId, c.title, c.description, c.videoSummary, Dumps(c.tags), c.durationSec, c.createdAt,
      c.category, c.author, c.videoName, c.resolution, c.fps, c.programId, c.broadcastDate,
      c.contentTypeId, ContentText(c), None)
  }

  /** A content item ingested into Milvus is found again by content
      search with its own id, title, description, tags and duration. */
  lemma ContentIngestReadsBack(c: ContentIngestItem, distance: real)
    ensures var d := ContentDocOf(c);
      var h := MQ.ParseContentHit(MQ.Found(distance, MQ.ContentEntity(
        Some(d.contentId), Some(d.title), Some(d.description), Encoded(d.tags), Some(d.durationSec),
        Some(d.createdAt), Some(d.category), Some(d.author))));
      && h.contentId == c.contentId && h.title == c.title && h.description == c.description
      && h.tags == c.tags && h.durationSec == c.durationSec && h.category == c.category
      && h.author == c.author && h.score == distance
  {
  }

  /** The loop that builds `combined_texts` and `docs`. */
  method BuildContentDocs(contents: seq<ContentIngestItem>) returns (texts: seq<string>, docs: seq<ContentDoc>)
    ensures texts == MapSeq(contents, ContentText)
    ensures docs == MapSeq(contents, ContentDocOf)
  {
    texts := [];
    docs := [];
    var i := 0;
    while i < |contents|
      invariant 0 <= i <= |contents|
      invariant texts == MapSeq(contents[..i], ContentText)
      invariant docs == MapSeq(contents[..i], ContentDocOf)
    {
      var item := contents[i];
      var tagsText := Join(" ", item.tags);
      var combined := Strip(item.title + " " + item.description + " " + tagsText);
      texts := texts + [combined];
      docs := docs + [ContentDocOf(item)];
      assert contents[..i + 1][..i] == contents[..i];
      i := i + 1;
    }
    assert contents[..|contents|] == contents;
  }

  /** `_ingest_milvus_content`. */
  method IngestMilvusContent(req: ContentIngestRequest, embed: EmbedAnswer, upsert: UpsertAnswer)
    returns (texts: seq<string>, upserted: Option<seq<ContentDoc>>, response: Result<IngestResponse, HttpError>)
    ensures |texts| == |req.contents|
    ensures forall i :: 0 <= i < |req.contents| ==> texts[i] == ContentText(req.contents[i])
    ensures upserted.Some? <==> embed.Vectors? && |embed.vectors| >= |req.contents|
    ensures upserted.Some? ==> upserted.value == WithVectors(MapSeq(req.contents, ContentDocOf), embed.vectors, ContentEmbedded)
    ensures upserted.None? ==> response == Err(Status(502))
    ensures upserted.Some? ==> match upsert
      case UpsertRaised => response == Err(Status(502))
      case UpsertCount(n) => response == Ok(IngestResponse(n, []))
  {
    var docs;
    texts, docs := BuildContentDocs(req.contents);
    forall i | 0 <= i < |req.contents|
      ensures texts[i] == ContentText(req.contents[i])
    {
      MapSeqAt(req.contents, ContentText, i);
    }
    if embed.EmbedRaised? || |embed.vectors| < |docs| {
      return texts, None, Err(Status(502));
    }
    docs := AttachVectors(docs, embed.vectors, ContentEmbedded);
    upserted := Some(docs);
    match upsert
    case UpsertRaised => {
      response := Err(Status(502));
    }
    case UpsertCount(n) => {
      response := Ok(IngestResponse(n, []));
    }
  }

  /** `doc["embedding"] = vector` on a content document. */
  function ContentEmbedded(doc: ContentDoc, v: Vector): ContentDoc {
    doc.(embedding := Some(v))
  }

  // ---------------------------------------------------------------------
  // The endpoints
  // ---------------------------------------------------------------------

  /** What a route hands to a backend. */
  datatype Sent = SentToMilvus(docs: seq<MilvusDoc>) | SentToOpenSearch(actions: seq<OpenSearchAction>)
    | SentContents(contents: seq<ContentDoc>)

  /** `ingest_scenes`: the body is validated (422), then the scenes go to
      the configured backend, one record per scene keyed by its id. */
  method IngestScenes(backend: SyncUtils.Backend, raw: RawIngestRequest, embed: EmbedAnswer, upsert: UpsertAnswer, bulk: BulkAnswer)
    returns (sent: Option<Sent>, response: Result<IngestResponse, HttpError>)
    ensures ValidateIngestRequest(raw).Err? ==> sent == None && response == Err(Status(422))
    ensures ValidateIngestRequest(raw).Ok? && backend != SyncUtils.Milvus ==>
      var scenes := ValidateIngestRequest(raw).value.scenes;
      && sent.Some? && sent.value.SentToOpenSearch?
      && |sent.value.actions| == |scenes|
      && (forall i :: 0 <= i < |scenes| ==> sent.value.actions[i] == ActionOf(scenes[i]))
      && (forall i :: 0 <= i < |scenes| ==> sent.value.actions[i].id == scenes[i].sceneId)
      && (bulk.BulkRaised? ==> response == Err(Status(502)))
      && (bulk.Bulk? ==> response == Ok(IngestResponse(bulk.successCount, bulk.errors)))
    ensures ValidateIngestRequest(raw).Ok? && backend == SyncUtils.Milvus ==>
      var scenes := ValidateIngestRequest(raw).value.scenes;
      && (sent.Some? <==> embed.Vectors? && |embed.vectors| >= |scenes|)
      && (sent.Some? ==> sent == Some(SentToMilvus(WithVectors(MapSeq(scenes, MilvusDocOf), embed.vectors, SceneEmbedded))))
      && (sent.Some? ==> forall i :: 0 <= i < |scenes| ==> sent.value.docs[i].sceneId == scenes[i].sceneId)
      && (sent.None? ==> response == Err(Status(502)))
      && (sent.Some? ==> match upsert
          case UpsertRaised => response == Err(Status(502))
          case UpsertCount(n) => response == Ok(IngestResponse(n, [])))
  {
    var v := ValidateIngestRequest(raw);
    if v.Err? {
      return None, Err(Status(422));
    }
    var req := v.value;
    if backend == SyncUtils.Milvus {
      var texts, upserted;
      texts, upserted, response := IngestMilvus(req, embed, upsert);
      if upserted.Some? {
        MilvusDocIds(req.scenes, embed.vectors);
      }
      sent := if upserted.Some? then Some(SentToMilvus(upserted.value)) else None;
    } else {
      var actions;
      actions, response := IngestOpenSearch(req, bulk);
      sent := Some(SentToOpenSearch(actions));
    }
  }

  /** `ingest_contents`: Milvus only. */
  method IngestContents(backend: SyncUtils.Backend, raw: RawContentIngestRequest, embed: EmbedAnswer, upsert: UpsertAnswer)
    returns (sent: Option<Sent>, response: Result<IngestResponse, HttpError>)
    ensures ValidateContentIngestRequest(raw).Err? ==> sent == None && response == Err(Status(422))
    ensures ValidateContentIngestRequest(raw).Ok? && backend != SyncUtils.Milvus ==> sent == None && response == Err(Status(501))
    ensures ValidateContentIngestRequest(raw).Ok? && backend == SyncUtils.Milvus ==>
      var contents := ValidateContentIngestRequest(raw).value.contents;
      && (sent.Some? <==> embed.Vectors? && |embed.vectors| >= |contents|)
      && (sent.Some? ==> sent == Some(SentContents(WithVectors(MapSeq(contents, ContentDocOf), embed.vectors, ContentEmbedded))))
      && (sent.Some? ==> forall i :: 0 <= i < |contents| ==> sent.value.contents[i].contentId == contents[i].contentId)
      && (sent.None? ==> response == Err(Status(502)))
      && (sent.Some? ==> match upsert
          case UpsertRaised => response == Err(Status(502))
          case UpsertCount(n) => response == Ok(IngestResponse(n, [])))
  {
    var v := ValidateContentIngestRequest(raw);
    if v.Err? {
      return None, Err(Status(422));
    }
    if backend != SyncUtils.Milvus {
      return None, Err(Status(501));
    }
    var texts, upserted;
    texts, upserted, response := IngestMilvusContent(v.value, embed, upsert);
    if upserted.Some? {
      forall i | 0 <= i < |v.value.contents|
        ensures upserted.value[i].contentId == v.value.contents[i].contentId
      {
        MapSeqAt(v.value.contents, ContentDocOf, i);
      }
    }
    sent := if upserted.Some? then Some(SentContents(upserted.value)) else None;
  }
}
