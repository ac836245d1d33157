/** The search endpoints: request validation, the dispatch from
    `(backend, search_type)` to a backend search or an error code, the
    shaping of backend answers into response models, the id-list filter
    endpoints and the list endpoints. What each backend answers is a
    parameter. */
module SearchRoutes {
  import opened Wrappers
  import opened Http
  import opened Json
  import opened MilvusFilter
  import Queries
  import MQ = MilvusQueries
  import opened SceneModels
  import opened SearchModels
  import SyncUtils

  type Backend = SyncUtils.Backend

  // ---------------------------------------------------------------------
  // Dispatch
  // ---------------------------------------------------------------------

  /** `search_type`, matched against `^(semantic|fulltext|hybrid)$`; a
      missing parameter takes the endpoint's default, any other text is a
      validation error (None). */
  function KindOf(searchType: Option<string>, default: MQ.SearchKind): (r: Option<MQ.SearchKind>)
    ensures searchType.None? ==> r == Some(default)
    ensures searchType.Some? ==> (r.Some? <==> searchType.value in {"semantic", "fulltext", "hybrid"})
  {
    match searchType
    case None => Some(default)
    case Some(t) =>
      if t == "semantic" then Some(MQ.Semantic)
      else if t == "fulltext" then Some(MQ.Fulltext)
      else if t == "hybrid" then Some(MQ.Hybrid)
      else None
  }

  /** Where a request goes. */
  datatype Action = ToMilvus(kind: MQ.SearchKind) | ToOpenSearch(kind: MQ.SearchKind) | Refuse(code: nat)

  /** `scene_search`: full-text search needs Milvus; semantic and hybrid
      go to whichever backend is configured. */
  function SceneAction(backend: Backend, kind: MQ.SearchKind): (a: Action)
    ensures a.Refuse? <==> kind == MQ.Fulltext && backend != SyncUtils.Milvus
    ensures a.Refuse? ==> a.code == 501
    ensures backend == SyncUtils.Milvus ==> a == ToMilvus(kind)
    ensures a.ToOpenSearch? ==> backend != SyncUtils.Milvus && a.kind == kind && kind != MQ.Fulltext
  {
    if kind == MQ.Fulltext then
      if backend != SyncUtils.Milvus then Refuse(501) else ToMilvus(kind)
    else if backend == SyncUtils.Milvus then ToMilvus(kind)
    else ToOpenSearch(kind)
  }

  /** `content_search` and every filter and list endpoint: Milvus only. */
  function MilvusOnlyAction(backend: Backend, kind: MQ.SearchKind): (a: Action)
    ensures a.Refuse? <==> backend != SyncUtils.Milvus
    ensures a.Refuse? ==> a.code == 501
    ensures !a.Refuse? ==> a == ToMilvus(kind)
  {
    if backend != SyncUtils.Milvus then Refuse(501) else ToMilvus(kind)
  }

  /** No endpoint sends a full-text search to OpenSearch, and the two
      tables agree whenever the backend is Milvus. */
  lemma DispatchAgrees(backend: Backend, kind: MQ.SearchKind)
    ensures SceneAction(backend, kind) != ToOpenSearch(MQ.Fulltext)
    ensures backend == SyncUtils.Milvus ==> SceneAction(backend, kind) == MilvusOnlyAction(backend, kind)
    ensures backend != SyncUtils.Milvus && kind != MQ.Fulltext ==> SceneAction(backend, kind) == ToOpenSearch(kind)
  {
  }

  // ---------------------------------------------------------------------
  // What the routes send, and what they are answered
  // ---------------------------------------------------------------------

  datatype Collection = SceneCollection | ContentCollection

  /** A backend call a route makes. */
  datatype Call =
    | MilvusSearch(collection: Collection, search: MQ.SearchCall)
    | OpenSearchSearch(body: Queries.QueryBody, throughPipeline: bool)
    | MilvusList(collection: Collection, limit: int, offset: int)

  /** A Milvus search: the client's results, or an exception. */
  datatype MilvusAnswer<E> = Found(found: seq<MQ.Found<E>>) | MilvusRaised

  /** An OpenSearch hit: `_score` and `_source`, each possibly absent. */
  datatype OpenSearchHit = OpenSearchHit(score: Option<real>, source: Option<OpenSearchSource>)

  /** The keys of `_source` that `_parse_opensearch_hits` reads. */
  datatype OpenSearchSource = OpenSearchSource(
    sceneId: Option<string>,
    sceneDescription: Option<string>,
    visualCaption: Option<string>,
    audioSummarization: Option<string>,
    audioTranscription: Option<string>,
    faces: ListField<RawFaceItem>,
    startTimeSec: Option<real>,
    endTimeSec: Option<real>,
    videoId: Option<string>,
    videoTitle: Option<string>,
    videoName: Option<string>,
    videoSummary: Option<string>,
    videoTags: Option<seq<string>>,
    videoDurationSec: Option<real>,
    videoCreatedAt: Option<string>,
    resolution: Option<string>,
    fps: Option<real>,
    programId: Option<string>,
    broadcastDate: Option<string>,
    contentTypeId: Option<string>,
    category: Option<string>,
    createdDate: Option<string>,
    author: Option<string>)

  /** An OpenSearch search: `hits.total.value` and `hits.hits`, or an
      exception. */
  datatype OpenSearchAnswer = Answered(total: int, hits: seq<OpenSearchHit>) | OpenSearchRaised

  // ---------------------------------------------------------------------
  // Shaping Milvus scene hits into SceneHit
  // ---------------------------------------------------------------------

  /** The keyword arguments `SceneHit(**h)` receives from a parsed Milvus
      hit, AS WRITTEN: the dict carries `video_id`, which SceneHit does not
      declare and so ignores, and no `content_id`. */
  function AsWrittenSceneKwargs(h: MQ.SceneHitDict): (raw: RawSceneHit)
    ensures raw.contentId.None?
    ensures raw.score == Some(h.score) && raw.sceneId == Some(h.sceneId)
  {
    RawSceneHit(
      Some(h.score), Some(h.sceneId), Some(h.description), None, None, None, None,
      Some(h.startSec), Some(h.endSec), None, Some(h.videoTitle), None, None, Some(h.videoTags),
      None, None, None, None, None, None, None, Some(h.category), Some(h.createdDate), Some(h.author))
  }

  /** Every Milvus scene hit, as written, fails SceneHit validation for the
      missing `content_id`. */
  lemma AsWrittenSceneHitRejected(h: MQ.SceneHitDict)
    ensures ValidateSceneHit(AsWrittenSceneKwargs(h)) == Err(Missing("content_id"))
  {
  }

  /** The keyword arguments with `content_id` taken from the hit's
      `video_id`, as the face-search parser does. */
  function SceneKwargs(h: MQ.SceneHitDict): RawSceneHit {
    AsWrittenSceneKwargs(h).(contentId := Some(h.videoId))
  }

  /** Every parsed Milvus scene hit validates, and the SceneHit keeps the
      hit's score, ids, title, tags and facet fields. */
  lemma SceneKwargsValid(h: MQ.SceneHitDict)
    ensures ValidateSceneHit(SceneKwargs(h)).Ok?
    ensures var v := ValidateSceneHit(SceneKwargs(h)).value;
      && v.score == h.score && v.sceneId == h.sceneId && v.sceneDescription == h.description
      && v.contentId == h.videoId && v.videoTitle == h.videoTitle && v.videoTags == h.videoTags
      && v.category == h.category && v.createdDate == h.createdDate && v.author == h.author
      && v.faces == [] && v.visualCaption == ""
  {
    assert RawHitFaces(SceneKwargs(h)) == [];
  }

  function SceneKwargsAll(hits: seq<MQ.SceneHitDict>): (raws: seq<RawSceneHit>)
    ensures |raws| == |hits|
    ensures forall i :: 0 <= i < |hits| ==> raws[i] == SceneKwargs(hits[i])
  {
    seq(|hits|, i requires 0 <= i < |hits| => SceneKwargs(hits[i]))
  }

  /** `SearchResponse(total=..., hits=[SceneHit(**h) ...], facets=Facets(**...))`
      for a Milvus scene search result. */
  function SceneResponseOf(r: MQ.SceneSearch): (resp: Result<SearchResponse, HttpError>)
    ensures resp.Ok? ==> resp.value.total == r.total && resp.value.facets == Some(FacetsOf(r.facets))
    ensures resp.Ok? ==> |resp.value.hits| == |r.hits|
  {
    match ValidateEach(SceneKwargsAll(r.hits), ValidateSceneHit)
    case Ok(hits) => Ok(SearchResponse(r.total, hits, Some(FacetsOf(r.facets))))
    case Err(_) => Err(Unhandled)
  }

  /** A Milvus scene search always shapes into a response whose `total`
      is the number of hits, each hit carrying its scene id and its
      video's id as `content_id`. */
  lemma SceneResponseOk(r: MQ.SceneSearch)
    requires r.total == |r.hits|
    ensures SceneResponseOf(r).Ok?
    ensures var v := SceneResponseOf(r).value;
      && v.total == |v.hits| == |r.hits|
      && forall i :: 0 <= i < |r.hits| ==>
        v.hits[i].sceneId == r.hits[i].sceneId && v.hits[i].contentId == r.hits[i].videoId
  {
    var raws := SceneKwargsAll(r.hits);
    forall i | 0 <= i < |raws|
      ensures ValidateSceneHit(raws[i]).Ok?
    {
      SceneKwargsValid(r.hits[i]);
    }
    var v := SceneResponseOf(r).value;
    forall i | 0 <= i < |r.hits|
      ensures v.hits[i].sceneId == r.hits[i].sceneId && v.hits[i].contentId == r.hits[i].videoId
    {
      SceneKwargsValid(r.hits[i]);
      ValidateEachAt(raws, ValidateSceneHit, i);
    }
  }

  /** The response of a scene search written as the code has it: any hit
      at all makes it fail. */
  function AsWrittenSceneResponseOf(r: MQ.SceneSearch): Result<SearchResponse, HttpError> {
    var raws := seq(|r.hits|, i requires 0 <= i < |r.hits| => AsWrittenSceneKwargs(r.hits[i]));
    match ValidateEach(raws, ValidateSceneHit)
    case Ok(hits) => Ok(SearchResponse(r.total, hits, Some(FacetsOf(r.facets))))
    case Err(_) => Err(Unhandled)
  }

  /** As written, a Milvus scene search (semantic, full-text, hybrid, and
      each filter endpoint) answers 500 whenever it finds anything. */
  lemma AsWrittenSceneSearchFails(r: MQ.SceneSearch)
    requires r.hits != []
    ensures AsWrittenSceneResponseOf(r) == Err(Unhandled)
  {
    var raws := seq(|r.hits|, i requires 0 <= i < |r.hits| => AsWrittenSceneKwargs(r.hits[i]));
    AsWrittenSceneHitRejected(r.hits[0]);
    assert ValidateSceneHit(raws[0]).Err?;
  }

  /** What a Milvus scene search answers: 502 when the client raises,
      otherwise the shaped result. */
  function MilvusSceneResponseOf(answer: MilvusAnswer<MQ.SceneEntity>): Result<SearchResponse, HttpError> {
    if answer.MilvusRaised? then Err(Status(502)) else SceneResponseOf(MQ.SceneSearchOf(answer.found))
  }

  /** `_milvus_scene_semantic`, `_milvus_scene_fulltext` and
      `_milvus_scene_hybrid`: a client exception is 502. */
  method MilvusScene(kind: MQ.SearchKind, k: int, filterExpr: Option<string>, answer: MilvusAnswer<MQ.SceneEntity>)
    returns (call: Call, response: Result<SearchResponse, HttpError>)
    ensures call == MilvusSearch(SceneCollection, MQ.SearchCall(kind, k, MQ.FilterArg(filterExpr)))
    ensures answer.MilvusRaised? ==> response == Err(Status(502))
    ensures answer.Found? ==> response.Ok?
    ensures answer.Found? ==> response.value.total == |response.value.hits| == |answer.found|
    ensures answer.Found? ==> forall i :: 0 <= i < |answer.found| ==>
      && response.value.hits[i].score == answer.found[i].distance
      && response.value.hits[i].sceneId == MQ.ParseSceneHit(answer.found[i]).sceneId
      && response.value.hits[i].contentId == answer.found[i].entity.videoId.GetOr("")
    ensures answer.Found? ==> response == SceneResponseOf(MQ.SceneSearchOf(answer.found))
    ensures response == MilvusSceneResponseOf(answer)
  {
    var found := if answer.Found? then answer.found else [];
    var searchCall, r := MQ.SearchScenes(kind, k, filterExpr, found);
    call := MilvusSearch(SceneCollection, searchCall);
    if answer.MilvusRaised? {
      return call, Err(Status(502));
    }
    SceneResponseOk(r);
    response := SceneResponseOf(r);
    forall i | 0 <= i < |found|
      ensures response.value.hits[i].score == found[i].distance
    {
      SceneKwargsValid(r.hits[i]);
      ValidateEachAt(SceneKwargsAll(r.hits), ValidateSceneHit, i);
    }
  }

  /** Element `i` of a validated sequence is the validation of element `i`. */
  lemma {:induction false} ValidateEachAt<R, T>(raws: seq<R>, v: R -> Result<T, Invalid>, i: nat)
    requires ValidateEach(raws, v).Ok?
    requires i < |raws|
    ensures v(raws[i]).Ok? && ValidateEach(raws, v).value[i] == v(raws[i]).value
    decreases |raws|
  {
    if i > 0 {
      ValidateEachAt(raws[1..], v, i - 1);
    }
  }

  // ---------------------------------------------------------------------
  // OpenSearch hits
  // ---------------------------------------------------------------------

  /** The keyword arguments `_parse_opensearch_hits` passes to SceneHit,
      AS WRITTEN: a missing `_source` or a missing `scene_id`,
      `scene_description`, `start_time_sec`, `end_time_sec`, `video_id` or
      `video_title` raises KeyError (None); `video_id=` is not a SceneHit
      field, so `content_id` stays missing. */
  function AsWrittenOpenSearchKwargs(hit: OpenSearchHit): (raw: Option<RawSceneHit>)
    ensures raw.Some? ==> raw.value.contentId.None?
    ensures raw.Some? <==>
      && hit.source.Some?
      && hit.source.value.sceneId.Some? && hit.source.value.sceneDescription.Some?
      && hit.source.value.startTimeSec.Some? && hit.source.value.endTimeSec.Some?
      && hit.source.value.videoId.Some? && hit.source.value.videoTitle.Some?
  {
    match hit.source
    case None => None
    case Some(src) =>
      if src.sceneId.None? || src.sceneDescription.None? || src.startTimeSec.None?
        || src.endTimeSec.None? || src.videoId.None? || src.videoTitle.None? then None
      else Some(RawSceneHit(
        Some(hit.score.GetOr(0.0)), src.sceneId, src.sceneDescription,
        Some(src.visualCaption.GetOr("")), Some(src.audioSummarization.GetOr("")),
        Some(src.audioTranscription.GetOr("")), Some(ListOrEmpty(src.faces)),
        src.startTimeSec, src.endTimeSec, None, src.videoTitle,
        Some(src.videoName.GetOr("")), Some(src.videoSummary.GetOr("")),
        Some(src.videoTags.GetOr([])), Some(src.videoDurationSec.GetOr(0.0)),
        Some(src.videoCreatedAt.GetOr("")), Some(src.resolution.GetOr("")), Some(src.fps.GetOr(0.0)),
        Some(src.programId.GetOr("")), Some(src.broadcastDate.GetOr("")),
        Some(src.contentTypeId.GetOr("")), Some(src.category.GetOr("")),
        Some(src.createdDate.GetOr("")), Some(src.author.GetOr(""))))
  }

  /** As written, no OpenSearch hit ever becomes a SceneHit. */
  lemma AsWrittenOpenSearchHitRejected(hit: OpenSearchHit)
    ensures match AsWrittenOpenSearchKwargs(hit)
      case None => true
      case Some(raw) => ValidateSceneHit(raw) == Err(Missing("content_id"))
  {
  }

  /** The keyword arguments with `content_id=src["video_id"]`. */
  function OpenSearchKwargs(hit: OpenSearchHit): Option<RawSceneHit> {
    match AsWrittenOpenSearchKwargs(hit)
    case None => None
    case Some(raw) => Some(raw.(contentId := hit.source.value.videoId))
  }

  /** One hit: a KeyError or a failed validation raises out of the route. */
  function OpenSearchSceneHit(hit: OpenSearchHit): Result<SceneHit, HttpError> {
    match OpenSearchKwargs(hit)
    case None => Err(Unhandled)
    case Some(raw) =>
      match ValidateSceneHit(raw)
      case Ok(h) => Ok(h)
      case Err(_) => Err(Unhandled)
  }

  /** A hit becomes a SceneHit exactly when it has a `_source` holding the
      six keys read with `[...]` and every face in it is valid; the score
      defaults to 0.0 and `content_id` is the source's `video_id`. */
  lemma OpenSearchSceneHitSpec(hit: OpenSearchHit)
    ensures OpenSearchSceneHit(hit).Ok? <==>
      && hit.source.Some?
      && hit.source.value.sceneId.Some? && hit.source.value.sceneDescription.Some?
      && hit.source.value.startTimeSec.Some? && hit.source.value.endTimeSec.Some?
      && hit.source.value.videoId.Some? && hit.source.value.videoTitle.Some?
      && forall i :: 0 <= i < |ListOrEmpty(hit.source.value.faces)| ==>
        ValidateFaceItem(ListOrEmpty(hit.source.value.faces)[i]).Ok?
    ensures OpenSearchSceneHit(hit).Ok? ==>
      && OpenSearchSceneHit(hit).value.score == hit.score.GetOr(0.0)
      && OpenSearchSceneHit(hit).value.sceneId == hit.source.value.sceneId.value
      && OpenSearchSceneHit(hit).value.contentId == hit.source.value.videoId.value
  {
    if OpenSearchKwargs(hit).Some? {
      assert RawHitFaces(OpenSearchKwargs(hit).value) == ListOrEmpty(hit.source.value.faces);
    }
  }

  /** `_parse_opensearch_hits` over the first hits, one SceneHit per hit. */
  function OpenSearchHitsOf(hits: seq<OpenSearchHit>): (r: Result<seq<SceneHit>, HttpError>)
    ensures r.Ok? ==> |r.value| == |hits|
    decreases |hits|
  {
    if hits == [] then Ok([])
    else
      var prior :- OpenSearchHitsOf(hits[..|hits| - 1]);
      var h :- OpenSearchSceneHit(hits[|hits| - 1]);
      Ok(prior + [h])
  }

  /** The hits parse exactly when each of them does. */
  lemma {:induction false} OpenSearchHitsOk(hits: seq<OpenSearchHit>)
    ensures OpenSearchHitsOf(hits).Ok? <==> forall i :: 0 <= i < |hits| ==> OpenSearchSceneHit(hits[i]).Ok?
    decreases |hits|
  {
    if hits != [] {
      var prefix := hits[..|hits| - 1];
      OpenSearchHitsOk(prefix);
      assert forall i :: 0 <= i < |prefix| ==> prefix[i] == hits[i];
    }
  }

  /** When the hits parse, the i-th SceneHit is the i-th hit's. */
  lemma {:induction false} OpenSearchHitsAt(hits: seq<OpenSearchHit>, i: nat)
    requires OpenSearchHitsOf(hits).Ok?
    requires i < |hits|
    ensures OpenSearchSceneHit(hits[i]).Ok?
    ensures OpenSearchHitsOf(hits).value[i] == OpenSearchSceneHit(hits[i]).value
    decreases |hits|
  {
    var prefix := hits[..|hits| - 1];
    var prior := OpenSearchHitsOf(prefix);
    var last := OpenSearchSceneHit(hits[|hits| - 1]);
    assert prior.Ok? && last.Ok?;
    assert OpenSearchHitsOf(hits).value == prior.value + [last.value];
    if i < |prefix| {
      OpenSearchHitsAt(prefix, i);
      assert prefix[i] == hits[i];
    }
  }

  /** The loop of `_parse_opensearch_hits`. */
  method ParseOpenSearchHits(hits: seq<OpenSearchHit>) returns (r: Result<seq<SceneHit>, HttpError>)
    ensures r == OpenSearchHitsOf(hits)
  {
    var results: seq<SceneHit> := [];
    var i := 0;
    while i < |hits|
      invariant 0 <= i <= |hits|
      invariant OpenSearchHitsOf(hits[..i]) == Ok(results)
    {
      assert hits[..i + 1][..i] == hits[..i];
      var h := OpenSearchSceneHit(hits[i]);
      if h.Err? {
        assert OpenSearchHitsOf(hits[..i + 1]).Err?;
        OpenSearchErrSticks(hits, i + 1);
        return Err(Unhandled);
      }
      results := results + [h.value];
      i := i + 1;
    }
    assert hits[..|hits|] == hits;
    return Ok(results);
  }

  /** Once a prefix fails, the whole sequence fails the same way. */
  lemma {:induction false} OpenSearchErrSticks(hits: seq<OpenSearchHit>, n: nat)
    requires n <= |hits|
    requires OpenSearchHitsOf(hits[..n]).Err?
    ensures OpenSearchHitsOf(hits) == Err(Unhandled)
    decreases |hits| - n
  {
    if n == |hits| {
      assert hits[..n] == hits;
      ErrIsUnhandled(hits);
    } else {
      assert hits[..n + 1][..n] == hits[..n];
      OpenSearchErrSticks(hits, n + 1);
    }
  }

  lemma {:induction false} ErrIsUnhandled(hits: seq<OpenSearchHit>)
    requires OpenSearchHitsOf(hits).Err?
    ensures OpenSearchHitsOf(hits) == Err(Unhandled)
    decreases |hits|
  {
    var prefix := hits[..|hits| - 1];
    if OpenSearchHitsOf(prefix).Err? {
      ErrIsUnhandled(prefix);
    }
  }

  /** What an OpenSearch scene search answers: 502 when the client raises,
      otherwise the shaped hits with OpenSearch's `total`. */
  function OpenSearchResponseOf(answer: OpenSearchAnswer): Result<SearchResponse, HttpError> {
    if answer.OpenSearchRaised? then Err(Status(502))
    else match OpenSearchHitsOf(answer.hits)
      case Ok(hits) => Ok(SearchResponse(answer.total, hits, None))
      case Err(e) => Err(e)
  }

  /** `_opensearch_semantic` and `_opensearch_hybrid`: the hybrid search
      goes through the search pipeline; `total` is the one OpenSearch
      reports and there are no facets. */
  method OpenSearchScene(kind: MQ.SearchKind, queryText: string, k: int, modelId: string, answer: OpenSearchAnswer)
    returns (call: Call, response: Result<SearchResponse, HttpError>)
    requires kind != MQ.Fulltext
    ensures kind == MQ.Semantic ==> call == OpenSearchSearch(Queries.SemanticQuery(queryText, k, modelId), false)
    ensures kind == MQ.Hybrid ==> call == OpenSearchSearch(Queries.HybridQueryOf(queryText, k, modelId), true)
    ensures answer.OpenSearchRaised? ==> response == Err(Status(502))
    ensures answer.Answered? ==> match OpenSearchHitsOf(answer.hits)
      case Ok(hits) => response == Ok(SearchResponse(answer.total, hits, None))
      case Err(e) => response == Err(e)
    ensures response == OpenSearchResponseOf(answer)
  {
    if kind == MQ.Semantic {
      call := OpenSearchSearch(Queries.SemanticQuery(queryText, k, modelId), false);
    } else {
      call := OpenSearchSearch(Queries.HybridQueryOf(queryText, k, modelId), true);
    }
    if answer.OpenSearchRaised? {
      return call, Err(Status(502));
    }
    var hits := ParseOpenSearchHits(answer.hits);
    if hits.Err? {
      return call, Err(hits.error);
    }
    response := Ok(SearchResponse(answer.total, hits.value, None));
  }

  // ---------------------------------------------------------------------
  // scene_search and content_search
  // ---------------------------------------------------------------------

  /** The query parameters of `/v1/search/scene` and `/v1/search/content`. */
  datatype SearchParams = SearchParams(queryText: Option<string>, k: Option<int>, searchType: Option<string>)

  /** `query_text` is required and non-empty, `k` (10 by default) lies in
      1..100 and `search_type` (hybrid by default) is one of the three. */
  predicate ValidSearchParams(p: SearchParams) {
    && p.queryText.Some? && p.queryText.value != ""
    && 1 <= p.k.GetOr(10) <= 100
    && KindOf(p.searchType, MQ.Hybrid).Some?
  }

  /** `scene_search`. */
  method SceneSearch(backend: Backend, p: SearchParams, modelId: string,
                     milvus: MilvusAnswer<MQ.SceneEntity>, openSearch: OpenSearchAnswer)
    returns (call: Option<Call>, response: Result<SearchResponse, HttpError>)
    ensures !ValidSearchParams(p) ==> call == None && response == Err(Status(422))
    ensures ValidSearchParams(p) ==>
      var kind := KindOf(p.searchType, MQ.Hybrid).value;
      var k := p.k.GetOr(10);
      match SceneAction(backend, kind)
      case Refuse(code) => call == None && response == Err(Status(code))
      case ToMilvus(kd) =>
        && call == Some(MilvusSearch(SceneCollection, MQ.SearchCall(kd, k, None)))
        && response == MilvusSceneResponseOf(milvus)
      case ToOpenSearch(kd) =>
        && (kd == MQ.Semantic ==> call == Some(OpenSearchSearch(Queries.SemanticQuery(p.queryText.value, k, modelId), false)))
        && (kd != MQ.Semantic ==> call == Some(OpenSearchSearch(Queries.HybridQueryOf(p.queryText.value, k, modelId), true)))
        && response == OpenSearchResponseOf(openSearch)
        && call.Some? && call.value.OpenSearchSearch? && call.value.body.size == k && Queries.Texts(call.value.body) != []
  {
    if !ValidSearchParams(p) {
      return None, Err(Status(422));
    }
    var kind := KindOf(p.searchType, MQ.Hybrid).value;
    var k := p.k.GetOr(10);
    var text := p.queryText.value;
    match SceneAction(backend, kind)
    case Refuse(code) => {
      return None, Err(Status(code));
    }
    case ToMilvus(kd) => {
      var c;
      c, response := MilvusScene(kd, k, None, milvus);
      call := Some(c);
    }
    case ToOpenSearch(kd) => {
      var c;
      c, response := OpenSearchScene(kd, text, k, modelId, openSearch);
      call := Some(c);
      Queries.SemanticCarries(text, k, modelId);
      Queries.HybridCarries(text, k, modelId);
    }
  }

  /** The keyword arguments `ContentHit(**h)` receives: every key the
      parser emits is a ContentHit field. */
  function ContentKwargs(h: MQ.ContentHitDict): RawContentHit {
    RawContentHit(
      Some(h.score), Some(h.contentId), Some(h.title), Some(h.description), None, Some(h.tags),
      Some(h.durationSec), Some(h.createdAt), Some(h.category), Some(h.author),
      None, None, None, None, None, None)
  }

  /** Every parsed content hit validates and keeps its fields. */
  lemma ContentKwargsValid(h: MQ.ContentHitDict)
    ensures ValidateContentHit(ContentKwargs(h)).Ok?
    ensures var v := ValidateContentHit(ContentKwargs(h)).value;
      && v.score == h.score && v.contentId == h.contentId && v.title == h.title
      && v.description == h.description && v.tags == h.tags && v.durationSec == h.durationSec
      && v.category == h.category && v.author == h.author && v.videoSummary == ""
  {
  }

  function ContentKwargsAll(hits: seq<MQ.ContentHitDict>): (raws: seq<RawContentHit>)
    ensures |raws| == |hits|
    ensures forall i :: 0 <= i < |hits| ==> raws[i] == ContentKwargs(hits[i])
  {
    seq(|hits|, i requires 0 <= i < |hits| => ContentKwargs(hits[i]))
  }

  /** `ContentSearchResponse(...)` for a Milvus content search result. */
  function ContentResponseOf(r: MQ.ContentSearch): (resp: Result<ContentSearchResponse, HttpError>)
    ensures resp.Ok? ==> resp.value.total == r.total && resp.value.facets == Some(ContentFacetsOf(r.facets))
  {
    match ValidateEach(ContentKwargsAll(r.hits), ValidateContentHit)
    case Ok(hits) => Ok(ContentSearchResponse(r.total, hits, Some(ContentFacetsOf(r.facets))))
    case Err(_) => Err(Unhandled)
  }

  /** A content search always shapes into a response, one hit per result
      in order. */
  lemma ContentResponseOk(r: MQ.ContentSearch)
    ensures ContentResponseOf(r).Ok?
    ensures var v := ContentResponseOf(r).value;
      && |v.hits| == |r.hits|
      && forall i :: 0 <= i < |r.hits| ==> v.hits[i].contentId == r.hits[i].contentId && v.hits[i].score == r.hits[i].score
  {
    var raws := ContentKwargsAll(r.hits);
    forall i | 0 <= i < |raws|
      ensures ValidateContentHit(raws[i]).Ok?
    {
      ContentKwargsValid(r.hits[i]);
    }
    var v := ContentResponseOf(r).value;
    forall i | 0 <= i < |r.hits|
      ensures v.hits[i].contentId == r.hits[i].contentId && v.hits[i].score == r.hits[i].score
    {
      ContentKwargsValid(r.hits[i]);
      ValidateEachAt(raws, ValidateContentHit, i);
    }
  }

  /** What a Milvus content search answers: 502 when the client raises,
      otherwise the shaped result. */
  function MilvusContentResponseOf(answer: MilvusAnswer<MQ.ContentEntity>): Result<ContentSearchResponse, HttpError> {
    if answer.MilvusRaised? then Err(Status(502)) else ContentResponseOf(MQ.ContentSearchOf(answer.found))
  }

  /** `_milvus_content_semantic`, `_milvus_content_fulltext` and
      `_milvus_content_hybrid`. */
  method MilvusContent(kind: MQ.SearchKind, k: int, filterExpr: Option<string>, answer: MilvusAnswer<MQ.ContentEntity>)
    returns (call: Call, response: Result<ContentSearchResponse, HttpError>)
    ensures call == MilvusSearch(ContentCollection, MQ.SearchCall(kind, k, MQ.FilterArg(filterExpr)))
    ensures answer.MilvusRaised? ==> response == Err(Status(502))
    ensures answer.Found? ==> response.Ok?
    ensures answer.Found? ==> response.value.total == |response.value.hits| == |answer.found|
    ensures answer.Found? ==> forall i :: 0 <= i < |answer.found| ==>
      response.value.hits[i].contentId == answer.found[i].entity.contentId.GetOr("")
    ensures answer.Found? ==> response == ContentResponseOf(MQ.ContentSearchOf(answer.found))
    ensures response == MilvusContentResponseOf(answer)
  {
    var found := if answer.Found? then answer.found else [];
    var searchCall, r := MQ.SearchContents(kind, k, filterExpr, found);
    call := MilvusSearch(ContentCollection, searchCall);
    if answer.MilvusRaised? {
      return call, Err(Status(502));
    }
    ContentResponseOk(r);
    response := ContentResponseOf(r);
  }

  /** `content_search`: Milvus only; hybrid by default. */
  method ContentSearch(backend: Backend, p: SearchParams, milvus: MilvusAnswer<MQ.ContentEntity>)
    returns (call: Option<Call>, response: Result<ContentSearchResponse, HttpError>)
    ensures !ValidSearchParams(p) ==> call == None && response == Err(Status(422))
    ensures ValidSearchParams(p) && backend != SyncUtils.Milvus ==> call == None && response == Err(Status(501))
    ensures ValidSearchParams(p) && backend == SyncUtils.Milvus ==>
      && call == Some(MilvusSearch(ContentCollection, MQ.SearchCall(KindOf(p.searchType, MQ.Hybrid).value, p.k.GetOr(10), None)))
      && response == MilvusContentResponseOf(milvus)
  {
    if !ValidSearchParams(p) {
      return None, Err(Status(422));
    }
    var kind := KindOf(p.searchType, MQ.Hybrid).value;
    match MilvusOnlyAction(backend, kind)
    case Refuse(code) => {
      return None, Err(Status(code));
    }
    case ToMilvus(kd) => {
      var c;
      c, response := MilvusContent(kd, p.k.GetOr(10), None, milvus);
      call := Some(c);
    }
  }

  // ---------------------------------------------------------------------
  // The id-list filter endpoints
  // ---------------------------------------------------------------------

  /** The body of `/v1/search/scene/filter` (`scene_ids`) and
      `/v1/search/content/filter` (`content_ids`). */
  datatype FilterRequest = FilterRequest(queryText: Option<string>, ids: Option<seq<string>>, k: Option<int>, searchType: Option<string>)

  /** Both lists are required with at least one element; the search type
      defaults to semantic. */
  predicate ValidFilterRequest(req: FilterRequest) {
    && req.queryText.Some? && req.queryText.value != ""
    && req.ids.Some? && req.ids.value != []
    && 1 <= req.k.GetOr(10) <= 100
    && KindOf(req.searchType, MQ.Semantic).Some?
  }

  /** An id-list filter is never empty text, so it is always sent. */
  lemma IdListFilterSent(field: string, ids: seq<string>)
    ensures MQ.FilterArg(Some(IdListFilter(field, ids))) == Some(IdListFilter(field, ids))
  {
    assert IdListFilter(field, ids)[|field|] == ' ';
  }

  /** `scene_filter_search`. */
  method SceneFilterSearch(backend: Backend, req: FilterRequest, milvus: MilvusAnswer<MQ.SceneEntity>)
    returns (call: Option<Call>, response: Result<SearchResponse, HttpError>)
    ensures !ValidFilterRequest(req) ==> call == None && response == Err(Status(422))
    ensures ValidFilterRequest(req) && backend != SyncUtils.Milvus ==> call == None && response == Err(Status(501))
    ensures ValidFilterRequest(req) && backend == SyncUtils.Milvus ==>
      call == Some(MilvusSearch(SceneCollection, MQ.SearchCall(
        KindOf(req.searchType, MQ.Semantic).value, req.k.GetOr(10),
        Some(IdListFilter("scene_id", req.ids.value)))))
    ensures ValidFilterRequest(req) && backend == SyncUtils.Milvus ==> response == MilvusSceneResponseOf(milvus)
    ensures ValidFilterRequest(req) && backend == SyncUtils.Milvus && milvus.Found? ==>
      response.Ok? && response.value.total == |milvus.found|
  {
    if !ValidFilterRequest(req) {
      return None, Err(Status(422));
    }
    if backend != SyncUtils.Milvus {
      return None, Err(Status(501));
    }
    var filterExpr := IdListFilter("scene_id", req.ids.value);
    IdListFilterSent("scene_id", req.ids.value);
    var c;
    c, response := MilvusScene(KindOf(req.searchType, MQ.Semantic).value, req.k.GetOr(10), Some(filterExpr), milvus);
    call := Some(c);
  }

  /** `content_filter_search`. */
  method ContentFilterSearch(backend: Backend, req: FilterRequest, milvus: MilvusAnswer<MQ.ContentEntity>)
    returns (call: Option<Call>, response: Result<ContentSearchResponse, HttpError>)
    ensures !ValidFilterRequest(req) ==> call == None && response == Err(Status(422))
    ensures ValidFilterRequest(req) && backend != SyncUtils.Milvus ==> call == None && response == Err(Status(501))
    ensures ValidFilterRequest(req) && backend == SyncUtils.Milvus ==>
      call == Some(MilvusSearch(ContentCollection, MQ.SearchCall(
        KindOf(req.searchType, MQ.Semantic).value, req.k.GetOr(10),
        Some(IdListFilter("content_id", req.ids.value)))))
    ensures ValidFilterRequest(req) && backend == SyncUtils.Milvus ==> response == MilvusContentResponseOf(milvus)
  {
    if !ValidFilterRequest(req) {
      return None, Err(Status(422));
    }
    if backend != SyncUtils.Milvus {
      return None, Err(Status(501));
    }
    var filterExpr := IdListFilter("content_id", req.ids.value);
    IdListFilterSent("content_id", req.ids.value);
    var c;
    c, response := MilvusContent(KindOf(req.searchType, MQ.Semantic).value, req.k.GetOr(10), Some(filterExpr), milvus);
    call := Some(c);
  }

  // ---------------------------------------------------------------------
  // The list endpoints
  // ---------------------------------------------------------------------

  /** `skip` (0 by default) is not negative and `limit` (20 by default)
      lies in 1..1000. */
  predicate ValidPage(skip: Option<int>, limit: Option<int>) {
    skip.GetOr(0) >= 0 && 1 <= limit.GetOr(20) <= 1000
  }

  /** A scene row as the list query returns it. */
  datatype SceneRow = SceneRow(entity: MQ.SceneEntity, faces: ListField<RawFaceItem>)

  /** The row with `video_tags` and `faces` replaced by decoded lists. */
  function NormalizeScene(r: SceneRow): (n: SceneRow)
    ensures n.entity.videoTags == Native(ListOrEmpty(r.entity.videoTags))
    ensures n.faces == Native(ListOrEmpty(r.faces))
    ensures n.entity.(videoTags := r.entity.videoTags) == r.entity
  {
    SceneRow(r.entity.(videoTags := Native(ListOrEmpty(r.entity.videoTags))), Native(ListOrEmpty(r.faces)))
  }

  /** Normalising twice is normalising once, and a row whose fields hold
      JSON written by `json.dumps` normalises to the lists written. */
  lemma NormalizeSceneLaws(r: SceneRow, tags: seq<string>, faces: seq<RawFaceItem>)
    ensures NormalizeScene(NormalizeScene(r)) == NormalizeScene(r)
    ensures NormalizeScene(SceneRow(r.entity.(videoTags := Encoded(Dumps(tags))), Encoded(Dumps(faces))))
      == SceneRow(r.entity.(videoTags := Native(tags)), Native(faces))
  {
  }

  datatype Listing<T> = Listing(total: int, items: seq<T>)

  /** What a list query answers: rows, or an exception (which no handler
      catches). */
  datatype ListAnswer<T> = Rows(rows: seq<T>) | ListRaised

  /** `list_scenes`: `total` is the number of items on this page. */
  method ListScenes(backend: Backend, skip: Option<int>, limit: Option<int>, answer: ListAnswer<SceneRow>)
    returns (call: Option<Call>, response: Result<Listing<SceneRow>, HttpError>)
    ensures !ValidPage(skip, limit) ==> call == None && response == Err(Status(422))
    ensures ValidPage(skip, limit) && backend != SyncUtils.Milvus ==> call == None && response == Err(Status(501))
    ensures ValidPage(skip, limit) && backend == SyncUtils.Milvus ==>
      call == Some(MilvusList(SceneCollection, limit.GetOr(20), skip.GetOr(0)))
    ensures ValidPage(skip, limit) && backend == SyncUtils.Milvus && answer.ListRaised? ==> response == Err(Unhandled)
    ensures ValidPage(skip, limit) && backend == SyncUtils.Milvus && answer.Rows? ==>
      && response.Ok?
      && response.value.total == |response.value.items| == |answer.rows|
      && forall i :: 0 <= i < |answer.rows| ==> response.value.items[i] == NormalizeScene(answer.rows[i])
  {
    if !ValidPage(skip, limit) {
      return None, Err(Status(422));
    }
    if backend != SyncUtils.Milvus {
      return None, Err(Status(501));
    }
    call := Some(MilvusList(SceneCollection, limit.GetOr(20), skip.GetOr(0)));
    if answer.ListRaised? {
      return call, Err(Unhandled);
    }
    var rows := answer.rows;
    var items: seq<SceneRow> := [];
    var i := 0;
    while i < |rows|
      invariant 0 <= i <= |rows|
      invariant |items| == i
      invariant forall j :: 0 <= j < i ==> items[j] == NormalizeScene(rows[j])
    {
      var r := rows[i];
      var tags := ListOrEmpty(r.entity.videoTags);
      var faces := ListOrEmpty(r.faces);
      items := items + [SceneRow(r.entity.(videoTags := Native(tags)), Native(faces))];
      i := i + 1;
    }
    response := Ok(Listing(|items|, items));
  }

  /** The row with `tags` replaced by the decoded list. */
  function NormalizeContent(e: MQ.ContentEntity): (n: MQ.ContentEntity)
    ensures n.tags == Native(ListOrEmpty(e.tags))
    ensures n.(tags := e.tags) == e
  {
    e.(tags := Native(ListOrEmpty(e.tags)))
  }

  /** Normalising twice is normalising once; tags written by `json.dumps`
      come back as the list written. */
  lemma NormalizeContentLaws(e: MQ.ContentEntity, tags: seq<string>)
    ensures NormalizeContent(NormalizeContent(e)) == NormalizeContent(e)
    ensures NormalizeContent(e.(tags := Encoded(Dumps(tags)))) == e.(tags := Native(tags))
  {
  }

  /** `list_contents`. */
  method ListContents(backend: Backend, skip: Option<int>, limit: Option<int>, answer: ListAnswer<MQ.ContentEntity>)
    returns (call: Option<Call>, response: Result<Listing<MQ.ContentEntity>, HttpError>)
    ensures !ValidPage(skip, limit) ==> call == None && response == Err(Status(422))
    ensures ValidPage(skip, limit) && backend != SyncUtils.Milvus ==> call == None && response == Err(Status(501))
    ensures ValidPage(skip, limit) && backend == SyncUtils.Milvus ==>
      call == Some(MilvusList(ContentCollection, limit.GetOr(20), skip.GetOr(0)))
    ensures ValidPage(skip, limit) && backend == SyncUtils.Milvus && answer.ListRaised? ==> response == Err(Unhandled)
    ensures ValidPage(skip, limit) && backend == SyncUtils.Milvus && answer.Rows? ==>
      && response.Ok?
      && response.value.total == |response.value.items| == |answer.rows|
      && forall i :: 0 <= i < |answer.rows| ==> response.value.items[i] == NormalizeContent(answer.rows[i])
  {
    if !ValidPage(skip, limit) {
      return None, Err(Status(422));
    }
    if backend != SyncUtils.Milvus {
      return None, Err(Status(501));
    }
    call := Some(MilvusList(ContentCollection, limit.GetOr(20), skip.GetOr(0)));
    if answer.ListRaised? {
      return call, Err(Unhandled);
    }
    var rows := answer.rows;
    var items: seq<MQ.ContentEntity> := [];
    var i := 0;
    while i < |rows|
      invariant 0 <= i <= |rows|
      invariant |items| == i
      invariant forall j :: 0 <= j < i ==> items[j] == NormalizeContent(rows[j])
    {
      var tags := ListOrEmpty(rows[i].tags);
      items := items + [rows[i].(tags := Native(tags))];
      i := i + 1;
    }
    response := Ok(Listing(|items|, items));
  }
}
