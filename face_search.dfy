/** Face search: scenes whose `faces` field mentions given names, optionally
    narrowed by facet filters. The filter expressions are built as text;
    the scene query itself is the Milvus client's, whose answer is a
    parameter. */
module FaceSearch {
  import opened Wrappers
  import opened Http
  import opened Json
  import opened Text
  import opened MilvusFilter
  import MilvusQueries
  import opened SceneModels
  import opened SearchModels
  import opened SyncUtils

  // ---------------------------------------------------------------------
  // _build_face_filter
  // ---------------------------------------------------------------------

  /** `faces like "%<escaped name>%"`. */
  function LikeClause(name: string): string {
    "faces like \"%" + Escape(name) + "%\""
  }

  function LikeClauses(names: seq<string>): (parts: seq<string>)
    ensures |parts| == |names|
    ensures forall i :: 0 <= i < |names| ==> parts[i] == LikeClause(names[i])
  {
    seq(|names|, i requires 0 <= i < |names| => LikeClause(names[i]))
  }

  function Parenthesised(parts: seq<string>): (ps: seq<string>)
    ensures |ps| == |parts|
    ensures forall i :: 0 <= i < |parts| ==> ps[i] == "(" + parts[i] + ")"
  {
    seq(|parts|, i requires 0 <= i < |parts| => "(" + parts[i] + ")")
  }

  /** One name gives its bare clause; otherwise the parenthesised clauses
      are joined by " or " (no names give the empty text). */
  function FaceFilterOf(names: seq<string>): string {
    var parts := LikeClauses(names);
    if |parts| == 1 then parts[0] else Join(" or ", Parenthesised(parts))
  }

  /** `_build_face_filter`. */
  method BuildFaceFilter(names: seq<string>) returns (expr: string)
    ensures expr == FaceFilterOf(names)
  {
    var parts: seq<string> := [];
    var i := 0;
    while i < |names|
      invariant 0 <= i <= |names|
      invariant parts == LikeClauses(names[..i])
    {
      var escaped := Escape(names[i]);
      parts := parts + ["faces like \"%" + escaped + "%\""];
      i := i + 1;
    }
    assert names[..|names|] == names;
    if |parts| == 1 {
      return parts[0];
    }
    var wrapped: seq<string> := [];
    var j := 0;
    while j < |parts|
      invariant 0 <= j <= |parts|
      invariant wrapped == Parenthesised(parts[..j])
    {
      wrapped := wrapped + ["(" + parts[j] + ")"];
      j := j + 1;
    }
    assert parts[..|parts|] == parts;
    return Join(" or ", wrapped);
  }

  /** A like-clause is `faces like ` followed by a double-quoted literal
      that reads back as `%name%`, whatever characters the name holds. */
  lemma LikeClauseReadsBack(name: string)
    ensures var clause := LikeClause(name);
      && clause[..11] == "faces like "
      && ReadLiteral(clause[11..]) == Some(("%" + name + "%", ""))
  {
    var pattern := "%" + name + "%";
    EscapePercents(name);
    assert LikeClause(name) == "faces like " + Quote(pattern);
    assert LikeClause(name)[11..] == Quote(pattern) + "";
    ReadQuote(pattern, "");
  }

  /** The percent signs around a name are written as they are. */
  lemma EscapePercents(name: string)
    ensures Escape("%" + name + "%") == "%" + Escape(name) + "%"
  {
    EscapeConcat("%", name);
    EscapeConcat("%" + name, "%");
    EscapeClean("%");
  }

  /** One name: the filter is that name's clause alone. Several: the
      filter is the clauses, each in parentheses, joined by " or ", and each
      clause reads back as its name. */
  lemma FaceFilterShape(names: seq<string>)
    requires names != []
    ensures |names| == 1 ==> FaceFilterOf(names) == LikeClause(names[0])
    ensures |names| > 1 ==> FaceFilterOf(names) == Join(" or ", Parenthesised(LikeClauses(names)))
    ensures forall i :: 0 <= i < |names| ==>
      ReadLiteral(LikeClauses(names)[i][11..]) == Some(("%" + names[i] + "%", ""))
  {
    forall i | 0 <= i < |names|
      ensures ReadLiteral(LikeClauses(names)[i][11..]) == Some(("%" + names[i] + "%", ""))
    {
      LikeClauseReadsBack(names[i]);
    }
  }

  // ---------------------------------------------------------------------
  // _build_facet_filter
  // ---------------------------------------------------------------------

  /** `[v for v in values if v]`. */
  function NonEmpty(values: seq<string>): (clean: seq<string>)
    ensures forall i :: 0 <= i < |clean| ==> clean[i] != ""
    ensures forall v :: v in clean <==> v in values && v != ""
    ensures |clean| <= |values|
    decreases |values|
  {
    if values == [] then []
    else (if values[0] != "" then [values[0]] else []) + NonEmpty(values[1..])
  }

  /** The comprehension keeps the order of the values: filtering a list is
      filtering its two halves. */
  lemma {:induction false} NonEmptyConcat(a: seq<string>, b: seq<string>)
    ensures NonEmpty(a + b) == NonEmpty(a) + NonEmpty(b)
    decreases |a|
  {
    if a == [] {
      assert a + b == b;
    } else {
      assert (a + b)[0] == a[0] && (a + b)[1..] == a[1..] + b;
      NonEmptyConcat(a[1..], b);
      var h := if a[0] != "" then [a[0]] else [];
      calc {
        NonEmpty(a + b);
        h + NonEmpty(a[1..] + b);
        h + (NonEmpty(a[1..]) + NonEmpty(b));
        { AppendAssoc(h, NonEmpty(a[1..]), NonEmpty(b)); }
        (h + NonEmpty(a[1..])) + NonEmpty(b);
        NonEmpty(a) + NonEmpty(b);
      }
    }
  }

  /** The values of a field that take part: none when the list is None. */
  function CleanValues(values: Option<seq<string>>): seq<string> {
    if values.Some? then NonEmpty(values.value) else []
  }

  /** One clean value: `field == "v"`; several: `field in ["a", "b"]`. */
  function Condition(field: string, clean: seq<string>): string
    requires clean != []
  {
    if |clean| == 1 then field + " == " + Quote(clean[0]) else InList(field, clean)
  }

  /** The conditions of the fields that have clean values, in field order. */
  function Conditions(fields: seq<(string, Option<seq<string>>)>): seq<string>
    decreases |fields|
  {
    if fields == [] then []
    else
      var prior := Conditions(fields[..|fields| - 1]);
      var (field, values) := fields[|fields| - 1];
      var clean := CleanValues(values);
      if clean == [] then prior else prior + [Condition(field, clean)]
  }

  function FacetFilterOf(fields: seq<(string, Option<seq<string>>)>): Option<string> {
    var conditions := Conditions(fields);
    if conditions == [] then None else Some(Join(" and ", conditions))
  }

  /** `_build_facet_filter` over the dict's items in order. */
  method BuildFacetFilter(fields: seq<(string, Option<seq<string>>)>) returns (expr: Option<string>)
    ensures expr == FacetFilterOf(fields)
  {
    var conditions: seq<string> := [];
    var i := 0;
    while i < |fields|
      invariant 0 <= i <= |fields|
      invariant conditions == Conditions(fields[..i])
    {
      var (field, values) := fields[i];
      ConditionsSnoc(fields, i);
      if values.Some? && values.value != [] {
        var clean := NonEmpty(values.value);
        if clean != [] {
          if |clean| == 1 {
            conditions := conditions + [field + " == " + Quote(clean[0])];
          } else {
            conditions := conditions + [InList(field, clean)];
          }
        }
      }
      i := i + 1;
    }
    assert fields[..|fields|] == fields;
    if conditions == [] {
      return None;
    }
    return Some(Join(" and ", conditions));
  }

  /** The conditions of one more field. */
  lemma ConditionsSnoc(fields: seq<(string, Option<seq<string>>)>, i: nat)
    requires i < |fields|
    ensures var clean := CleanValues(fields[i].1);
      Conditions(fields[..i + 1]) ==
        if clean == [] then Conditions(fields[..i]) else Conditions(fields[..i]) + [Condition(fields[i].0, clean)]
  {
    assert fields[..i + 1][..i] == fields[..i];
  }

  /** The number of fields that contribute a condition. */
  function Contributing(fields: seq<(string, Option<seq<string>>)>): nat
    decreases |fields|
  {
    if fields == [] then 0
    else Contributing(fields[..|fields| - 1]) + (if CleanValues(fields[|fields| - 1].1) != [] then 1 else 0)
  }

  /** There is one condition per field with a non-empty value, so the
      filter is None exactly when no field has one. */
  lemma {:induction false} ConditionsCount(fields: seq<(string, Option<seq<string>>)>)
    ensures |Conditions(fields)| == Contributing(fields)
    ensures FacetFilterOf(fields).None? <==> forall i :: 0 <= i < |fields| ==> CleanValues(fields[i].1) == []
    decreases |fields|
  {
    if fields != [] {
      var prefix := fields[..|fields| - 1];
      ConditionsCount(prefix);
      assert forall i :: 0 <= i < |prefix| ==> prefix[i] == fields[i];
      ContributingZero(fields);
    }
  }

  lemma {:induction false} ContributingZero(fields: seq<(string, Option<seq<string>>)>)
    ensures Contributing(fields) == 0 <==> forall i :: 0 <= i < |fields| ==> CleanValues(fields[i].1) == []
    decreases |fields|
  {
    if fields != [] {
      var prefix := fields[..|fields| - 1];
      ContributingZero(prefix);
      assert forall i :: 0 <= i < |prefix| ==> prefix[i] == fields[i];
    }
  }

  /** Exactly the empty strings are dropped: a list without one passes
      unchanged, and every other list loses one element per empty string. */
  lemma {:induction false} NonEmptyDropsBlanks(values: seq<string>)
    ensures |NonEmpty(values)| == |values| - multiset(values)[""]
    ensures NonEmpty(values) == values <==> "" !in values
    decreases |values|
  {
    if values != [] {
      NonEmptyDropsBlanks(values[1..]);
      assert values == [values[0]] + values[1..];
      assert multiset(values) == multiset{values[0]} + multiset(values[1..]);
    }
  }

  /** A condition reads back as its field and its values: one value as an
      equality with a literal, several as an `in` list, in order. */
  lemma ConditionReadsBack(field: string, clean: seq<string>)
    requires clean != []
    ensures |clean| == 1 ==>
      var eq := field + " == ";
      var c := Condition(field, clean);
      c[..|eq|] == eq && ReadLiteral(c[|eq|..]) == Some((clean[0], ""))
    ensures |clean| > 1 ==>
      var prefix := field + " in [";
      var c := Condition(field, clean);
      c[..|prefix|] == prefix && ReadList(c[|prefix|..]) == Some((clean, ""))
  {
    if |clean| == 1 {
      var eq := field + " == ";
      var c := Condition(field, clean);
      assert c == eq + (Quote(clean[0]) + "");
      assert c[|eq|..] == Quote(clean[0]) + "";
      ReadQuote(clean[0], "");
    } else {
      ReadInList(field, clean, "");
      assert InList(field, clean) + "" == InList(field, clean);
    }
  }

  // ---------------------------------------------------------------------
  // _combine_filters
  // ---------------------------------------------------------------------

  predicate Truthy(e: Option<string>) {
    e.Some? && e.value != ""
  }

  /** `[e for e in exprs if e]`. */
  function TruthyParts(exprs: seq<Option<string>>): (parts: seq<string>)
    ensures |parts| <= |exprs|
    ensures forall i :: 0 <= i < |parts| ==> parts[i] != ""
    ensures forall e :: e in parts <==> Some(e) in exprs && e != ""
    decreases |exprs|
  {
    if exprs == [] then []
    else (if Truthy(exprs[0]) then [exprs[0].value] else []) + TruthyParts(exprs[1..])
  }

  /** The truthy expressions keep their order. */
  lemma {:induction false} TruthyPartsConcat(a: seq<Option<string>>, b: seq<Option<string>>)
    ensures TruthyParts(a + b) == TruthyParts(a) + TruthyParts(b)
    decreases |a|
  {
    if a == [] {
      assert a + b == b;
    } else {
      assert (a + b)[0] == a[0] && (a + b)[1..] == a[1..] + b;
      TruthyPartsConcat(a[1..], b);
      var h := if Truthy(a[0]) then [a[0].value] else [];
      calc {
        TruthyParts(a + b);
        h + TruthyParts(a[1..] + b);
        h + (TruthyParts(a[1..]) + TruthyParts(b));
        { AppendAssoc(h, TruthyParts(a[1..]), TruthyParts(b)); }
        (h + TruthyParts(a[1..])) + TruthyParts(b);
        TruthyParts(a) + TruthyParts(b);
      }
    }
  }

  /** `_combine_filters`: the truthy expressions; None when there are none,
      the expression itself when there is one, and the parenthesised
      expressions joined by " and " otherwise. */
  function CombineFilters(exprs: seq<Option<string>>): (r: Option<string>)
    ensures r.None? <==> forall i :: 0 <= i < |exprs| ==> !Truthy(exprs[i])
  {
    TruthyPartsEmpty(exprs);
    var parts := TruthyParts(exprs);
    if parts == [] then None
    else if |parts| == 1 then Some(parts[0])
    else Some(Join(" and ", Parenthesised(parts)))
  }

  lemma {:induction false} TruthyPartsEmpty(exprs: seq<Option<string>>)
    ensures TruthyParts(exprs) == [] <==> forall i :: 0 <= i < |exprs| ==> !Truthy(exprs[i])
    decreases |exprs|
  {
    if exprs != [] {
      TruthyPartsEmpty(exprs[1..]);
      assert forall i :: 1 <= i < |exprs| ==> exprs[i] == exprs[1..][i - 1];
    }
  }

  /** A single truthy expression passes through unchanged, whatever
      falsy expressions surround it. */
  lemma CombineAlone(a: string)
    requires a != ""
    ensures CombineFilters([Some(a), None]) == Some(a)
    ensures CombineFilters([Some(a), Some("")]) == Some(a)
  {
    assert [Some(a), None][1..] == [None];
    var none: seq<Option<string>> := [None];
    assert none[1..] == [];
    assert TruthyParts(none) == [];
    assert TruthyParts([Some(a), None]) == [a];
    assert [Some(a), Some("")][1..] == [Some("")];
    assert [Some("")][1..] == [];
    assert TruthyParts([Some("")]) == [];
    assert TruthyParts([Some(a), Some("")]) == [a];
  }

  /** Two truthy expressions are each parenthesised and joined by " and ". */
  lemma CombineBoth(a: string, b: string)
    requires a != "" && b != ""
    ensures CombineFilters([Some(a), Some(b)]) == Some("(" + a + ") and (" + b + ")")
  {
    assert [Some(a), Some(b)][1..] == [Some(b)];
    assert [Some(b)][1..] == [];
    assert TruthyParts([Some(b)]) == [b];
    assert TruthyParts([Some(a), Some(b)]) == [a, b];
    var ps := Parenthesised([a, b]);
    assert ps == ["(" + a + ")", "(" + b + ")"];
    assert ps[1..] == ["(" + b + ")"];
    assert Join(" and ", ps[1..]) == "(" + b + ")";
    assert Join(" and ", ps) == "(" + a + ")" + " and " + "(" + b + ")";
    assert "(" + a + ")" + " and " + "(" + b + ")" == "(" + a + ") and (" + b + ")";
    assert CombineFilters([Some(a), Some(b)]) == Some(Join(" and ", ps));
  }

  // ---------------------------------------------------------------------
  // _parse_entity
  // ---------------------------------------------------------------------

  /** A scene entity from a Milvus query, with the keys `_parse_entity`
      reads. */
  datatype FaceEntity = FaceEntity(
    sceneId: Option<string>,
    sceneDescription: Option<string>,
    visualCaption: Option<string>,
    audioSummarization: Option<string>,
    audioTranscription: Option<string>,
    faces: ListField<RawFaceItem>,
    startTimeSec: Option<real>,
    endTimeSec: Option<real>,
    videoId: Option<string>,
    videoTitle: Option<string>,
    videoName: Option<string>,
    videoSummary: Option<string>,
    videoTags: ListField<string>,
    videoDurationSec: Option<real>,
    videoCreatedAt: Option<string>,
    resolution: Option<string>,
    fps: Option<real>,
    programId: Option<string>,
    broadcastDate: Option<string>,
    contentTypeId: Option<string>,
    category: Option<string>,
    createdDate: Option<string>,
    author: Option<string>)

  /** `_parse_entity`: every SceneHit key, with score 1.0 and `content_id`
      taken from `video_id`. A faces or tags text that does not decode
      gives []. */
  function ParseEntity(e: FaceEntity): (h: RawSceneHit)
    ensures h.score == Some(1.0)
    ensures h.contentId == Some(e.videoId.GetOr(""))
    ensures h.faces == Some(ListOrEmpty(e.faces))
    ensures h.videoTags == Some(ListOrEmpty(e.videoTags))
    ensures ValidateSceneHit(h).Ok? <==>
      forall i :: 0 <= i < |ListOrEmpty(e.faces)| ==> ValidateFaceItem(ListOrEmpty(e.faces)[i]).Ok?
  {
    RawSceneHit(
      Some(1.0), Some(e.sceneId.GetOr("")), Some(e.sceneDescription.GetOr("")),
      Some(e.visualCaption.GetOr("")), Some(e.audioSummarization.GetOr("")),
      Some(e.audioTranscription.GetOr("")), Some(ListOrEmpty(e.faces)),
      Some(e.startTimeSec.GetOr(0.0)), Some(e.endTimeSec.GetOr(0.0)), Some(e.videoId.GetOr("")),
      Some(e.videoTitle.GetOr("")), Some(e.videoName.GetOr("")), Some(e.videoSummary.GetOr("")),
      Some(ListOrEmpty(e.videoTags)), Some(e.videoDurationSec.GetOr(0.0)),
      Some(e.videoCreatedAt.GetOr("")), Some(e.resolution.GetOr("")), Some(e.fps.GetOr(0.0)),
      Some(e.programId.GetOr("")), Some(e.broadcastDate.GetOr("")), Some(e.contentTypeId.GetOr("")),
      Some(e.category.GetOr("")), Some(e.createdDate.GetOr("")), Some(e.author.GetOr("")))
  }

  /** What the facet code reads of a parsed entity. */
  function FacetedHit(h: RawSceneHit): MilvusQueries.Faceted {
    MilvusQueries.Faceted(h.sceneId.GetOr(""), map[
      MilvusQueries.Category := h.category.GetOr(""),
      MilvusQueries.CreatedDate := h.createdDate.GetOr(""),
      MilvusQueries.Author := h.author.GetOr("")])
  }

  // ---------------------------------------------------------------------
  // The endpoints
  // ---------------------------------------------------------------------

  /** What the Milvus client is asked: the filter and the limit. */
  datatype QueryCall = QueryCall(filter: Option<string>, limit: int)

  /** What the client answers: rows, or an exception. */
  datatype ClientAnswer<T> = Rows(rows: seq<T>) | ClientError

  /** A route's outcome: the query it issued (if any) and its answer. */
  datatype Routed<T> = Routed(call: Option<QueryCall>, response: Result<T, HttpError>)

  /** Validates the parsed hits; a hit that does not validate raises out of
      the route (the framework answers 500). */
  function ValidateHits(hs: seq<RawSceneHit>): (r: Result<seq<SceneHit>, HttpError>)
    ensures r.Ok? <==> forall i :: 0 <= i < |hs| ==> ValidateSceneHit(hs[i]).Ok?
    ensures r.Ok? ==> |r.value| == |hs| && forall i :: 0 <= i < |hs| ==> r.value[i] == ValidateSceneHit(hs[i]).value
    ensures r.Err? ==> r.error == Unhandled
  {
    match ValidateEach(hs, ValidateSceneHit)
    case Ok(xs) => Ok(xs)
    case Err(_) => Err(Unhandled)
  }

  function ParseAll(rows: seq<FaceEntity>): (hs: seq<RawSceneHit>)
    ensures |hs| == |rows|
    ensures forall i :: 0 <= i < |rows| ==> hs[i] == ParseEntity(rows[i])
  {
    seq(|rows|, i requires 0 <= i < |rows| => ParseEntity(rows[i]))
  }

  function FacetedHits(hs: seq<RawSceneHit>): (fs: seq<MilvusQueries.Faceted>)
    ensures |fs| == |hs|
    ensures forall i :: 0 <= i < |hs| ==> fs[i] == FacetedHit(hs[i])
  {
    seq(|hs|, i requires 0 <= i < |hs| => FacetedHit(hs[i]))
  }

  /** `_search_scenes_by_face`: the face clause and the extra filter are
      combined; a client failure is 502; `total` is the number of hits. */
  function SearchScenesByFace(names: seq<string>, k: int, extra: Option<string>, answer: ClientAnswer<FaceEntity>): (r: Routed<SearchResponse>)
    ensures r.call == Some(QueryCall(CombineFilters([Some(FaceFilterOf(names)), extra]), k))
    ensures answer.ClientError? ==> r.response == Err(Status(502))
    ensures r.response.Ok? ==>
      && answer.Rows?
      && r.response.value.total == |r.response.value.hits| == |answer.rows|
      && r.response.value.facets.Some?
    ensures answer.Rows? ==> var hits := ParseAll(answer.rows);
      && (r.response.Ok? <==> forall i :: 0 <= i < |answer.rows| ==> ValidateSceneHit(ParseEntity(answer.rows[i])).Ok?)
      && (r.response.Ok? ==>
        && (forall i :: 0 <= i < |answer.rows| ==> r.response.value.hits[i] == ValidateSceneHit(ParseEntity(answer.rows[i])).value)
        && r.response.value.facets == Some(FacetsOf(MilvusQueries.SceneFacetsOf(FacetedHits(hits)))))
      && (r.response.Err? ==> r.response.error == Unhandled)
  {
    var call := QueryCall(CombineFilters([Some(FaceFilterOf(names)), extra]), k);
    match answer
    case ClientError => Routed(Some(call), Err(Status(502)))
    case Rows(rows) =>
      var hits := ParseAll(rows);
      match ValidateHits(hits)
      case Err(e) => Routed(Some(call), Err(e))
      case Ok(sceneHits) =>
        var facets := FacetsOf(MilvusQueries.SceneFacetsOf(FacetedHits(hits)));
        Routed(Some(call), Ok(SearchResponse(|sceneHits|, sceneHits, Some(facets))))
  }

  /** An uploaded file; only files with a name count as images. */
  datatype Upload = Upload(filename: string)

  predicate HasRealImage(images: seq<Upload>) {
    exists i :: 0 <= i < |images| && images[i].filename != ""
  }

  /** `face_search`: request validation of `k`, then the backend check
      (501), then any real image (the recogniser is a placeholder: 501),
      then no names (422); otherwise the names are `face_names`. */
  function FaceSearchRoute(backend: Backend, images: seq<Upload>, faceNames: seq<string>, kField: Option<int>, answer: ClientAnswer<FaceEntity>): (r: Routed<SearchResponse>)
    ensures var k := kField.GetOr(10);
      && (!(1 <= k <= 100) ==> r == Routed(None, Err(Status(422))))
      && (1 <= k <= 100 && backend != Milvus ==> r == Routed(None, Err(Status(501))))
      && (1 <= k <= 100 && backend == Milvus && HasRealImage(images) ==> r == Routed(None, Err(Status(501))))
      && (1 <= k <= 100 && backend == Milvus && !HasRealImage(images) && faceNames == [] ==> r == Routed(None, Err(Status(422))))
      && (r.call.Some? <==> 1 <= k <= 100 && backend == Milvus && !HasRealImage(images) && faceNames != [])
      && (r.call.Some? ==> r.call.value == QueryCall(Some(FaceFilterOf(faceNames)), k))
      && (r.call.Some? ==> r == SearchScenesByFace(faceNames, k, None, answer))
  {
    var k := kField.GetOr(10);
    if !(1 <= k <= 100) then Routed(None, Err(Status(422)))
    else if backend != Milvus then Routed(None, Err(Status(501)))
    else if HasRealImage(images) then Routed(None, Err(Status(501)))
    else if faceNames == [] then Routed(None, Err(Status(422)))
    else
      FaceFilterNonEmpty(faceNames);
      CombineAlone(FaceFilterOf(faceNames));
      SearchScenesByFace(faceNames, k, None, answer)
  }

  /** A filter built from at least one name is not empty. */
  lemma FaceFilterNonEmpty(names: seq<string>)
    requires names != []
    ensures FaceFilterOf(names) != ""
  {
    var parts := LikeClauses(names);
    if |parts| != 1 {
      var ps := Parenthesised(parts);
      assert ps[0] == "(" + parts[0] + ")";
      assert Join(" or ", ps) == ps[0] + " or " + Join(" or ", ps[1..]);
    }
  }

  /** The body of `/v1/face_search/filter`, as sent. */
  datatype FaceFilterRequest = FaceFilterRequest(
    faceNames: Option<seq<string>>,
    category: Option<seq<string>>,
    author: Option<seq<string>>,
    createdDate: Option<seq<string>>,
    broadcastDate: Option<seq<string>>,
    programId: Option<seq<string>>,
    contentTypeId: Option<seq<string>>,
    k: Option<int>)

  /** The dict passed to `_build_facet_filter`, in its order. */
  function FacetFields(req: FaceFilterRequest): seq<(string, Option<seq<string>>)> {
    [("category", req.category), ("author", req.author), ("created_date", req.createdDate),
     ("broadcast_date", req.broadcastDate), ("program_id", req.programId),
     ("content_type_id", req.contentTypeId)]
  }

  /** `face_filter_search`: `face_names` must hold at least one name and
      `k` (10 by default) lie in 1..100, else 422; a non-Milvus backend is
      501; otherwise the face clause is combined with the facet filter. */
  function FaceFilterSearchRoute(backend: Backend, req: FaceFilterRequest, answer: ClientAnswer<FaceEntity>): (r: Routed<SearchResponse>)
    ensures var k := req.k.GetOr(10);
      (req.faceNames.None? || req.faceNames.value == [] || !(1 <= k <= 100)) ==> r == Routed(None, Err(Status(422)))
    ensures r.call.Some? <==>
      req.faceNames.Some? && req.faceNames.value != [] && 1 <= req.k.GetOr(10) <= 100 && backend == Milvus
    ensures req.faceNames.Some? && req.faceNames.value != [] && 1 <= req.k.GetOr(10) <= 100 && backend != Milvus ==>
      r == Routed(None, Err(Status(501)))
    ensures r.call.Some? ==> r.call.value == QueryCall(
      CombineFilters([Some(FaceFilterOf(req.faceNames.value)), FacetFilterOf(FacetFields(req))]), req.k.GetOr(10))
    ensures r.call.Some? ==>
      r == SearchScenesByFace(req.faceNames.value, req.k.GetOr(10), FacetFilterOf(FacetFields(req)), answer)
  {
    var k := req.k.GetOr(10);
    if req.faceNames.None? || req.faceNames.value == [] || !(1 <= k <= 100) then Routed(None, Err(Status(422)))
    else if backend != Milvus then Routed(None, Err(Status(501)))
    else SearchScenesByFace(req.faceNames.value, k, FacetFilterOf(FacetFields(req)), answer)
  }

  /** With no facet values, the face filter is sent unchanged. */
  lemma NoFacetsFaceFilterOnly(req: FaceFilterRequest)
    requires req.faceNames.Some? && req.faceNames.value != []
    requires forall i :: 0 <= i < 6 ==> CleanValues(FacetFields(req)[i].1) == []
    ensures CombineFilters([Some(FaceFilterOf(req.faceNames.value)), FacetFilterOf(FacetFields(req))])
      == Some(FaceFilterOf(req.faceNames.value))
  {
    ConditionsCount(FacetFields(req));
    FaceFilterNonEmpty(req.faceNames.value);
    CombineAlone(FaceFilterOf(req.faceNames.value));
  }
}
