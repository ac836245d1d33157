/** The content ingest script: it reads documents from a JSON file, turns
    each into one ContentIngestItem payload and posts them to the content
    ingest endpoint in batches. Reading the file, the command line and the
    HTTP client are outside the model: the documents and the endpoint's
    answers are parameters. */
module IngestContent {
  import opened Wrappers
  import opened Text
  import opened Documents
  import opened SceneModels
  import IngestData

  // ---------------------------------------------------------------------
  // transform_content
  // ---------------------------------------------------------------------

  /** `enriched.get("audio", {})` looked up in a document. */
  function AudioOf(d: MongoDoc): Option<Audio> {
    if d.enriched.Some? then d.enriched.value.audio else None
  }

  /** The audio summary, or the transcription when the summary is missing
      or empty, or "". */
  function ContentDescription(d: MongoDoc): string {
    var audio := AudioOf(d);
    var summary := if audio.Some? then audio.value.summary.GetOr("") else "";
    if summary != "" then summary
    else if audio.Some? then audio.value.transcription.GetOr("")
    else ""
  }

  /** The first scene of the scene list, if there is one. */
  function FirstScene(d: MongoDoc): Option<SceneEntry> {
    var scenes := SceneList(d);
    if scenes == [] then None else Some(scenes[0])
  }

  /** What `transform_content` returns or raises: the dict holds eight
      keys, and `doc["unique_id"]` is the only lookup that can raise. */
  function TransformContentOf(d: MongoDoc): (r: Result<RawContentIngestItem, Raised>)
    ensures r.Ok? <==> d.uniqueId.Some?
    ensures r.Err? ==> r.error == KeyError("unique_id")
    ensures r.Ok? ==> r.value.contentId == d.uniqueId
  {
    var first := FirstScene(d);
    var category := if first.Some? then first.value.category.GetOr("") else "";
    var author := if first.Some? then first.value.author.GetOr("") else "";
    if d.uniqueId.None? then Err(KeyError("unique_id"))
    else Ok(RawContentIngestItem(
      contentId := d.uniqueId,
      title := Some(d.title.GetOr("")),
      description := Some(ContentDescription(d)),
      videoSummary := None,
      tags := Some(d.videoTags.GetOr([])),
      durationSec := Some(d.videoDurationSec.GetOr(0.0)),
      createdAt := Some(IngestData.CreatedAtOf(d.videoCreatedAt).GetOr("")),
      category := Some(category),
      author := Some(author),
      videoName := None,
      resolution := None,
      fps := None,
      programId := None,
      broadcastDate := None,
      contentTypeId := None))
  }

  /** A transformed document is accepted by the content ingest endpoint's
      validation, and the item it becomes carries the document's id, title,
      tags and duration with the script's defaults; the summary falling
      back to the transcription as description; and the category and
      author of the first scene, or "" when there is no scene. */
  lemma ContentPayload(d: MongoDoc)
    requires d.uniqueId.Some?
    ensures ValidateContentIngestItem(TransformContentOf(d).value).Ok?
    ensures var c := ValidateContentIngestItem(TransformContentOf(d).value).value;
      && c.contentId == d.uniqueId.value
      && c.title == d.title.GetOr("")
      && c.tags == d.videoTags.GetOr([])
      && c.durationSec == d.videoDurationSec.GetOr(0.0)
      && c.videoSummary == "" && c.fps == 0.0
      && (d.enriched.Some? && d.enriched.value.audio.Some?
          && d.enriched.value.audio.value.summary.Some? && d.enriched.value.audio.value.summary.value != ""
          ==> c.description == d.enriched.value.audio.value.summary.value)
      && (d.enriched.Some? && d.enriched.value.audio.Some?
          && d.enriched.value.audio.value.summary.GetOr("") == ""
          ==> c.description == d.enriched.value.audio.value.transcription.GetOr(""))
      && (AudioOf(d).None? ==> c.description == "")
      && (SceneList(d) == [] ==> c.category == "" && c.author == "")
      && (SceneList(d) != [] ==>
            c.category == SceneList(d)[0].category.GetOr("") && c.author == SceneList(d)[0].author.GetOr(""))
  {
  }

  // ---------------------------------------------------------------------
  // main
  // ---------------------------------------------------------------------

  /** The loop that fills `all_contents`: one payload per document, in
      order, or the KeyError of the first document without `unique_id`. */
  method AllContents(docs: seq<MongoDoc>) returns (r: Result<seq<RawContentIngestItem>, Raised>)
    ensures r.Ok? <==> forall i :: 0 <= i < |docs| ==> docs[i].uniqueId.Some?
    ensures r.Err? ==> r.error == KeyError("unique_id")
    ensures r.Ok? ==>
      && |r.value| == |docs|
      && forall i :: 0 <= i < |docs| ==> TransformContentOf(docs[i]) == Ok(r.value[i])
  {
    var all: seq<RawContentIngestItem> := [];
    var i := 0;
    while i < |docs|
      invariant 0 <= i <= |docs| && |all| == i
      invariant forall j :: 0 <= j < i ==> TransformContentOf(docs[j]) == Ok(all[j])
    {
      var one := TransformContentOf(docs[i]);
      if one.Err? {
        return Err(one.error);
      }
      all := all + [one.value];
      i := i + 1;
    }
    return Ok(all);
  }

  /** What `main` reports: the number of contents and the sums over the
      batches. */
  datatype ContentReport = ContentReport(contents: nat, sent: IngestData.Sent<RawContentIngestItem>)

  /** `main` after the file is read: transform every document, then post
      the contents in batches. A missing `unique_id` or a step of 0 ends
      the script with an exception. With a positive batch size the batches
      partition the contents in order, none larger than the batch size;
      when every batch is fully indexed the total is the number of
      contents. */
  method RunContentIngest(file: IngestData.JsonDocs, batchSize: int, post: seq<RawContentIngestItem> -> IngestData.BatchAnswer)
    returns (r: Result<ContentReport, Raised>)
    ensures (exists i :: 0 <= i < |IngestData.DocsOf(file)| && IngestData.DocsOf(file)[i].uniqueId.None?)
      ==> r == Err(KeyError("unique_id"))
    ensures (forall i :: 0 <= i < |IngestData.DocsOf(file)| ==> IngestData.DocsOf(file)[i].uniqueId.Some?) ==>
      && (batchSize == 0 ==> r == Err(ValueError))
      && (batchSize != 0 ==> r.Ok? && r.value.contents == |IngestData.DocsOf(file)|)
    ensures r.Ok? && batchSize >= 1 ==>
      var bs := r.value.sent.batches;
      && |IngestData.Concat(bs)| == r.value.contents == |IngestData.DocsOf(file)|
      && (forall i :: 0 <= i < r.value.contents ==>
            TransformContentOf(IngestData.DocsOf(file)[i]) == Ok(IngestData.Concat(bs)[i]))
      && (forall k :: 0 <= k < |bs| ==> 1 <= |bs[k]| <= batchSize)
      && r.value.sent.totalIndexed == IngestData.TotalIndexed(bs, post)
      && r.value.sent.totalErrors == IngestData.TotalErrors(bs, post)
      && ((forall b :: post(b) == IngestData.Indexed(|b|, [])) ==>
            r.value.sent.totalIndexed == r.value.contents && r.value.sent.totalErrors == [])
  {
    var documents := IngestData.DocsOf(file);
    var all :- AllContents(documents);
    var sent :- IngestData.SendBatches(all, batchSize, post);
    if batchSize >= 1 {
      IngestData.BatchesPartition(all, batchSize);
      IngestData.BatchesBounded(all, batchSize);
      if forall b :: post(b) == IngestData.Indexed(|b|, []) {
        IngestData.AllIndexedTotal(sent.batches, post);
      }
    }
    return Ok(ContentReport(|all|, sent));
  }
}
