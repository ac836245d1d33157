/** The scene ingest script: it reads documents from a JSON file, turns
    each into SceneIngestItem payloads and posts them to the ingest
    endpoint in batches. Reading the file, the command line and the HTTP
    client are outside the model: the documents and the endpoint's answers
    are parameters. */
module IngestData {
  import opened Wrappers
  import opened Text
  import opened StepRuns
  import opened Documents
  import opened SceneModels
  import SyncUtils

  // ---------------------------------------------------------------------
  // transform
  // ---------------------------------------------------------------------

  /** `parse_time_to_sec(scene[key])`: a missing key raises KeyError, a
      number has no `.split` and raises AttributeError, a string goes
      through the shared time parser. */
  function ScriptTime(t: Option<TimeValue>, key: string): Result<real, Raised> {
    match t
    case None => Err(KeyError(key))
    case Some(TimeNumber(_)) => Err(AttributeError)
    case Some(TimeText(s)) => ParseTimeToSec(s)
  }

  /** The creation time as it stands in the JSON file. */
  function CreatedAtOf(v: Option<DateValue>): Option<string> {
    match v
    case None => None
    case Some(DateTime(iso)) => Some(iso)
    case Some(DateText(text)) => Some(text)
  }

  /** The `video` block of every payload of a document, or None when
      `doc["unique_id"]` is missing and raises. The script also writes
      `video_description`, which VideoInfo does not declare and so drops;
      it is left out here. */
  function VideoOf(d: MongoDoc): (v: Option<RawVideoInfo>)
    ensures v.Some? <==> d.uniqueId.Some?
    ensures v.Some? ==> v.value.videoId == d.uniqueId && v.value.videoTitle == Some(d.title.GetOr(""))
  {
    match d.uniqueId
    case None => None
    case Some(_) =>
      Some(RawVideoInfo(
        d.uniqueId, Some(d.title.GetOr("")), None, None, Some(d.videoTags.GetOr([])),
        d.videoDurationSec, CreatedAtOf(d.videoCreatedAt), None, None, None, None, None))
  }

  /** The payload for one scene of a document whose video block is
      `video`. The dict is built key by key: `scene["scene_id"]`, then the
      start and end times, then `doc["unique_id"]`; the first that fails
      raises. The description is the caption fused with the scene's own
      `audio_summary`; category, creation date and author come from the
      scene with "" as default. */
  function ScriptSceneOf(video: Option<RawVideoInfo>, e: SceneEntry): (r: Result<RawSceneIngestItem, Raised>)
    ensures r.Ok? ==> r.value.sceneId == e.sceneId && r.value.video == video && r.value.faces.None?
  {
    if e.sceneId.None? then Err(KeyError("scene_id"))
    else
      var start :- ScriptTime(e.start, "start");
      var end :- ScriptTime(e.end, "end");
      if video.None? then Err(KeyError("unique_id"))
      else
        Ok(RawSceneIngestItem(
          e.sceneId, Some(SyncUtils.Describe(e.captioning.GetOr(""), e.audioSummary.GetOr(""))),
          None, None, None, None, Some(start), Some(end), video,
          Some(e.category.GetOr("")), Some(e.createdDate.GetOr("")), Some(e.author.GetOr(""))))
  }

  /** The scene has an id and start and end time strings that parse, and
      the document has a `unique_id`. */
  predicate EntryOk(video: Option<RawVideoInfo>, e: SceneEntry) {
    e.sceneId.Some? && ScriptTime(e.start, "start").Ok? && ScriptTime(e.end, "end").Ok? && video.Some?
  }

  /** A scene's payload is built exactly when nothing raises; its
      description is the caption fused with the scene's own audio summary,
      its times are the parsed `start` and `end`, and its category is the
      scene's own with no `video_type` fallback. */
  lemma ScriptSceneOfSpec(video: Option<RawVideoInfo>, e: SceneEntry)
    ensures ScriptSceneOf(video, e).Ok? <==> EntryOk(video, e)
    ensures ScriptSceneOf(video, e).Ok? ==>
      var p := ScriptSceneOf(video, e).value;
      && p.sceneDescription == Some(SyncUtils.Describe(e.captioning.GetOr(""), e.audioSummary.GetOr("")))
      && p.startTimeSec == Some(ScriptTime(e.start, "start").value)
      && p.endTimeSec == Some(ScriptTime(e.end, "end").value)
      && p.category == Some(e.category.GetOr(""))
  {
  }

  /** One step per entry of the scene list. */
  function Steps(video: Option<RawVideoInfo>, entries: seq<SceneEntry>): (rs: seq<Result<RawSceneIngestItem, Raised>>)
    ensures |rs| == |entries|
  {
    seq(|entries|, i requires 0 <= i < |entries| => ScriptSceneOf(video, entries[i]))
  }

  /** `doc["enriched_data"]["scene_list"]`; either missing key raises. */
  function EntriesOf(d: MongoDoc): (r: Result<seq<SceneEntry>, Raised>)
    ensures d.enriched.None? ==> r == Err(KeyError("enriched_data"))
    ensures r.Ok? ==> d.enriched.Some? && d.enriched.value.sceneList == Some(r.value)
  {
    match d.enriched
    case None => Err(KeyError("enriched_data"))
    case Some(e) => match e.sceneList case None => Err(KeyError("scene_list")) case Some(s) => Ok(s)
  }

  /** What `transform` returns or raises. */
  function TransformOf(d: MongoDoc): Result<seq<RawSceneIngestItem>, Raised> {
    var entries :- EntriesOf(d);
    Collect(Steps(VideoOf(d), entries))
  }

  /** `transform`: one pass over the scene list. */
  method Transform(d: MongoDoc) returns (r: Result<seq<RawSceneIngestItem>, Raised>)
    ensures r == TransformOf(d)
  {
    var enriched := EntriesOf(d);
    if enriched.Err? {
      return Err(enriched.error);
    }
    var entries := enriched.value;
    var video := VideoOf(d);
    ghost var steps := Steps(video, entries);
    var scenes: seq<RawSceneIngestItem> := [];
    var i := 0;
    while i < |entries|
      invariant 0 <= i <= |entries|
      invariant Collect(steps[..i]) == Ok(scenes)
    {
      var one := ScriptSceneOf(video, entries[i]);
      assert steps[..i + 1][..i] == steps[..i] && steps[..i + 1][i] == one;
      if one.Err? {
        CollectErr(steps, i + 1);
        return Err(one.error);
      }
      scenes := scenes + [one.value];
      i := i + 1;
    }
    assert steps[..i] == steps;
    return Ok(scenes);
  }

  /** `transform` has no status gate: the document's `status` plays no
      part in what it returns. */
  lemma NoStatusGate(d: MongoDoc, status: Option<string>)
    ensures TransformOf(d.(status := status)) == TransformOf(d)
  {
  }

  /** The transform succeeds exactly when the document has a scene list
      and `unique_id` and every scene an id and parseable time strings; it
      then gives one payload per scene, in list order, with `scene_id`
      copied and every payload accepted by the ingest endpoint's
      validation, its video id being `unique_id`. */
  lemma TransformPayloads(d: MongoDoc)
    requires EntriesOf(d).Ok?
    ensures var entries := EntriesOf(d).value;
      TransformOf(d).Ok? <==> forall i :: 0 <= i < |entries| ==> EntryOk(VideoOf(d), entries[i])
    ensures TransformOf(d).Ok? ==>
      var entries := EntriesOf(d).value;
      var ps := TransformOf(d).value;
      && |ps| == |entries|
      && forall i :: 0 <= i < |ps| ==>
        && ps[i].sceneId == entries[i].sceneId
        && ValidateSceneIngestItem(ps[i]).Ok?
        && ValidateSceneIngestItem(ps[i]).value.video.videoId == d.uniqueId.value
  {
    var entries := EntriesOf(d).value;
    var steps := Steps(VideoOf(d), entries);
    CollectOk(steps);
    forall i | 0 <= i < |entries|
      ensures steps[i].Ok? <==> EntryOk(VideoOf(d), entries[i])
    {
      ScriptSceneOfSpec(VideoOf(d), entries[i]);
    }
    if TransformOf(d).Ok? {
      var ps := TransformOf(d).value;
      forall i | 0 <= i < |ps|
        ensures ps[i].sceneId == entries[i].sceneId
        ensures ValidateSceneIngestItem(ps[i]).Ok?
        ensures ValidateSceneIngestItem(ps[i]).value.video.videoId == d.uniqueId.value
      {
        assert ScriptSceneOf(VideoOf(d), entries[i]) == Ok(ps[i]);
        assert RawFaces(ps[i]) == [];
      }
    }
  }

  // ---------------------------------------------------------------------
  // main: documents, batches and totals
  // ---------------------------------------------------------------------

  /** The parsed JSON file: one document or a list of them. */
  datatype JsonDocs = OneDoc(doc: MongoDoc) | DocList(docs: seq<MongoDoc>)

  /** A single dict is wrapped in a list. */
  function DocsOf(j: JsonDocs): (docs: seq<MongoDoc>)
    ensures j.OneDoc? ==> |docs| == 1
  {
    match j
    case OneDoc(d) => [d]
    case DocList(ds) => ds
  }

  /** Extending a list by each step's items in order: every item, or
      the first exception raised. */
  function Flatten<T>(rs: seq<Result<seq<T>, Raised>>): Result<seq<T>, Raised>
    decreases |rs|
  {
    if rs == [] then Ok([])
    else
      var prev :- Flatten(rs[..|rs| - 1]);
      var last :- rs[|rs| - 1];
      Ok(prev + last)
  }

  /** Once a step raises, the run raises that exception. */
  lemma {:induction false} FlattenErr<T>(rs: seq<Result<seq<T>, Raised>>, k: nat)
    requires k <= |rs| && Flatten(rs[..k]).Err?
    ensures Flatten(rs) == Flatten(rs[..k])
    decreases |rs| - k
  {
    if k < |rs| {
      var front := rs[..|rs| - 1];
      assert front[..k] == rs[..k];
      FlattenErr(front, k);
    } else {
      assert rs[..k] == rs;
    }
  }

  /** When every step succeeds, the run is the concatenation of their
      items. */
  lemma {:induction false} FlattenOk<T>(rs: seq<Result<seq<T>, Raised>>)
    requires forall i :: 0 <= i < |rs| ==> rs[i].Ok?
    ensures Flatten(rs).Ok?
    ensures Flatten(rs).value == Concat(seq(|rs|, i requires 0 <= i < |rs| => rs[i].value))
    decreases |rs|
  {
    if rs != [] {
      var front := rs[..|rs| - 1];
      FlattenOk(front);
      var vs := seq(|rs|, i requires 0 <= i < |rs| => rs[i].value);
      var fs := seq(|front|, i requires 0 <= i < |front| => front[i].value);
      assert vs == fs + [rs[|rs| - 1].value];
      ConcatSnoc(fs, rs[|rs| - 1].value);
    }
  }

  /** The transform of each document. */
  function Transforms(docs: seq<MongoDoc>): (rs: seq<Result<seq<RawSceneIngestItem>, Raised>>)
    ensures |rs| == |docs|
  {
    seq(|docs|, i requires 0 <= i < |docs| => TransformOf(docs[i]))
  }

  /** `all_scenes` once every document is transformed, or the first
      exception raised. */
  function AllScenesOf(docs: seq<MongoDoc>): Result<seq<RawSceneIngestItem>, Raised> {
    Flatten(Transforms(docs))
  }

  /** The loop that fills `all_scenes`. */
  method AllScenes(docs: seq<MongoDoc>) returns (r: Result<seq<RawSceneIngestItem>, Raised>)
    ensures r == AllScenesOf(docs)
  {
    ghost var steps := Transforms(docs);
    var all: seq<RawSceneIngestItem> := [];
    var i := 0;
    while i < |docs|
      invariant 0 <= i <= |docs|
      invariant Flatten(steps[..i]) == Ok(all)
    {
      var more := Transform(docs[i]);
      assert steps[..i + 1][..i] == steps[..i] && steps[..i + 1][i] == more;
      if more.Err? {
        FlattenErr(steps, i + 1);
        return Err(more.error);
      }
      all := all + more.value;
      i := i + 1;
    }
    assert steps[..i] == steps;
    return Ok(all);
  }

  /** When every document transforms, `all_scenes` is their payloads one
      document after another. */
  lemma AllScenesConcat(docs: seq<MongoDoc>)
    requires forall i :: 0 <= i < |docs| ==> TransformOf(docs[i]).Ok?
    ensures AllScenesOf(docs).Ok?
    ensures AllScenesOf(docs).value == Concat(seq(|docs|, i requires 0 <= i < |docs| => TransformOf(docs[i]).value))
  {
    var rs := Transforms(docs);
    FlattenOk(rs);
    assert seq(|rs|, i requires 0 <= i < |rs| => rs[i].value)
      == seq(|docs|, i requires 0 <= i < |docs| => TransformOf(docs[i]).value);
  }

  /** A document that raises makes `main` raise, whatever follows. */
  lemma AllScenesRaises(docs: seq<MongoDoc>, k: nat)
    requires k < |docs| && TransformOf(docs[k]).Err?
      && forall i :: 0 <= i < k ==> TransformOf(docs[i]).Ok?
    ensures AllScenesOf(docs) == Err(TransformOf(docs[k]).error)
  {
    var rs := Transforms(docs);
    var front := rs[..k];
    assert forall i :: 0 <= i < |front| ==> front[i].Ok?;
    FlattenOk(front);
    assert rs[..k + 1][..k] == front && rs[..k + 1][k] == TransformOf(docs[k]);
    FlattenErr(rs, k + 1);
  }

  /** What one POST of a batch yields: the response's `indexed` and
      `errors`, or a RequestException (connection error or an error
      status). */
  datatype BatchAnswer = Indexed(indexed: int, errors: seq<string>) | RequestFailed

  /** `xs[i : i + size]`: Python clamps the end to the length. */
  function Slice<T>(xs: seq<T>, i: nat, size: nat): (b: seq<T>)
    requires i <= |xs|
    ensures |b| == if i + size <= |xs| then size else |xs| - i
  {
    if i + size <= |xs| then xs[i..i + size] else xs[i..]
  }

  /** The batches `xs[i : i + size]` for i in `range(0, len(xs), size)`. */
  function Batches<T>(xs: seq<T>, size: nat): seq<seq<T>>
    requires size >= 1
    decreases |xs|
  {
    if xs == [] then [] else [Slice(xs, 0, size)] + Batches(xs[|Slice(xs, 0, size)|..], size)
  }

  function Concat<T>(bs: seq<seq<T>>): seq<T>
    decreases |bs|
  {
    if bs == [] then [] else bs[0] + Concat(bs[1..])
  }

  /** Every batch is non-empty and holds at most `size` items. */
  lemma {:induction false} BatchesBounded<T>(xs: seq<T>, size: nat)
    requires size >= 1
    ensures forall k :: 0 <= k < |Batches(xs, size)| ==> 1 <= |Batches(xs, size)[k]| <= size
    decreases |xs|
  {
    if xs != [] {
      var b := Slice(xs, 0, size);
      BatchesBounded(xs[|b|..], size);
      assert Batches(xs, size) == [b] + Batches(xs[|b|..], size);
    }
  }

  /** The batches partition the list in order. */
  lemma {:induction false} BatchesPartition<T>(xs: seq<T>, size: nat)
    requires size >= 1
    ensures Concat(Batches(xs, size)) == xs
    decreases |xs|
  {
    if xs != [] {
      var b := Slice(xs, 0, size);
      BatchesPartition(xs[|b|..], size);
      assert Batches(xs, size)[1..] == Batches(xs[|b|..], size);
      assert b + xs[|b|..] == xs;
    }
  }

  /** `total_indexed` over the first batches: the sum of `indexed` over
      the batches whose request succeeded. */
  function TotalIndexed<T>(bs: seq<seq<T>>, post: seq<T> -> BatchAnswer): int
    decreases |bs|
  {
    if bs == [] then 0
    else
      var last := post(bs[|bs| - 1]);
      TotalIndexed(bs[..|bs| - 1], post) + (if last.Indexed? then last.indexed else 0)
  }

  /** `total_errors` over the first batches, in batch order. */
  function TotalErrors<T>(bs: seq<seq<T>>, post: seq<T> -> BatchAnswer): seq<string>
    decreases |bs|
  {
    if bs == [] then []
    else
      var last := post(bs[|bs| - 1]);
      TotalErrors(bs[..|bs| - 1], post) + (if last.Indexed? then last.errors else [])
  }

  /** When every batch is fully indexed, the total is the number of items. */
  lemma {:induction false} AllIndexedTotal<T>(bs: seq<seq<T>>, post: seq<T> -> BatchAnswer)
    requires forall k :: 0 <= k < |bs| ==> post(bs[k]) == Indexed(|bs[k]|, [])
    ensures TotalIndexed(bs, post) == |Concat(bs)|
    ensures TotalErrors(bs, post) == []
    decreases |bs|
  {
    if bs != [] {
      var front := bs[..|bs| - 1];
      AllIndexedTotal(front, post);
      ConcatSnoc(front, bs[|bs| - 1]);
      assert front + [bs[|bs| - 1]] == bs;
    }
  }

  lemma {:induction false} ConcatSnoc<T>(bs: seq<seq<T>>, b: seq<T>)
    ensures Concat(bs + [b]) == Concat(bs) + b
    decreases |bs|
  {
    if bs != [] {
      ConcatSnoc(bs[1..], b);
      assert (bs + [b])[1..] == bs[1..] + [b];
    } else {
      assert Concat([b]) == b + Concat([b][1..]);
    }
  }

  /** The batches from position i on start with the slice at i. */
  lemma BatchesStep<T>(xs: seq<T>, i: nat, size: nat)
    requires size >= 1 && i < |xs|
    ensures Batches(xs[i..], size) == [Slice(xs, i, size)] + Batches(xs[i + |Slice(xs, i, size)|..], size)
  {
    var b := Slice(xs, i, size);
    assert Slice(xs[i..], 0, size) == b;
    assert xs[i..][|b|..] == xs[i + |b|..];
  }

  /** The batches sent so far, then the one at `i`, then those after it. */
  lemma BatchesDone<T>(xs: seq<T>, i: nat, size: nat, done: seq<seq<T>>)
    requires size >= 1 && i < |xs|
    requires done + Batches(xs[i..], size) == Batches(xs, size)
    ensures (done + [Slice(xs, i, size)]) + Batches(xs[i + |Slice(xs, i, size)|..], size) == Batches(xs, size)
  {
    var b := Slice(xs, i, size);
    var later := Batches(xs[i + |b|..], size);
    BatchesStep(xs, i, size);
    assert (done + [b]) + later == done + ([b] + later);
  }

  /** One more batch adds its `indexed` and its errors, if it succeeded. */
  lemma TotalsSnoc<T>(bs: seq<seq<T>>, b: seq<T>, post: seq<T> -> BatchAnswer)
    ensures TotalIndexed(bs + [b], post) == TotalIndexed(bs, post) + (if post(b).Indexed? then post(b).indexed else 0)
    ensures TotalErrors(bs + [b], post) == TotalErrors(bs, post) + (if post(b).Indexed? then post(b).errors else [])
  {
    assert (bs + [b])[..|bs|] == bs;
  }

  /** The outcome of the batch loop. */
  datatype Sent<T> = Sent(batches: seq<seq<T>>, totalIndexed: int, totalErrors: seq<string>)

  /** The batch loop of `main`. A step of 0 makes `range` raise
      ValueError; a negative step gives an empty range. */
  method SendBatches<T>(xs: seq<T>, size: int, post: seq<T> -> BatchAnswer) returns (r: Result<Sent<T>, Raised>)
    ensures size == 0 <==> r == Err(ValueError)
    ensures size < 0 ==> r == Ok(Sent([], 0, []))
    ensures size > 0 ==>
      && r.Ok? && r.value.batches == Batches(xs, size)
      && r.value.totalIndexed == TotalIndexed(r.value.batches, post)
      && r.value.totalErrors == TotalErrors(r.value.batches, post)
  {
    if size == 0 {
      return Err(ValueError);
    }
    if size < 0 {
      return Ok(Sent([], 0, []));
    }
    var batches: seq<seq<T>> := [];
    var totalIndexed := 0;
    var totalErrors: seq<string> := [];
    var i := 0;
    while i < |xs|
      invariant 0 <= i <= |xs|
      invariant batches + Batches(xs[i..], size) == Batches(xs, size)
      invariant totalIndexed == TotalIndexed(batches, post)
      invariant totalErrors == TotalErrors(batches, post)
      decreases |xs| - i
    {
      var batch := Slice(xs, i, size);
      BatchesDone(xs, i, size, batches);
      TotalsSnoc(batches, batch, post);
      var answer := post(batch);
      if answer.Indexed? {
        totalIndexed := totalIndexed + answer.indexed;
        if answer.errors != [] {
          totalErrors := totalErrors + answer.errors;
        }
      }
      batches := batches + [batch];
      i := i + |batch|;
    }
    assert xs[i..] == [];
    return Ok(Sent(batches, totalIndexed, totalErrors));
  }

  /** What `main` reports: the numbers of videos and scenes, and the sums
      over the batches. */
  datatype Report = Report(videos: nat, scenes: nat, sent: Sent<RawSceneIngestItem>)

  /** `main` after the file is read: transform every document, then post
      the scenes in batches. An exception from a transform or from `range`
      ends the script. */
  method RunIngest(file: JsonDocs, batchSize: int, post: seq<RawSceneIngestItem> -> BatchAnswer)
    returns (r: Result<Report, Raised>)
    ensures AllScenesOf(DocsOf(file)).Err? ==> r == Err(AllScenesOf(DocsOf(file)).error)
    ensures AllScenesOf(DocsOf(file)).Ok? && batchSize == 0 ==> r == Err(ValueError)
    ensures AllScenesOf(DocsOf(file)).Ok? && batchSize >= 1 ==>
      var all := AllScenesOf(DocsOf(file)).value;
      && r.Ok? && r.value.videos == |DocsOf(file)| && r.value.scenes == |all|
      && Concat(r.value.sent.batches) == all
      && (forall k :: 0 <= k < |r.value.sent.batches| ==> 1 <= |r.value.sent.batches[k]| <= batchSize)
      && r.value.sent.totalIndexed == TotalIndexed(r.value.sent.batches, post)
      && r.value.sent.totalErrors == TotalErrors(r.value.sent.batches, post)
      && ((forall b :: post(b) == Indexed(|b|, [])) ==>
            r.value.sent.totalIndexed == r.value.scenes && r.value.sent.totalErrors == [])
  {
    var documents := DocsOf(file);
    var all := AllScenes(documents);
    if all.Err? {
      return Err(all.error);
    }
    var sent :- SendBatches(all.value, batchSize, post);
    if batchSize >= 1 {
      BatchesPartition(all.value, batchSize);
      BatchesBounded(all.value, batchSize);
      if forall b :: post(b) == Indexed(|b|, []) {
        AllIndexedTotal(sent.batches, post);
      }
    }
    return Ok(Report(|documents|, |all.value|, sent));
  }
}
