/** The full re-sync pass that the watcher's `full_sync` and the API's
    `sync-all` endpoint both run: every completed document is transformed,
    its scenes (when there are any) are upserted, its content (when there
    is any) is upserted, and three counters are kept. */
module Resync {
  import opened Wrappers
  import opened Text
  import opened Documents
  import opened SyncUtils

  /** `videos_synced`, `scenes_synced`, `contents_synced`. */
  datatype Counters = Counters(videos: nat, scenes: nat, contents: nat)

  /** The backend a pass writes to and the content transform it uses.
      `contentOf` stands for `transform_mongo_doc_to_content`, which is not
      part of this model: `None` is a falsy result. */
  datatype Setup = Setup(backend: Backend, refused: set<string>, contentOf: MongoDoc -> Option<ContentDoc>)

  /** The index after `sync_upsert_content` when there is content. */
  function AfterContent(ix: Index, content: Option<ContentDoc>): (r: Index)
    ensures r.scenes == ix.scenes
    ensures content.None? ==> r == ix
    ensures content.Some? ==> r.calls == ix.calls + [WriteContent(content.value)]
  {
    if content.Some? then ix.(calls := ix.calls + [WriteContent(content.value)]) else ix
  }

  /** Where a pass stands: the index and the counters so far. */
  datatype Pass = Pass(index: Index, counters: Counters)

  /** A transform that raised ends the pass where it stood. */
  datatype Stop = Stop(error: Raised, at: Pass)

  /** The scenes a completed document syncs, or what its transform raises. */
  function SyncDoc(setup: Setup, p: Pass, d: MongoDoc): Result<Pass, Stop> {
    if !Completed(d) then Ok(p)
    else match Transform(d)
      case Err(e) => Err(Stop(e, p))
      case Ok(scenes) =>
        var content := setup.contentOf(d);
        var ix := AfterContent(AfterUpsert(setup.backend, setup.refused, p.index, scenes), content);
        Ok(Pass(ix, Tallied(p.counters, scenes, content)))
  }

  /** The counters after one document: a video and its scenes when it has
      scenes, a content when it has content. */
  function Tallied(c: Counters, scenes: seq<SceneRecord>, content: Option<ContentDoc>): (r: Counters)
    ensures r.videos == c.videos + (if scenes == [] then 0 else 1)
    ensures r.scenes == c.scenes + |scenes|
    ensures r.contents == c.contents + (if content.None? then 0 else 1)
  {
    var c1 := if scenes != [] then Counters(c.videos + 1, c.scenes + |scenes|, c.contents) else c;
    if content.Some? then c1.(contents := c1.contents + 1) else c1
  }

  /** A completed document whose transform succeeds. */
  lemma SyncDocOk(setup: Setup, p: Pass, d: MongoDoc, scenes: seq<SceneRecord>)
    requires Completed(d) && Transform(d) == Ok(scenes)
    ensures SyncDoc(setup, p, d) == Ok(Pass(
      AfterContent(AfterUpsert(setup.backend, setup.refused, p.index, scenes), setup.contentOf(d)),
      Tallied(p.counters, scenes, setup.contentOf(d))))
  {
  }

  /** The pass over the documents, in order. */
  function SyncDocs(setup: Setup, p: Pass, docs: seq<MongoDoc>): Result<Pass, Stop>
    decreases |docs|
  {
    if docs == [] then Ok(p)
    else match SyncDoc(setup, p, docs[0])
      case Err(s) => Err(s)
      case Ok(q) => SyncDocs(setup, q, docs[1..])
  }

  /** The pass from an index with all counters at zero. */
  function FullPass(setup: Setup, ix: Index, docs: seq<MongoDoc>): Result<Pass, Stop> {
    SyncDocs(setup, Pass(ix, Counters(0, 0, 0)), docs)
  }

  /** The loop both callers run, on the store. On success it returns the
      counters; when a transform raises, the store keeps what the pass wrote
      before that document. */
  method SyncCompleted(store: VectorStore, contentOf: MongoDoc -> Option<ContentDoc>, docs: seq<MongoDoc>)
    returns (r: Result<Counters, Raised>)
    modifies store
    ensures var spec := FullPass(Setup(store.backend, store.Refused(), contentOf), old(store.State()), docs);
      && (spec.Ok? ==> r == Ok(spec.value.counters) && store.State() == spec.value.index)
      && (spec.Err? ==> r == Err(spec.error.error) && store.State() == spec.error.at.index)
  {
    var setup := Setup(store.backend, store.Refused(), contentOf);
    ghost var spec := FullPass(setup, store.State(), docs);
    var counters := Counters(0, 0, 0);
    var i := 0;
    while i < |docs|
      invariant 0 <= i <= |docs|
      invariant setup == Setup(store.backend, store.Refused(), contentOf)
      invariant spec == SyncDocs(setup, Pass(store.State(), counters), docs[i..])
    {
      var d := docs[i];
      ghost var before := Pass(store.State(), counters);
      SyncDocsStep(setup, before, docs, i);
      if Completed(d) {
        var transformed := TransformMongoDoc(d);
        if transformed.Err? {
          return Err(transformed.error);
        }
        counters := SyncScenes(store, transformed.value, contentOf(d), counters);
        SyncDocOk(setup, before, d, transformed.value);
      }
      i := i + 1;
    }
    return Ok(counters);
  }

  /** The loop body for a document whose transform succeeded: its scenes,
      when there are any, then its content, when there is any. */
  method SyncScenes(store: VectorStore, scenes: seq<SceneRecord>, content: Option<ContentDoc>, counters: Counters)
    returns (r: Counters)
    modifies store
    ensures store.State() == AfterContent(AfterUpsert(store.backend, store.Refused(), old(store.State()), scenes), content)
    ensures r == Tallied(counters, scenes, content)
  {
    var videos, scenesTotal, contents := counters.videos, counters.scenes, counters.contents;
    ghost var upserted := AfterUpsert(store.backend, store.Refused(), store.State(), scenes);
    if scenes != [] {
      var _ := store.UpsertScenes(scenes);
      scenesTotal := scenesTotal + |scenes|;
      videos := videos + 1;
    }
    assert store.State() == upserted;
    if content.Some? {
      store.UpsertContent(content.value);
      contents := contents + 1;
    }
    return Counters(videos, scenesTotal, contents);
  }

  /** The pass over `docs[i..]` is one document, then the rest. */
  lemma SyncDocsStep(setup: Setup, p: Pass, docs: seq<MongoDoc>, i: nat)
    requires i < |docs|
    ensures SyncDocs(setup, p, docs[i..]) ==
      match SyncDoc(setup, p, docs[i])
      case Err(s) => Err(s)
      case Ok(q) => SyncDocs(setup, q, docs[i + 1..])
  {
    assert docs[i..][0] == docs[i] && docs[i..][1..] == docs[i + 1..];
  }

  // ---------------------------------------------------------------------
  // What the pass promises
  // ---------------------------------------------------------------------

  /** Each counted video adds at least one scene, and no counter grows by
      more than the number of documents. */
  lemma {:induction false} SyncDocsCounts(setup: Setup, p: Pass, docs: seq<MongoDoc>)
    ensures var r := SyncDocs(setup, p, docs);
      r.Ok? ==>
        var c, c' := p.counters, r.value.counters;
        && c.videos <= c'.videos <= c.videos + |docs|
        && c'.videos - c.videos <= c'.scenes - c.scenes
        && c.contents <= c'.contents <= c.contents + |docs|
    decreases |docs|
  {
    if docs != [] {
      var s := SyncDoc(setup, p, docs[0]);
      if s.Ok? {
        SyncDocsCounts(setup, s.value, docs[1..]);
      }
    }
  }

  /** Documents that are not completed are never synced: a pass over them
      writes nothing and counts nothing. */
  lemma {:induction false} SyncDocsSkipsIncomplete(setup: Setup, p: Pass, docs: seq<MongoDoc>)
    requires forall i :: 0 <= i < |docs| ==> !Completed(docs[i])
    ensures SyncDocs(setup, p, docs) == Ok(p)
    decreases |docs|
  {
    if docs != [] {
      SyncDocsSkipsIncomplete(setup, p, docs[1..]);
    }
  }

  /** The rows a pass writes, in order. */
  function PassRows(setup: Setup, docs: seq<MongoDoc>): seq<SceneRow>
    decreases |docs|
  {
    if docs == [] then []
    else
      var d := docs[0];
      var rows := if Completed(d) && Transform(d).Ok? then RowsFor(setup.backend, Transform(d).value) else [];
      rows + PassRows(setup, docs[1..])
  }

  /** A successful pass leaves the scene index as writing all its rows in
      one go would. */
  lemma {:induction false} SyncDocsScenes(setup: Setup, p: Pass, docs: seq<MongoDoc>)
    requires SyncDocs(setup, p, docs).Ok?
    ensures SyncDocs(setup, p, docs).value.index.scenes == Upserted(p.index.scenes, PassRows(setup, docs), setup.refused)
    decreases |docs|
  {
    if docs != [] {
      var d := docs[0];
      var q := SyncDoc(setup, p, d).value;
      var rows := if Completed(d) && Transform(d).Ok? then RowsFor(setup.backend, Transform(d).value) else [];
      assert q.index.scenes == Upserted(p.index.scenes, rows, setup.refused);
      SyncDocsScenes(setup, q, docs[1..]);
      UpsertedConcat(p.index.scenes, rows, PassRows(setup, docs[1..]), setup.refused);
    }
  }

  /** Writing two batches one after the other is writing their
      concatenation. */
  lemma {:induction false} UpsertedConcat(m: map<string, SceneRow>, a: seq<SceneRow>, b: seq<SceneRow>, rejects: set<string>)
    ensures Upserted(Upserted(m, a, rejects), b, rejects) == Upserted(m, a + b, rejects)
    decreases |b|
  {
    if b != [] {
      assert (a + b)[..|a + b| - 1] == a + b[..|b| - 1];
      assert (a + b)[|a + b| - 1] == b[|b| - 1];
      UpsertedConcat(m, a, b[..|b| - 1], rejects);
    } else {
      assert a + b == a;
    }
  }

  /** Whether a pass succeeds depends only on the documents, not on the
      index it starts from. */
  lemma {:induction false} SyncDocsOkAnywhere(setup: Setup, p: Pass, q: Pass, docs: seq<MongoDoc>)
    requires SyncDocs(setup, p, docs).Ok?
    ensures SyncDocs(setup, q, docs).Ok?
    decreases |docs|
  {
    if docs != [] {
      SyncDocsOkAnywhere(setup, SyncDoc(setup, p, docs[0]).value, SyncDoc(setup, q, docs[0]).value, docs[1..]);
    }
  }

  /** Running the full re-sync a second time leaves the scene index as the
      first run left it: every write is keyed by scene id. */
  lemma FullPassTwice(setup: Setup, ix: Index, docs: seq<MongoDoc>)
    requires FullPass(setup, ix, docs).Ok?
    ensures var once := FullPass(setup, ix, docs).value.index;
      && FullPass(setup, once, docs).Ok?
      && FullPass(setup, once, docs).value.index.scenes == once.scenes
  {
    var once := FullPass(setup, ix, docs).value.index;
    SyncDocsOkAnywhere(setup, Pass(ix, Counters(0, 0, 0)), Pass(once, Counters(0, 0, 0)), docs);
    SyncDocsScenes(setup, Pass(ix, Counters(0, 0, 0)), docs);
    SyncDocsScenes(setup, Pass(once, Counters(0, 0, 0)), docs);
    UpsertTwice(ix.scenes, PassRows(setup, docs), setup.refused);
  }
}
