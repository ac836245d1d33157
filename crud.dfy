/** The CRUD routes over the `video_queue` collection. Every write re-syncs
    the vector backend: create upserts, update and sync delete the old scene
    ids and upsert the re-transformed scenes, delete removes the scenes and
    the content before the document, and sync-all runs the full re-sync. */
module Crud {
  import opened Wrappers
  import opened Http
  import opened Text
  import opened Documents
  import opened SyncUtils
  import opened Resync
  import MilvusFilter

  // ---------------------------------------------------------------------
  // The collection
  // ---------------------------------------------------------------------

  /** The position of the first document with the given `unique_id`, or the
      length when there is none. */
  function FirstWithUniqueId(docs: seq<MongoDoc>, u: string): (i: nat)
    ensures i <= |docs|
    ensures i < |docs| ==> docs[i].uniqueId == Some(u)
    ensures forall j :: 0 <= j < i ==> docs[j].uniqueId != Some(u)
  {
    if docs == [] then 0
    else if docs[0].uniqueId == Some(u) then 0
    else 1 + FirstWithUniqueId(docs[1..], u)
  }

  /** The position of the first document with the given `_id`, or the
      length when there is none. */
  function FirstWithId(docs: seq<MongoDoc>, id: DocId): (i: nat)
    ensures i <= |docs|
    ensures i < |docs| ==> docs[i].id == Some(id)
    ensures forall j :: 0 <= j < i ==> docs[j].id != Some(id)
  {
    if docs == [] then 0
    else if docs[0].id == Some(id) then 0
    else 1 + FirstWithId(docs[1..], id)
  }

  /** `find_one({"unique_id": u})`. */
  function FindByUniqueId(docs: seq<MongoDoc>, u: string): (r: Option<MongoDoc>)
    ensures r.Some? <==> exists i :: 0 <= i < |docs| && docs[i].uniqueId == Some(u)
    ensures r.Some? ==> r.value in docs && r.value.uniqueId == Some(u)
  {
    var i := FirstWithUniqueId(docs, u);
    if i < |docs| then Some(docs[i]) else None
  }

  /** Every stored document has an `_id`, and no two share one. */
  predicate StoredIds(docs: seq<MongoDoc>) {
    && (forall i :: 0 <= i < |docs| ==> docs[i].id.Some?)
    && (forall i, j :: 0 <= i < j < |docs| ==> docs[i].id != docs[j].id)
  }

  /** The `video_queue` collection. */
  class VideoQueue {
    var docs: seq<MongoDoc>

    predicate Valid()
      reads this
    {
      StoredIds(docs)
    }

    constructor (docs: seq<MongoDoc>)
      requires StoredIds(docs)
      ensures this.docs == docs && Valid()
    {
      this.docs := docs;
    }

    /** `insert_one(body)`: the body's `_id`, or a new one, names the stored
      document; an `_id` already present is a duplicate-key error. */
    method InsertOne(body: MongoDoc, newId: DocId) returns (r: Result<DocId, HttpError>)
      requires Valid()
      modifies this
      ensures Valid()
      ensures var id := body.id.GetOr(newId);
        && (FirstWithId(old(docs), id) < |old(docs)| ==> r == Err(Unhandled) && docs == old(docs))
        && (FirstWithId(old(docs), id) == |old(docs)| ==>
             r == Ok(id) && docs == old(docs) + [body.(id := Some(id))])
    {
      var id := body.id.GetOr(newId);
      if FirstWithId(docs, id) < |docs| {
        return Err(Unhandled);
      }
      docs := docs + [body.(id := Some(id))];
      return Ok(id);
    }

    /** `update_one({"unique_id": u}, {"$set": body})`: the first matching
      document takes the body's keys; nothing happens when none matches. */
    method UpdateOne(u: string, body: MongoDoc)
      requires Valid()
      requires body.id.None?
      modifies this
      ensures Valid()
      ensures var i := FirstWithUniqueId(old(docs), u);
        && |docs| == |old(docs)|
        && (i < |old(docs)| ==> docs == old(docs)[i := ApplySet(old(docs)[i], body)])
        && (i == |old(docs)| ==> docs == old(docs))
    {
      var i := FirstWithUniqueId(docs, u);
      if i < |docs| {
        docs := docs[i := ApplySet(docs[i], body)];
        assert forall k :: 0 <= k < |docs| ==> docs[k].id == old(docs)[k].id;
      }
    }

    /** `delete_one({"_id": id})`: the first document with that id goes. */
    method DeleteOne(id: DocId)
      requires Valid()
      modifies this
      ensures Valid()
      ensures var i := FirstWithId(old(docs), id);
        && (i < |old(docs)| ==> docs == old(docs)[..i] + old(docs)[i + 1..])
        && (i == |old(docs)| ==> docs == old(docs))
    {
      var i := FirstWithId(docs, id);
      if i < |docs| {
        docs := docs[..i] + docs[i + 1..];
      }
    }
  }

  // ---------------------------------------------------------------------
  // Pure helpers of the routes
  // ---------------------------------------------------------------------

  /** `_serialize`: `None` stays `None`; a document's `_id` becomes its
      string form and nothing else changes. A document without `_id` would
      raise, so callers pass stored documents. */
  function Serialize(doc: Option<MongoDoc>): (r: Option<MongoDoc>)
    requires doc.Some? ==> doc.value.id.Some?
    ensures doc.None? <==> r.None?
    ensures doc.Some? ==> r.value == doc.value.(id := r.value.id)
    ensures doc.Some? ==> r.value.id == Some(TextId(IdText(doc.value.id.value)))
  {
    match doc
    case None => None
    case Some(d) => Some(d.(id := Some(TextId(IdText(d.id.value)))))
  }

  /** Serialising twice is serialising once. */
  lemma SerializeIdempotent(doc: Option<MongoDoc>)
    requires doc.Some? ==> doc.value.id.Some?
    ensures Serialize(Serialize(doc)) == Serialize(doc)
  {
  }

  /** The update body without `_id` and `unique_id` (`body.pop(...)`). */
  function Stripped(body: MongoDoc): (b: MongoDoc)
    ensures b.id.None? && b.uniqueId.None?
    ensures b == body.(id := None, uniqueId := None)
  {
    body.(id := None, uniqueId := None)
  }

  /** An update can change neither `_id` nor `unique_id`; every other key
      is set exactly as the unstripped body would set it. */
  lemma UpdateKeepsKeys(d: MongoDoc, body: MongoDoc)
    ensures ApplySet(d, Stripped(body)).id == d.id
    ensures ApplySet(d, Stripped(body)).uniqueId == d.uniqueId
    ensures ApplySet(d, Stripped(body)) == ApplySet(d, body).(id := d.id, uniqueId := d.uniqueId)
  {
  }

  /** Whether `find` keeps a document: no status (or an empty one) puts no
      condition in the query. */
  predicate Matches(status: Option<string>, d: MongoDoc) {
    status.None? || status == Some("") || d.status == status
  }

  /** The documents `find({"status": s})` matches, in collection order. */
  function Matching(docs: seq<MongoDoc>, status: Option<string>): (r: seq<MongoDoc>)
    ensures |r| <= |docs|
    ensures forall d :: d in r <==> d in docs && Matches(status, d)
    ensures status.None? || status == Some("") ==> r == docs
    ensures status.Some? && status != Some("") ==> forall d :: d in r ==> d.status == status
  {
    if docs == [] then []
    else
      var rest := Matching(docs[1..], status);
      if Matches(status, docs[0]) then [docs[0]] + rest else rest
  }

  /** The matches keep the collection's order: the matches of two parts of
      the collection, one after the other. */
  lemma {:induction false} MatchingConcat(a: seq<MongoDoc>, b: seq<MongoDoc>, status: Option<string>)
    ensures Matching(a + b, status) == Matching(a, status) + Matching(b, status)
    decreases |a|
  {
    if a == [] {
      assert a + b == b;
    } else {
      assert (a + b)[0] == a[0] && (a + b)[1..] == a[1..] + b;
      MatchingConcat(a[1..], b, status);
      var h := if Matches(status, a[0]) then [a[0]] else [];
      calc {
        Matching(a + b, status);
        h + Matching(a[1..] + b, status);
        h + (Matching(a[1..], status) + Matching(b, status));
        { AppendAssoc(h, Matching(a[1..], status), Matching(b, status)); }
        (h + Matching(a[1..], status)) + Matching(b, status);
        Matching(a, status) + Matching(b, status);
      }
    }
  }

  datatype VideoList = VideoList(total: nat, items: seq<MongoDoc>)

  /** `list_videos`: `skip` must be at least 0 and `limit` between 1 and
      100 (otherwise 422); `total` counts every match, `items` is the page. */
  function ListVideos(docs: seq<MongoDoc>, status: Option<string>, skip: int, limit: int): (r: Result<VideoList, HttpError>)
    requires forall d :: d in docs ==> d.id.Some?
    ensures r.Err? <==> skip < 0 || limit < 1 || limit > 100
    ensures r.Err? ==> r.error == Status(422)
    ensures r.Ok? ==>
      var all := Matching(docs, status);
      && r.value.total == |all|
      && |r.value.items| <= limit
      && |r.value.items| == (if skip >= |all| then 0 else Min(limit, |all| - skip))
      && forall i :: 0 <= i < |r.value.items| ==> r.value.items[i] == Serialize(Some(all[skip + i])).value
  {
    if skip < 0 || limit < 1 || limit > 100 then Err(Status(422))
    else
      var all := Matching(docs, status);
      var page := if skip >= |all| then [] else all[skip..skip + Min(limit, |all| - skip)];
      Ok(VideoList(|all|, seq(|page|, i requires 0 <= i < |page| => Serialize(Some(page[i])).value)))
  }

  function Min(a: int, b: int): int {
    if a < b then a else b
  }

  // ---------------------------------------------------------------------
  // Re-syncing one document
  // ---------------------------------------------------------------------

  /** What `sync_upsert_scenes` returns. */
  function UpsertCount(backend: Backend, refused: set<string>, records: seq<SceneRecord>): (n: nat)
    ensures n <= |records|
    ensures records == [] ==> n == 0
  {
    if backend == Milvus then |records| else AcceptedCount(RowsFor(backend, records), refused)
  }

  /** The index after a sync, and the upsert count or what the transform
      raised. */
  datatype Synced = Synced(index: Index, count: Result<nat, Raised>)

  /** Transform a document, upsert its scenes and its content. A document
      that is not completed writes no scenes and counts none. */
  function SyncOf(setup: Setup, ix: Index, d: MongoDoc): (r: Synced)
    ensures r.count.Ok? <==> Transform(d).Ok?
    ensures !Completed(d) ==> r.count == Ok(0) && r.index.scenes == ix.scenes
  {
    match Transform(d)
    case Err(e) => Synced(ix, Err(e))
    case Ok(scenes) =>
      Synced(AfterContent(AfterUpsert(setup.backend, setup.refused, ix, scenes), setup.contentOf(d)),
             Ok(UpsertCount(setup.backend, setup.refused, scenes)))
  }

  /** Delete the scene ids `before` had, then sync `after`. */
  function Resynced(setup: Setup, ix: Index, before: MongoDoc, after: MongoDoc): (r: Synced)
    ensures r.count.Ok? <==> Transform(after).Ok?
  {
    SyncOf(setup, AfterDelete(setup.backend, setup.refused, ix, GetSceneIds(before)), after)
  }

  /** The scenes after a delete are the old ones less the rows its deletes
      select; with clean ids that is every id the backend does not refuse. */
  lemma AfterDeleteScenes(backend: Backend, refused: set<string>, ix: Index, ids: seq<string>)
    ensures AfterDelete(backend, refused, ix, ids).scenes == ix.scenes - Deleted(backend, refused, ids)
    ensures (backend == Milvus ==> forall i :: 0 <= i < |ids| ==> MilvusFilter.Clean(ids[i])) ==>
      AfterDelete(backend, refused, ix, ids).scenes == ix.scenes - Removable(ids, if backend == Milvus then {} else refused)
  {
    if backend == Milvus ==> forall i :: 0 <= i < |ids| ==> MilvusFilter.Clean(ids[i]) {
      DeletedClean(backend, refused, ids);
    }
  }

  /** The scenes after an upsert are the rows written by key. */
  lemma AfterUpsertScenes(backend: Backend, refused: set<string>, ix: Index, records: seq<SceneRecord>)
    ensures AfterUpsert(backend, refused, ix, records).scenes == Upserted(ix.scenes, RowsFor(backend, records), refused)
  {
    if records == [] {
      assert RowsFor(backend, records) == [];
    }
  }

  /** After a re-sync no scene the old document's delete selected survives
      unless the new document has it again; when the transform succeeds,
      every new scene id the backend accepts is present. */
  lemma ResyncedScenes(setup: Setup, ix: Index, before: MongoDoc, after: MongoDoc)
    ensures var r := Resynced(setup, ix, before, after);
      && (forall k ::
            k in Deleted(setup.backend, setup.refused, GetSceneIds(before)) &&
            (Transform(after).Err? || k !in RecordIds(Transform(after).value))
            ==> k !in r.index.scenes)
      && (Transform(after).Ok? ==>
            forall k :: k in RecordIds(Transform(after).value) && k !in setup.refused ==> k in r.index.scenes)
  {
  }

  /** Syncing a document twice leaves the same scene index as syncing it
      once. */
  lemma SyncTwice(setup: Setup, ix: Index, d: MongoDoc)
    ensures var once := Resynced(setup, ix, d, d).index;
      Resynced(setup, once, d, d).index.scenes == once.scenes
  {
    var ids := GetSceneIds(d);
    var once := Resynced(setup, ix, d, d).index;
    AfterDeleteScenes(setup.backend, setup.refused, ix, ids);
    AfterDeleteScenes(setup.backend, setup.refused, once, ids);
    if Transform(d).Ok? {
      var rows := RowsFor(setup.backend, Transform(d).value);
      var cleared := AfterDelete(setup.backend, setup.refused, ix, ids);
      AfterUpsertScenes(setup.backend, setup.refused, cleared, Transform(d).value);
      var cleared2 := AfterDelete(setup.backend, setup.refused, once, ids);
      AfterUpsertScenes(setup.backend, setup.refused, cleared2, Transform(d).value);
      ResyncTwice(ix.scenes, Deleted(setup.backend, setup.refused, ids), rows, setup.refused);
    } else {
      var gone := Deleted(setup.backend, setup.refused, ids);
      assert (ix.scenes - gone) - gone == ix.scenes - gone;
    }
  }

  // ---------------------------------------------------------------------
  // The routes
  // ---------------------------------------------------------------------

  datatype SyncResult = SyncResult(mongoId: string, scenesSynced: nat)
  datatype DeleteResult = DeleteResult(deleted: bool, scenesRemoved: nat)

  class VideoRoutes {
    const queue: VideoQueue
    const store: VectorStore
    /** `transform_mongo_doc_to_content`, which is not part of this model. */
    const contentOf: MongoDoc -> Option<ContentDoc>

    constructor (queue: VideoQueue, store: VectorStore, contentOf: MongoDoc -> Option<ContentDoc>)
      ensures this.queue == queue && this.store == store && this.contentOf == contentOf
    {
      this.queue := queue;
      this.store := store;
      this.contentOf := contentOf;
    }

    function SetupOf(): Setup
      reads store
    {
      Setup(store.backend, store.Refused(), contentOf)
    }

    /** `POST /v1/videos`: insert, then sync the stored document. A document
      that is not completed syncs no scenes. */
    method CreateVideo(body: MongoDoc, newId: DocId) returns (r: Result<SyncResult, HttpError>)
      requires queue.Valid()
      modifies queue, store
      ensures queue.Valid()
      ensures var id := body.id.GetOr(newId);
        var stored := body.(id := Some(id));
        var spec := SyncOf(SetupOf(), old(store.State()), stored);
        && (FirstWithId(old(queue.docs), id) < |old(queue.docs)| ==>
             r == Err(Unhandled) && queue.docs == old(queue.docs) && store.State() == old(store.State()))
        && (FirstWithId(old(queue.docs), id) == |old(queue.docs)| ==>
             && queue.docs == old(queue.docs) + [stored]
             && store.State() == spec.index
             && (spec.count.Ok? ==> r == Ok(SyncResult(IdText(id), spec.count.value)))
             && (spec.count.Err? ==> r == Err(Unhandled)))
      ensures !Completed(body) ==> r.Ok? ==> r.value.scenesSynced == 0
    {
      var inserted := queue.InsertOne(body, newId);
      if inserted.Err? {
        return Err(Unhandled);
      }
      var id := inserted.value;
      FirstWithIdAppend(old(queue.docs), queue.docs[|queue.docs| - 1], id);
      var doc := queue.docs[FirstWithId(queue.docs, id)];
      var transformed := TransformMongoDoc(doc);
      if transformed.Err? {
        return Err(Unhandled);
      }
      var scenes := transformed.value;
      var count := store.UpsertScenes(scenes);
      var content := contentOf(doc);
      if content.Some? {
        store.UpsertContent(content.value);
      }
      return Ok(SyncResult(IdText(id), count));
    }

    /** `GET /v1/videos/{unique_id}`. */
    method GetVideo(u: string) returns (r: Result<MongoDoc, HttpError>)
      requires queue.Valid()
      ensures FindByUniqueId(queue.docs, u).None? ==> r == Err(Status(404))
      ensures FindByUniqueId(queue.docs, u).Some? ==> r == Ok(Serialize(FindByUniqueId(queue.docs, u)).value)
    {
      var doc := FindByUniqueId(queue.docs, u);
      if doc.None? {
        return Err(Status(404));
      }
      return Ok(Serialize(doc).value);
    }

    /** `PUT /v1/videos/{unique_id}`: `$set` the body without `_id` and
      `unique_id`, delete the old scene ids, then sync the updated
      document. */
    method UpdateVideo(u: string, body: MongoDoc) returns (r: Result<SyncResult, HttpError>)
      requires queue.Valid()
      modifies queue, store
      ensures queue.Valid()
      ensures FindByUniqueId(old(queue.docs), u).None? ==>
        r == Err(Status(404)) && queue.docs == old(queue.docs) && store.State() == old(store.State())
      ensures FindByUniqueId(old(queue.docs), u).Some? ==>
        var i := FirstWithUniqueId(old(queue.docs), u);
        var existing := old(queue.docs)[i];
        var updated := ApplySet(existing, Stripped(body));
        var spec := Resynced(SetupOf(), old(store.State()), existing, updated);
        && queue.docs == old(queue.docs)[i := updated]
        && store.State() == spec.index
        && (spec.count.Ok? ==> r == Ok(SyncResult(IdText(existing.id.value), spec.count.value)))
        && (spec.count.Err? ==> r == Err(Unhandled))
    {
      var found := FindByUniqueId(queue.docs, u);
      if found.None? {
        return Err(Status(404));
      }
      var existing := found.value;
      ghost var i := FirstWithUniqueId(queue.docs, u);
      var stripped := Stripped(body);
      queue.UpdateOne(u, stripped);
      var oldIds := GetSceneIds(existing);
      var _ := store.DeleteScenes(oldIds);
      UpdateFindsSame(old(queue.docs), i, u, ApplySet(existing, stripped));
      var updated := FindByUniqueId(queue.docs, u).value;
      var transformed := TransformMongoDoc(updated);
      if transformed.Err? {
        return Err(Unhandled);
      }
      var scenes := transformed.value;
      var count := store.UpsertScenes(scenes);
      var content := contentOf(updated);
      if content.Some? {
        store.UpsertContent(content.value);
      }
      return Ok(SyncResult(IdText(existing.id.value), count));
    }

    /** `DELETE /v1/videos/{unique_id}`: delete the scenes and the content,
      then the document. */
    method DeleteVideo(u: string) returns (r: Result<DeleteResult, HttpError>)
      requires queue.Valid()
      modifies queue, store
      ensures queue.Valid()
      ensures FindByUniqueId(old(queue.docs), u).None? ==>
        r == Err(Status(404)) && queue.docs == old(queue.docs) && store.State() == old(store.State())
      ensures FindByUniqueId(old(queue.docs), u).Some? ==>
        var i := FirstWithUniqueId(old(queue.docs), u);
        var doc := old(queue.docs)[i];
        var ids := GetSceneIds(doc);
        var cleared := AfterDelete(store.backend, store.Refused(), old(store.State()), ids);
        && r == Ok(DeleteResult(true, DeletedCount(ids, store.Refused())))
        && store.State() == cleared.(calls := cleared.calls + [DeleteContent(u)])
        && queue.docs == old(queue.docs)[..i] + old(queue.docs)[i + 1..]
    {
      var found := FindByUniqueId(queue.docs, u);
      if found.None? {
        return Err(Status(404));
      }
      var doc := found.value;
      ghost var i := FirstWithUniqueId(queue.docs, u);
      var ids := GetSceneIds(doc);
      var removed := store.DeleteScenes(ids);
      DeletedCountBound(ids, {});
      store.DeleteContentOf(u);
      FirstWithIdOfUnique(queue.docs, i, doc.id.value);
      queue.DeleteOne(doc.id.value);
      return Ok(DeleteResult(true, removed));
    }

    /** `POST /v1/videos/{unique_id}/sync`: delete the document's scene ids,
      then upsert its scenes again. */
    method SyncVideo(u: string) returns (r: Result<SyncResult, HttpError>)
      requires queue.Valid()
      modifies store
      ensures FindByUniqueId(queue.docs, u).None? ==>
        r == Err(Status(404)) && store.State() == old(store.State())
      ensures FindByUniqueId(queue.docs, u).Some? ==>
        var doc := FindByUniqueId(queue.docs, u).value;
        var spec := Resynced(SetupOf(), old(store.State()), doc, doc);
        && store.State() == spec.index
        && (spec.count.Ok? ==> r == Ok(SyncResult(IdText(doc.id.value), spec.count.value)))
        && (spec.count.Err? ==> r == Err(Unhandled))
    {
      var found := FindByUniqueId(queue.docs, u);
      if found.None? {
        return Err(Status(404));
      }
      var doc := found.value;
      var _ := store.DeleteScenes(GetSceneIds(doc));
      var transformed := TransformMongoDoc(doc);
      if transformed.Err? {
        return Err(Unhandled);
      }
      var scenes := transformed.value;
      var count := store.UpsertScenes(scenes);
      var content := contentOf(doc);
      if content.Some? {
        store.UpsertContent(content.value);
      }
      return Ok(SyncResult(IdText(doc.id.value), count));
    }

    /** `POST /v1/videos/sync-all`: the full re-sync over the collection. */
    method SyncAllVideos() returns (r: Result<Counters, HttpError>)
      modifies store
      ensures var spec := FullPass(SetupOf(), old(store.State()), queue.docs);
        && (spec.Ok? ==> r == Ok(spec.value.counters) && store.State() == spec.value.index)
        && (spec.Err? ==> r == Err(Unhandled) && store.State() == spec.error.at.index)
    {
      var pass := SyncCompleted(store, contentOf, queue.docs);
      if pass.Err? {
        return Err(Unhandled);
      }
      return Ok(pass.value);
    }
  }

  /** A document appended under a new id is the first with that id. */
  lemma {:induction false} FirstWithIdAppend(docs: seq<MongoDoc>, d: MongoDoc, id: DocId)
    requires FirstWithId(docs, id) == |docs| && d.id == Some(id)
    ensures FirstWithId(docs + [d], id) == |docs|
  {
    var all := docs + [d];
    assert all[|docs|].id == Some(id);
    assert forall j :: 0 <= j < |docs| ==> all[j] == docs[j];
  }

  /** After the update the first document with the `unique_id` is the
      updated one: the update keeps its `unique_id`. */
  lemma {:induction false} UpdateFindsSame(docs: seq<MongoDoc>, i: nat, u: string, updated: MongoDoc)
    requires i == FirstWithUniqueId(docs, u) && i < |docs|
    requires updated.uniqueId == Some(u)
    ensures FindByUniqueId(docs[i := updated], u) == Some(updated)
  {
    var after := docs[i := updated];
    assert after[i].uniqueId == Some(u);
    assert forall j :: 0 <= j < i ==> after[j] == docs[j];
  }

  /** Ids are unique, so the document found by `unique_id` is the one its
      `_id` names. */
  lemma {:induction false} FirstWithIdOfUnique(docs: seq<MongoDoc>, i: nat, id: DocId)
    requires StoredIds(docs) && i < |docs| && docs[i].id == Some(id)
    ensures FirstWithId(docs, id) == i
  {
  }
}
