# metadata_search, modelled in Dafny

metadata_search is a video-scene search service. Videos are queued in a MongoDB `video_queue` collection. Once a video's enrichment is `completed`, each scene of its `enriched_data.scene_list` becomes a scene record in a vector backend, and the video itself becomes a content record. The backend is Milvus, or OpenSearch for scenes.

Two paths keep the backend in step with the collection:

- the change-stream watcher (`scripts/mongo_watcher.py`), with its resume token and reconnect backoff;
- the CRUD routes (`api/routes/crud.py`), which re-sync on every write.

Both share the transform and the upsert/delete code of `src/sync_utils.py`. The search API offers semantic, hybrid and full-text scene and content search, face search, and id-list filters and listings. It shapes backend hits into response models with facets. The ingest API and the two ingest scripts load scene and content records directly. `src/milvus_manager.py` provisions the Milvus collection.

This project models that core, one Dafny module per source file. It has these parts:

- **Wrappers, Text, Json, Documents, StepRuns.** These are shared vocabulary:
  - `Option` and `Result`;
  - Python's `strip`, `split`, `join`, `str(n)`, `int()` and `float()`;
  - the colon-delimited time parser;
  - JSON text fields, as "what `json.dumps` wrote" or "text `json.loads` rejects";
  - a `video_queue` document as a record of optional keys;
  - "run these steps and stop at the first exception".
- **SyncUtils.** This covers:
  - `transform_mongo_doc` and `get_scene_ids_from_doc`;
  - the Milvus and OpenSearch upsert and delete paths, over a `VectorStore` class whose index maps scene ids to rows and which logs the calls it receives.
- **MongoWatcher.** This covers:
  - the token file;
  - `_handle_change`;
  - `watch_loop`, as a class whose step methods follow the loop, proved against a reference function over a script of stream attempts;
  - the start-up flags.
- **Resync.** The full re-sync, with its three counters.
- **Crud.** The video routes, over a `VideoQueue` class.
- **MilvusQueries, MilvusFilter, FaceSearch, SearchRoutes, Queries.** Hit parsing, facets, filter expressions, dispatch and query bodies.
- **SceneModels, SearchModels.** The pydantic request and response models, as validation from raw key sets.
- **IngestRoutes, IngestData, IngestContent.** The ingest endpoints and scripts.
- **MilvusManager.** The schema, the compatibility test and `ensure_collection`, over a `MilvusClient` class.

The backends, the embedding model and the HTTP client are never computed. What they answer is a parameter, and what they are asked is recorded.

## Model

| member | source | states |
|---|---|---|
| Text.TrimStart | src/sync_utils.py:72 | the leading half of `str.strip()`: the result is a suffix of the input, everything cut is whitespace, and the result does not start with whitespace |
| Text.TrimEnd | src/sync_utils.py:72 | the trailing half of `str.strip()`: the result is a prefix, everything cut is whitespace, and the result does not end with whitespace |
| Text.StripSpec | src/sync_utils.py:72 | `strip()` returns the one contiguous slice of the input whose outside is all whitespace and whose ends are not whitespace; whitespace is every character Python's `str.isspace` accepts, Unicode spaces and separators included |
| Text.StripIdempotent | src/sync_utils.py:157 | stripping an already stripped text changes nothing |
| Text.SplitPiecesLackSeparator | src/sync_utils.py:20 | no piece returned by `split(":")` contains the separator |
| Text.JoinSplit | src/sync_utils.py:20 | joining the pieces of `split(sep)` with `sep` gives back the original text |
| Text.SplitWithoutSeparator | src/sync_utils.py:20 | a text without the separator splits into exactly one piece, itself |
| Text.SplitConcat | src/sync_utils.py:20 | splitting `a + sep + b` gives the pieces of `a` followed by the pieces of `b` |
| Text.SplitThree | src/sync_utils.py:20 | three separator-free fields joined by two separators split back into exactly those three fields |
| Text.NatToString | src/sync_utils.py:71 | `str(idx)` of a non-negative integer is a non-empty string of decimal digits |
| Text.NatToStringRoundTrip | src/sync_utils.py:71 | reading the digits of `str(n)` gives back `n` |
| Text.NatToStringInjective | src/sync_utils.py:71 | different scene positions give different summary keys `str(idx)` |
| Text.ParseIntOfNat | src/sync_utils.py:21 | `int(str(n)) == n` |
| Text.ParseFloatOfNat | src/sync_utils.py:23 | `float(str(n)) == n` |
| Text.ParseTimeOfPieces | src/sync_utils.py:18-24 | for `H:M:S` with parseable colon-free fields the result is `H*3600 + M*60 + S` |
| Text.ParseTimeOfFields | src/sync_utils.py:18-24 | the text `h:m:s` built from three naturals contains a colon and parses to `h*3600 + m*60 + s` seconds |
| Text.ParseTimeOfFirstPieces | src/sync_utils.py:20-23 | only the first three colon-separated pieces decide the result |
| Text.ParseTimeIgnoresExtraPieces | src/sync_utils.py:20-23 | extra `:`-separated pieces after the seconds are ignored |
| Text.ParseTimeNeedsThreePieces | src/sync_utils.py:21-23 | fewer than three pieces is an error (`ValueError` from `int`/`float`, or `IndexError` for the missing piece) and never a number |
| Json.Loads | src/milvus_queries.py:33-38 | `json.loads` succeeds exactly on text produced by `json.dumps` |
| Json.LoadsDumps | src/sync_utils.py:168 | the tags stored as `json.dumps(tags)` read back as the same list with `json.loads` |
| StepRuns.CollectErr | src/sync_utils.py:68-102 | the first scene whose conversion raises decides the error of the whole loop; later scenes do not matter |
| StepRuns.CollectOk | src/sync_utils.py:68-102 | the loop succeeds iff every step succeeds, and then returns one value per step, in order |
| Documents.SceneList | src/sync_utils.py:37-38 | a document without `enriched_data` has no scenes |
| Documents.VideoKey | src/sync_utils.py:45 | the video key is `unique_id` when present, otherwise `str(_id)`, otherwise the empty string |
| Documents.ApplySet | api/routes/crud.py:147 | for each of the eight fields, the result holds the body's value when the body gives one and the old value otherwise |
| Documents.ApplySetLaws | api/routes/crud.py:144-147 | a `$set` with an empty body is the identity, and applying the same `$set` twice equals applying it once |
| SyncUtils.VideoDescription | src/sync_utils.py:63-65 | without an `audio` block the video description is empty |
| SyncUtils.DurationOf | src/sync_utils.py:50-57 | an explicit `video_duration_sec` wins; otherwise a duration exists only if `video_info.duration` contains a colon and parses, and then it is the parsed value |
| SyncUtils.DurationFromVideoInfo | src/sync_utils.py:50-57 | a missing `video_duration_sec` with duration text `h:m:s` yields `h*3600 + m*60 + s` |
| SyncUtils.DurationOfText | src/sync_utils.py:52-55 | any duration text that contains a colon and parses gives exactly that duration |
| SyncUtils.VideoBlockOf | src/sync_utils.py:45-65 | every scene's video block carries the document's video key and duration |
| SyncUtils.SceneOf | src/sync_utils.py:68-102 | a converted scene keeps the `scene_id` of its entry |
| SyncUtils.SceneOfOk | src/sync_utils.py:75-87 | one scene converts iff it has a `scene_id` and both its start and end times parse |
| SyncUtils.SceneSteps | src/sync_utils.py:68 | one conversion step per entry of `scene_list` |
| SyncUtils.TransformMongoDoc | src/sync_utils.py:27-104 | the loop over `scene_list` returns exactly the value of the reference definition `Transform` |
| SyncUtils.TransformGate | src/sync_utils.py:34-40 | a document that is not completed, or has no scenes, gives an empty list |
| SyncUtils.TransformSteps | src/sync_utils.py:68-104 | for a completed document with scenes: success iff every entry is convertible; then one record per entry, each the conversion of its entry |
| SyncUtils.TransformRecords | src/sync_utils.py:68-104 | on success there is one record per entry, in order, with the entry's `scene_id` and the shared video block keyed by the video key |
| SyncUtils.TransformDescription | src/sync_utils.py:69-99 | each record's description is the caption joined to the audio summary for `str(idx)` and stripped (the caption alone when there is no summary), and its category falls back to `video_type` |
| SyncUtils.SceneIdsOf | src/sync_utils.py:107-110 | the ids are exactly the `scene_id`s of the entries that have one (see `SceneIdsOne` and `SceneIdsConcat` for their order) |
| SyncUtils.SceneIdsAllPresent | src/sync_utils.py:110 | when every entry has a `scene_id`, the ids are those of the entries, in order |
| SyncUtils.SceneIdsOne | src/sync_utils.py:110 | one entry gives its `scene_id`, or nothing when it has none |
| SyncUtils.SceneIdsConcat | src/sync_utils.py:110 | the ids of two stretches of entries are those of the first followed by those of the second, so order and repeats follow the list |
| SyncUtils.SceneIdsMatchTransform | src/sync_utils.py:104-110 | for a document that transforms, `get_scene_ids_from_doc` lists exactly the ids of the transformed scenes, in order |
| SyncUtils.RecordIds | src/sync_utils.py:87 | the id list of the records, in order |
| SyncUtils.BackendOf | src/sync_utils.py:125-127 | the Milvus branch is taken iff the setting is exactly `"milvus"`; anything else goes to OpenSearch |
| SyncUtils.MilvusRowOf | src/sync_utils.py:160-178 | the Milvus row is keyed by the scene id |
| SyncUtils.OpenSearchRowOf | src/sync_utils.py:221-238 | the OpenSearch action's `_id` is the scene id |
| SyncUtils.RowsFor | src/sync_utils.py:155-239 | one row per scene, in order, each built by the backend's row builder |
| SyncUtils.AcceptedKeys | src/sync_utils.py:241 | the keys stored by a bulk write are those of the rows whose key is not refused, and only those |
| SyncUtils.UpsertedAt | src/sync_utils.py:184-241 | after an upsert the stored keys are the old keys plus the accepted ones; an accepted key holds its last row in the batch, every other key keeps its old row |
| SyncUtils.UpsertTwice | src/sync_utils.py:117-127 | upserting the same scenes twice leaves the store as upserting them once |
| SyncUtils.Removable | src/sync_utils.py:254-259 | the scenes a delete removes are the listed ids that are not refused |
| SyncUtils.ResyncTwice | src/sync_utils.py:130-140 | a delete of a video's scenes followed by an upsert of its scenes is idempotent, whatever set of keys the delete removes |
| SyncUtils.AcceptedCount | src/sync_utils.py:241-246 | the OpenSearch success count never exceeds the number of actions |
| SyncUtils.DeleteCalls | src/sync_utils.py:254-256 | the OpenSearch delete issues one delete by id per scene id, in order |
| SyncUtils.DeleteLog | src/sync_utils.py:198-256 | OpenSearch deletes by id one at a time; Milvus issues one filtered delete |
| SyncUtils.AfterUpsert | src/sync_utils.py:117-127 | no scenes: no change; otherwise one write is logged, the stored keys become the old keys plus the non-refused scene ids, and untouched keys keep their rows |
| SyncUtils.AcceptedRecordKeys | src/sync_utils.py:117-127 | a key is accepted iff it is the id of one of the scenes and is not refused |
| SyncUtils.AfterDelete | src/sync_utils.py:130-140 | no ids: no change; otherwise the delete calls are logged and exactly the keys the backend deletes disappear: on Milvus every scene id that the unescaped `scene_id in [...]` filter selects, on OpenSearch the listed, non-refused ids; the rest is unchanged |
| SyncUtils.DeletedClean | src/sync_utils.py:195-203 | when no scene id holds a backslash or a double quote, the Milvus delete removes exactly the given ids; OpenSearch removes the non-refused ones |
| SyncUtils.VectorStore.constructor | src/sync_utils.py:125 | a store starts from the given rows with an empty call log |
| SyncUtils.VectorStore.UpsertScenes | src/sync_utils.py:117-246 | the store becomes the batch upsert of the rows; one write is logged; Milvus reports the number of scenes (`upsert_count` defaults to `len(docs)`), OpenSearch the number accepted; empty input returns 0 and changes nothing |
| SyncUtils.VectorStore.DeleteScenes | src/sync_utils.py:130-261 | Milvus: one `scene_id in [...]` filter built without escaping; exactly the scene ids that filter selects are removed, which are the given ids when no id holds a backslash or a double quote; the count is `len(scene_ids)`. OpenSearch: one call per id, the non-refused ids removed, and the count is the number of deletes that did not raise. Empty input returns 0 and changes nothing |
| SyncUtils.VectorStore.DeleteEach | src/sync_utils.py:253-261 | the OpenSearch loop counts the deletes that did not raise, removes those scenes and logs one call per id |
| SyncUtils.VectorStore.UpsertContent | scripts/mongo_watcher.py:179-181 | the content write is logged and the scene rows are untouched |
| SyncUtils.VectorStore.DeleteContentOf | scripts/mongo_watcher.py:195-197 | the content delete is logged and the scene rows are untouched |
| SyncUtils.DeleteStep | src/sync_utils.py:254-259 | one more id adds one to the count and removes that id exactly when its delete does not raise |
| SyncUtils.DeletedCountBound | src/sync_utils.py:253-261 | the deleted count is at most the number of ids, and equal to it iff no delete raised |
| MongoWatcher.LoadedToken | scripts/mongo_watcher.py:74-80 | no token file gives no token; a file gives a token iff its text parses as JSON, and then the token it holds |
| MongoWatcher.ResumeAfter | scripts/mongo_watcher.py:234-241 | the stream resumes after the saved token exactly when one was loaded and it is not empty |
| MongoWatcher.FindById | scripts/mongo_watcher.py:159-160 | the fallback lookup returns a stored document with the event's `_id`, or nothing when no document has it |
| MongoWatcher.HandleSpec | scripts/mongo_watcher.py:146-210 | other operations and writes of a missing or non-completed document change nothing; a completed document upserts its non-refused scenes (removing nothing) and then its content, and a raising transform writes nothing; a delete without a pre-image changes nothing; a delete with one removes exactly the scene keys the backend's delete selects and then deletes its content by `unique_id` or `str(_id)` |
| MongoWatcher.NextBackoff | scripts/mongo_watcher.py:275 | the next delay doubles the current one and never exceeds 60 seconds |
| MongoWatcher.EventStep | scripts/mongo_watcher.py:259-267 | one event is handled (recorded even when its handler raised), and the resume token is saved after it when it is not empty |
| MongoWatcher.Failed | scripts/mongo_watcher.py:269-282 | a failure after shutdown leaves the loop without sleeping; otherwise the watcher sleeps the current backoff and doubles it |
| MongoWatcher.DeliverFrame | scripts/mongo_watcher.py:255-267 | handling events never changes the backoff, the sleeps or the resume history |
| MongoWatcher.RunFirstResume | scripts/mongo_watcher.py:233-241 | each pass of the loop reloads the token; the first resumes after the token saved before the loop started |
| MongoWatcher.Backoffs | scripts/mongo_watcher.py:274-275 | the delays slept by consecutive failures, from a given point on |
| MongoWatcher.BackoffValues | scripts/mongo_watcher.py:230-275 | the n-th consecutive delay is 2^n seconds up to 32, and 60 from the sixth failure on |
| MongoWatcher.RunFailing | scripts/mongo_watcher.py:233-282 | a run of failed connections keeps the watcher running and sleeps exactly the doubling delays 1, 2, 4, …, 60, 60, … |
| MongoWatcher.Changes | scripts/mongo_watcher.py:255 | the changes carried by an uninterrupted stream, in order |
| MongoWatcher.DeliverAll | scripts/mongo_watcher.py:255-267 | an uninterrupted stream handles every event exactly once, in order, and leaves the watcher running |
| MongoWatcher.DeliverEvent | scripts/mongo_watcher.py:255-267 | a running watcher handles the first event and then the rest |
| MongoWatcher.ChangesCons | scripts/mongo_watcher.py:255 | the changes of a stream are its first change followed by the changes of the rest |
| MongoWatcher.DeliverStopped | scripts/mongo_watcher.py:256-257 | once shutdown has been requested, no further event is handled |
| MongoWatcher.DeliverConcat | scripts/mongo_watcher.py:255-267 | handling two stretches of a stream equals handling the first and then the second |
| MongoWatcher.InterruptStopsHandling | scripts/mongo_watcher.py:220-257 | a shutdown signal in the middle of a stream handles exactly the events before it |
| MongoWatcher.ResumeFromLastEvent | scripts/mongo_watcher.py:240-267 | after a stream the next connection resumes after the token of the last event |
| MongoWatcher.OpenResetsBackoff | scripts/mongo_watcher.py:253-275 | a connection that opens resets the delay, so its failure sleeps 1 second and the next delay is 2 |
| MongoWatcher.Watcher.constructor | scripts/mongo_watcher.py:67-217 | a watcher starts running, with the given token file and nothing recorded |
| MongoWatcher.Watcher.SaveToken | scripts/mongo_watcher.py:70-71 | the file now holds the token, and loading it gives the token back |
| MongoWatcher.Watcher.LoadToken | scripts/mongo_watcher.py:74-80 | returns the token the file holds, and nothing for a missing or corrupt file |
| MongoWatcher.Watcher.ClearToken | scripts/mongo_watcher.py:83-86 | the file is removed, so the next load gives no token |
| MongoWatcher.Watcher.Shutdown | scripts/mongo_watcher.py:220-223 | the running flag is cleared and nothing else changes |
| MongoWatcher.Watcher.FullSync | scripts/mongo_watcher.py:118-139 | the pass over the completed documents leaves the backend as the reference `FullPass` says, and returns its counters or the error it stopped on |
| MongoWatcher.Watcher.HandleChange | scripts/mongo_watcher.py:146-210 | the backend and the raised error are exactly those of the reference `Handle` (see `HandleSpec`) |
| MongoWatcher.Watcher.HandleWritten | scripts/mongo_watcher.py:155-183 | the insert/update/replace branch leaves the backend as `HandleWrite` says |
| MongoWatcher.Watcher.HandleDeleted | scripts/mongo_watcher.py:185-207 | the delete branch leaves the backend as `HandleDelete` says |
| MongoWatcher.Watcher.Consume | scripts/mongo_watcher.py:255-267 | the loop over a stream leaves the watcher as the reference `Deliver` says |
| MongoWatcher.Watcher.WatchLoop | scripts/mongo_watcher.py:226-284 | the reconnecting loop leaves the watcher as the reference `Run` says, over the given sequence of connection attempts |
| MongoWatcher.Watcher.Start | scripts/mongo_watcher.py:291-329 | a failed ping or backend setup exits with code 1 before touching the backend or watching; `--reset-token` makes the first watch start from the latest event; with `--full-sync` or `--full-sync-only` the backend becomes what the reference `FullPass` gives, and an error there ends the program with it; `--full-sync-only` then stops without watching; otherwise the watcher ends in the state the reference `Run` gives from the start-up state |
| Resync.AfterContent | scripts/mongo_watcher.py:133-136 | a content document, when there is one, is written after the scenes; the scene rows are untouched, and without content nothing changes |
| Resync.Tallied | scripts/mongo_watcher.py:128-136 | a video counts once if it has scenes, its scenes count in full, and a content counts once if there is one |
| Resync.SyncDocOk | scripts/mongo_watcher.py:126-136 | a completed document that transforms writes its scenes and then its content, and adds to the counters |
| Resync.SyncCompleted | scripts/mongo_watcher.py:118-139 | the loop over the completed documents leaves the backend as the reference `FullPass` says and returns its counters; a raising transform stops the loop with that error after the documents before it |
| Resync.SyncScenes | scripts/mongo_watcher.py:127-136 | one document's scenes, then its content, reach the backend as `AfterUpsert` and `AfterContent` say, and the counters are tallied |
| Resync.SyncDocsStep | scripts/mongo_watcher.py:126 | the pass over the documents from position `i` is one document followed by the pass over the rest |
| Resync.SyncDocsCounts | api/routes/crud.py:227-242 | the video and content counters grow by at most one per document, and each counted video contributes at least one scene |
| Resync.SyncDocsSkipsIncomplete | api/routes/crud.py:225 | documents that are not completed are skipped and change nothing |
| Resync.SyncDocsScenes | api/routes/crud.py:230-235 | after a successful pass the scene rows are the batch upsert of every document's rows, in order |
| Resync.UpsertedConcat | src/sync_utils.py:117-127 | upserting one batch after another equals upserting their concatenation |
| Resync.SyncDocsOkAnywhere | api/routes/crud.py:230-240 | whether the pass raises depends only on the documents, not on the starting state |
| Resync.FullPassTwice | api/routes/crud.py:219-242 | a second full sync succeeds again and leaves the scene rows as the first one did |
| Crud.FirstWithUniqueId | api/routes/crud.py:139 | the position `find_one({"unique_id": u})` returns: the first document with that key, or past the end |
| Crud.FirstWithId | api/routes/crud.py:185 | the position of the first document with a given `_id`, or past the end |
| Crud.FindByUniqueId | api/routes/crud.py:122-124 | a document is found iff one has that `unique_id`, and the found one has it |
| Crud.VideoQueue.constructor | api/routes/crud.py:79 | the collection holds the given documents, whose `_id`s are present and distinct |
| Crud.VideoQueue.InsertOne | api/routes/crud.py:80-81 | the body is stored at the end with its own `_id` or a fresh one; a duplicate `_id` raises and stores nothing |
| Crud.VideoQueue.UpdateOne | api/routes/crud.py:147 | the first document with that `unique_id` receives the `$set`; every other document, and the order, is unchanged |
| Crud.VideoQueue.DeleteOne | api/routes/crud.py:185 | the first document with that `_id` is removed and the others keep their order |
| Crud.Serialize | api/routes/crud.py:32-37 | `None` stays `None`; otherwise only `_id` changes, into its string form |
| Crud.SerializeIdempotent | api/routes/crud.py:32-37 | serialising twice is serialising once |
| Crud.Stripped | api/routes/crud.py:144-145 | the update body loses `_id` and `unique_id` and keeps everything else |
| Crud.UpdateKeepsKeys | api/routes/crud.py:143-147 | an update never changes a video's `_id` or `unique_id`, and applying the stripped body equals applying the whole body with those two keys put back |
| Crud.Matching | api/routes/crud.py:107-109 | a document is listed iff it is stored and matches the status filter (an empty or missing filter matches every document); the order of the collection is kept |
| Crud.MatchingConcat | api/routes/crud.py:107-109 | listing a concatenation lists each part in turn |
| Crud.ListVideos | api/routes/crud.py:99-115 | `skip < 0`, `limit < 1` or `limit > 100` is a 422; otherwise `total` counts the matches, and `items` are the serialised matches from `skip` on, at most `limit` of them, in order |
| Crud.UpsertCount | src/sync_utils.py:122-127 | the reported upsert count is at most the number of scenes, and 0 for none |
| Crud.SyncOf | api/routes/crud.py:84-90 | the sync succeeds iff the transform does; a document that is not completed syncs 0 scenes and touches no scene row |
| Crud.Resynced | api/routes/crud.py:149-159 | the re-sync succeeds iff the new version transforms |
| Crud.AfterDeleteScenes | src/sync_utils.py:130-140 | a delete removes exactly the keys the backend's delete selects from the scene rows, which are the removable ids when no id holds a backslash or a double quote |
| Crud.AfterUpsertScenes | src/sync_utils.py:117-127 | an upsert leaves the scene rows as the batch upsert of the scenes' rows |
| Crud.ResyncedScenes | api/routes/crud.py:149-159 | after an update, the old version's scenes that the backend's delete selected and the new version lacks are gone, and all of the new version's scenes are present |
| Crud.SyncTwice | api/routes/crud.py:205-210 | a manual sync repeated leaves the same scene rows as a single one, whether the transform succeeds or raises after the delete |
| Crud.VideoRoutes.constructor | api/routes/crud.py:25 | the routes work on the given collection and backend |
| Crud.VideoRoutes.CreateVideo | api/routes/crud.py:73-92 | the body is stored with its id and synced as `SyncOf` says, returning the id and the upsert count; a duplicate `_id` or a raising transform is an unhandled error; a non-completed body syncs 0 scenes |
| Crud.VideoRoutes.GetVideo | api/routes/crud.py:118-125 | 404 when no document has the `unique_id`, otherwise that document serialised |
| Crud.VideoRoutes.UpdateVideo | api/routes/crud.py:132-161 | 404 and nothing changed for an unknown `unique_id`; otherwise the document receives the stripped `$set`, the old scenes are deleted and the new version re-synced as `Resynced` says, and the response carries the original `_id` |
| Crud.VideoRoutes.DeleteVideo | api/routes/crud.py:168-187 | 404 and nothing changed for an unknown `unique_id`; otherwise its scenes are deleted, then its content, then the document; the response reports the delete count |
| Crud.VideoRoutes.SyncVideo | api/routes/crud.py:194-216 | 404 for an unknown `unique_id`; otherwise delete-then-upsert of the document's own scenes, with the collection unchanged |
| Crud.VideoRoutes.SyncAllVideos | api/routes/crud.py:219-242 | the pass over the completed documents leaves the backend as `FullPass` says and returns its three counters |
| Crud.FirstWithIdAppend | api/routes/crud.py:80-84 | the freshly inserted document is the one `find_one` by its `_id` returns |
| Crud.UpdateFindsSame | api/routes/crud.py:153 | the document read back after the update is the updated one |
| Crud.FirstWithIdOfUnique | api/routes/crud.py:185 | with distinct `_id`s, deleting by `_id` removes the document `find_one` returned |
| MilvusQueries.ParseSceneHit | src/milvus_queries.py:31-53 | the hit's score is the distance, and its tags are the decoded JSON list, or `[]` when the field is missing or malformed |
| MilvusQueries.ParseWrittenScene | src/milvus_queries.py:31-53 | a row written by the Milvus upsert reads back as a hit with the same scene fields, video fields and tags |
| MilvusQueries.ParseContentHit | src/milvus_queries.py:91-110 | the content hit's score is the distance, and its tags are the decoded list, or `[]` |
| MilvusQueries.ParseDefaults | src/milvus_queries.py:42-109 | an entity with every field missing reads as the documented defaults: empty strings, `0.0` times, `None` video description, no tags |
| MilvusQueries.FacetedScenes | src/milvus_queries.py:58-62 | one facet view per scene hit |
| MilvusQueries.FacetedContents | src/milvus_queries.py:115-119 | one facet view per content hit |
| MilvusQueries.Find | src/milvus_queries.py:62 | the position of the group for a value, or past the end when there is none yet |
| MilvusQueries.TotalAppend | src/milvus_queries.py:62 | a new group adds its ids to the total |
| MilvusQueries.TotalUpdate | src/milvus_queries.py:62 | extending a group's id list adds to the total by the difference |
| MilvusQueries.GroupedSpec | src/milvus_queries.py:57-62 | the groups appear in first-appearance order with distinct non-empty values; each holds exactly the ids of the hits with that value, in hit order; every non-empty value is grouped; the group sizes add up to the number of hits with a non-empty value |
| MilvusQueries.FindIn | src/milvus_queries.py:62 | a group is found iff its value is among the group values |
| MilvusQueries.IdsWithStep | src/milvus_queries.py:58-62 | one more hit appends its id to the group of its value, and to no other group |
| MilvusQueries.StepValues | src/milvus_queries.py:62 | the group order stays the first-appearance order after one more hit |
| MilvusQueries.StepDistinct | src/milvus_queries.py:62 | adding an id keeps the group values distinct |
| MilvusQueries.StepIds | src/milvus_queries.py:62 | adding a hit keeps every group equal to the ids of the hits with its value |
| MilvusQueries.StepCovers | src/milvus_queries.py:61-62 | adding a hit keeps every non-empty value grouped |
| MilvusQueries.StepTotal | src/milvus_queries.py:62 | adding a hit keeps the total equal to the number of counted hits |
| MilvusQueries.WithCountConcat | src/milvus_queries.py:68 | the groups of one size in a concatenation are those of the first part, then those of the second |
| MilvusQueries.WithCountNone | src/milvus_queries.py:68 | a list whose groups are all smaller has no group of that size |
| MilvusQueries.InsertKeeps | src/milvus_queries.py:68 | inserting a group adds exactly that group and its ids |
| MilvusQueries.InsertBounded | src/milvus_queries.py:68 | inserting keeps every group size under a common bound |
| MilvusQueries.InsertDescendingSkip | src/milvus_queries.py:68 | inserting behind a larger first group keeps the order descending |
| MilvusQueries.InsertDescendingFront | src/milvus_queries.py:68 | inserting in front of a smaller first group keeps the order descending |
| MilvusQueries.InsertDescending | src/milvus_queries.py:68 | inserting into a descending list keeps it descending |
| MilvusQueries.DescendingTail | src/milvus_queries.py:68 | the rest of a descending list is descending |
| MilvusQueries.WithCountCons | src/milvus_queries.py:68 | the groups of one size are the head, if it has that size, then those of the tail |
| MilvusQueries.InsertWithCountFront | src/milvus_queries.py:68 | inserting in front keeps, for every size, the relative order of the groups of that size |
| MilvusQueries.InsertWithCountSkip | src/milvus_queries.py:68 | inserting behind the head keeps, for every size, the relative order of the groups of that size |
| MilvusQueries.InsertWithCount | src/milvus_queries.py:68 | an inserted group goes after every group of its own size |
| MilvusQueries.SortDescending | src/milvus_queries.py:68 | `sorted(..., key=-len)` lists the groups by decreasing size |
| MilvusQueries.SortPermutation | src/milvus_queries.py:68 | sorting is a permutation of the groups and keeps the total |
| MilvusQueries.SortStable | src/milvus_queries.py:68 | the sort is stable: groups of equal size keep their first-appearance order |
| MilvusQueries.SortByCountSpec | src/milvus_queries.py:68 | the sort is descending by size, a permutation, keeps the total and is stable |
| MilvusQueries.DistinctPermutation | src/milvus_queries.py:68 | a permutation of groups with distinct values has distinct values |
| MilvusQueries.Twice | src/milvus_queries.py:68 | a group that occurs at two positions has multiplicity at least two |
| MilvusQueries.OnlyOnce | src/milvus_queries.py:68 | each group of a list with distinct values occurs once |
| MilvusQueries.ItemsOf | src/milvus_queries.py:66-69 | each facet item carries the group's value, its size as `count`, and its ids |
| MilvusQueries.FacetOfSpec | src/milvus_queries.py:56-70 | facet items are ordered by decreasing count, have distinct non-empty values, each lists exactly the ids of the hits with that value and counts them, and every non-empty value that occurs appears |
| MilvusQueries.SortedIds | src/milvus_queries.py:68 | sorting keeps every group's ids those of its value |
| MilvusQueries.SortedCovers | src/milvus_queries.py:68 | sorting keeps every occurring value present |
| MilvusQueries.FacetOrderAndTotal | src/milvus_queries.py:57-68 | ties in count keep the first-appearance order, and the counts add up to the number of hits with a non-empty value |
| MilvusQueries.NoHitsNoFacets | src/milvus_queries.py:56-70 | no hits give empty facet lists for every field |
| MilvusQueries.BuildSceneFacets | src/milvus_queries.py:56-70 | the loops build exactly the scene facets of the reference definition |
| MilvusQueries.BuildContentFacets | src/milvus_queries.py:113-127 | the loops build exactly the content facets of the reference definition |
| MilvusQueries.FilterArg | src/milvus_queries.py:151-152 | the filter is passed to Milvus exactly when it is given and not empty |
| MilvusQueries.SearchScenes | src/milvus_queries.py:134-228 | semantic, full-text and hybrid scene searches ask for `k` results with the filter passed as `FilterArg` says, and return exactly `SceneSearchOf` the answers: one parsed hit per result, `total` equal to their number, and the facets of those hits |
| MilvusQueries.SearchScenesFulltextWithFilter | src/milvus_queries.py:183-190 | the alias makes the same full-text call with the same filter and returns exactly `SceneSearchOf` the answers |
| MilvusQueries.SearchContents | src/milvus_queries.py:235-319 | the three content searches ask for `k` results with the filter passed as `FilterArg` says, and return exactly `ContentSearchOf` the answers: one parsed hit per result, its count, and the facets of those hits |
| MilvusQueries.SceneSearchOf | src/milvus_queries.py:134-228 | the scene search result has one parsed hit per answer in order, their count as total, and the facets of those hits |
| MilvusQueries.ContentSearchOf | src/milvus_queries.py:235-319 | the content search result has one parsed hit per answer in order, their count as total, and the facets of those hits |
| MilvusFilter.ReplaceChar | api/routes/face_search.py:31 | `str.replace` of one character leaves a text without that character unchanged |
| MilvusFilter.ReplaceCharConcat | api/routes/face_search.py:31 | replacing a character in a concatenation replaces it in each part |
| MilvusFilter.EscapeCons | api/routes/face_search.py:31-52 | escaping works character by character: a backslash doubles, a double quote gains a backslash, anything else is kept |
| MilvusFilter.EscapeConcat | api/routes/face_search.py:31-52 | escaping a concatenation escapes each part |
| MilvusFilter.EscapeClean | api/routes/face_search.py:31-52 | a value without backslashes or double quotes is left as it is |
| MilvusFilter.EscapeIsEach | api/routes/face_search.py:31-52 | the two chained `replace` calls equal the one-pass, per-character escape |
| MilvusFilter.ReadBodyEscape | api/routes/face_search.py:48-49 | reading an escaped value up to its closing quote gives back the value and the text after the quote |
| MilvusFilter.ReadBodyEach | api/routes/face_search.py:48-49 | a reader of Milvus string literals recovers a value from its per-character escape |
| MilvusFilter.ReadBodyStep | api/routes/face_search.py:48-49 | reading one escaped character yields that character |
| MilvusFilter.ReadQuote | api/routes/face_search.py:49-52 | the quoted literal `"escaped"` reads back as exactly the original value, whatever backslashes and quotes it holds |
| MilvusFilter.QuoteAll | api/routes/face_search.py:51-54 | one quoted literal per value |
| MilvusFilter.ReadItemsStep | api/routes/face_search.py:51-55 | a list is read literal by literal, separated by `, ` and closed by `]` |
| MilvusFilter.ReadItemsOne | api/routes/face_search.py:51-55 | a one-element list reads back as that element |
| MilvusFilter.ReadItemsMore | api/routes/face_search.py:51-55 | a longer list reads back as its first element followed by the rest |
| MilvusFilter.QuotedListCons | api/routes/face_search.py:51-54 | a joined list is the first literal, `, `, then the rest |
| MilvusFilter.CommaSlices | api/routes/face_search.py:51 | the separator `, ` is two characters |
| MilvusFilter.ReadItemsQuoted | api/routes/face_search.py:51-55 | a non-empty quoted list reads back as exactly its values, in order |
| MilvusFilter.ReadInList | api/routes/face_search.py:55 | `field in ["v1", "v2", ...]` starts with `field in [` and reads back as exactly the listed values |
| MilvusFilter.RawQuoteAll | src/sync_utils.py:198 | one raw `"sid"` literal per scene id, with nothing escaped |
| MilvusFilter.IdListFilterClean | src/sync_utils.py:198-199 | for ids without backslashes or double quotes the unescaped `scene_id in [...]` filter equals the escaped one, so it reads back as the ids |
| MilvusFilter.Selected | src/sync_utils.py:198-199 | an id-list filter selects the values its list reads back as, and a filter that does not parse as one selects nothing |
| MilvusFilter.InListSelects | api/routes/face_search.py:55 | an escaped `field in [...]` filter reads back as, and selects, exactly its values |
| MilvusFilter.IdListSelectsClean | src/sync_utils.py:198-199 | for ids without backslashes or double quotes, the unescaped filter selects exactly those ids |
| MilvusFilter.IdListWidens | src/sync_utils.py:198-199 | an id holding `", "` turns the unescaped filter into a list of two other ids: the one id `x", "y` selects `x` and `y` |
| MilvusFilter.RawQuoteAllClean | api/routes/search.py:246 | without backslashes or double quotes, raw quoting equals escaped quoting |
| FaceSearch.LikeClauses | api/routes/face_search.py:29-32 | one `faces like "%name%"` clause per name, in order |
| FaceSearch.Parenthesised | api/routes/face_search.py:35 | each clause wrapped in parentheses, in order |
| FaceSearch.BuildFaceFilter | api/routes/face_search.py:27-35 | the loop builds exactly the reference filter `FaceFilterOf`: the single clause alone, or the parenthesised clauses joined by ` or ` |
| FaceSearch.LikeClauseReadsBack | api/routes/face_search.py:31-32 | each clause is `faces like ` followed by a literal that reads back as `%name%`, whatever quotes or backslashes the name holds |
| FaceSearch.EscapePercents | api/routes/face_search.py:32 | the `%` wildcards pass through escaping unchanged |
| FaceSearch.FaceFilterShape | api/routes/face_search.py:33-35 | one name gives its clause alone; several give the parenthesised clauses joined by ` or `; every clause reads back as its name between wildcards |
| FaceSearch.NonEmpty | api/routes/face_search.py:44 | a value is kept iff it is given and non-empty; the kept values stay in their order |
| FaceSearch.NonEmptyConcat | api/routes/face_search.py:44 | cleaning a concatenation cleans each part in turn |
| FaceSearch.BuildFacetFilter | api/routes/face_search.py:38-56 | the loop builds exactly the reference filter `FacetFilterOf`: the conditions of the fields with clean values, joined by ` and `, or `None` |
| FaceSearch.ConditionsSnoc | api/routes/face_search.py:41-55 | each field adds one condition exactly when it has a clean value |
| FaceSearch.ConditionsCount | api/routes/face_search.py:40-56 | one condition per field with a clean value; the filter is `None` iff no field has one |
| FaceSearch.ContributingZero | api/routes/face_search.py:42-46 | no condition is built iff every field is missing, empty or all blanks |
| FaceSearch.NonEmptyDropsBlanks | api/routes/face_search.py:44 | for every list, exactly the blank values are dropped: the result is as long as the list less its blanks, and equals the list iff the list has no blank |
| FaceSearch.ConditionReadsBack | api/routes/face_search.py:47-55 | one clean value gives `field == "v"` reading back as `v`; several give `field in [...]` reading back as exactly those values |
| FaceSearch.TruthyParts | api/routes/face_search.py:61 | a filter is kept iff it is given and non-empty; the kept filters stay in their order |
| FaceSearch.TruthyPartsConcat | api/routes/face_search.py:61 | the kept filters of a concatenation are those of each part in turn |
| FaceSearch.CombineFilters | api/routes/face_search.py:59-66 | the combination is `None` iff no filter is given and non-empty |
| FaceSearch.TruthyPartsEmpty | api/routes/face_search.py:61-63 | nothing is kept iff every filter is missing or empty |
| FaceSearch.CombineAlone | api/routes/face_search.py:64-65 | a single non-empty filter is returned as it is |
| FaceSearch.CombineBoth | api/routes/face_search.py:66 | two non-empty filters become `(a) and (b)` |
| FaceSearch.ParseEntity | api/routes/face_search.py:69-110 | the score is always 1.0, `content_id` comes from `video_id`, faces and tags are decoded lists (`[]` when malformed), and the hit validates iff every face item does |
| FaceSearch.ValidateHits | api/routes/face_search.py:138 | building `SceneHit`s succeeds iff every hit validates, giving each hit's validation in order; a failure is unhandled |
| FaceSearch.ParseAll | api/routes/face_search.py:137 | one parsed hit per row, in order |
| FaceSearch.FacetedHits | api/routes/face_search.py:139 | one facet view per hit, in order |
| FaceSearch.SearchScenesByFace | api/routes/face_search.py:113-141 | Milvus is queried with the face filter combined with the extra filter and limit `k`; a client error is a 502; otherwise the response is Ok iff every parsed row validates, with one hit per row, each the validated `ParseEntity` of its row, `total` their number and the facets of those hits, and any failure unhandled |
| FaceSearch.FaceSearchRoute | api/routes/face_search.py:171-204 | `k` defaults to 10; an out-of-range `k` is a 422; a non-Milvus backend is a 501; an uploaded image hits the recognition placeholder and is a 501; no names is a 422; otherwise the query is the face filter of the names alone with limit `k`, answered as `SearchScenesByFace` answers |
| FaceSearch.FaceFilterNonEmpty | api/routes/face_search.py:27-35 | the face filter of at least one name is never empty, so it always survives `_combine_filters` |
| FaceSearch.FaceFilterSearchRoute | api/routes/face_search.py:209-240 | missing or empty `face_names` or an out-of-range `k` is a 422; then a non-Milvus backend is a 501; otherwise the query is the face filter combined with the facet filter of the six fields, with limit `k` (10 by default), answered as `SearchScenesByFace` answers |
| FaceSearch.NoFacetsFaceFilterOnly | api/routes/face_search.py:229-240 | without facet values the query uses the face filter alone |
| SceneModels.ValidateEach | api/models/scene.py:32-42 | a list field validates iff every element does, and then holds the validated elements in order |
| SceneModels.ValidateFaceInfo | api/models/scene.py:6-8 | a face validates iff `face_id` and `name` are both given, and keeps them |
| SceneModels.ValidateVideoInfo | api/models/scene.py:11-23 | video info validates iff `video_id` and `video_title` are given; each of the ten other fields is the given value or its declared default |
| SceneModels.VideoInfoDefaults | api/models/scene.py:14-23 | with only the two required fields, every other field has its declared default |
| SceneModels.ValidateSceneIngestItem | api/models/scene.py:26-38 | a scene validates iff its five required fields are given, its video validates and every face validates; the result carries each given field, each validated face at its position, and the documented default for every optional field left out |
| SceneModels.DumpFaces | api/models/scene.py:32 | one dumped face per face, in order |
| SceneModels.SceneIngestItemRoundTrip | api/models/scene.py:26-38 | dumping a valid scene and validating it again gives the same scene |
| SceneModels.ValidateIngestRequest | api/models/scene.py:41-42 | a request validates iff it has at least one scene and every scene validates; an empty list is rejected as too short |
| SceneModels.ValidateContentIngestItem | api/models/scene.py:45-60 | a content validates iff `content_id` and `title` are given; each of the thirteen other fields is the given value or its declared default |
| SceneModels.ContentIngestItemRoundTrip | api/models/scene.py:45-60 | dumping a valid content and validating it again gives the same content |
| SceneModels.ValidateContentIngestRequest | api/models/scene.py:63-64 | a content request validates iff it has at least one content and every content validates; an empty list is rejected as too short |
| SceneModels.ValidateIngestResponse | api/models/scene.py:67-69 | a response validates iff `indexed` is given; `errors` defaults to `[]` |
| SearchModels.ValidateFaceItem | api/models/search.py:4-6 | a face item validates iff `face_id` and `name` are given, and keeps them |
| SearchModels.ValidateSceneHit | api/models/search.py:9-33 | a scene hit validates iff its seven required fields are given and every face item validates; each of the 24 fields of the result is the given value or its documented default |
| SearchModels.DumpFaceItems | api/models/search.py:16 | one dumped face item per face item, in order |
| SearchModels.SceneHitRoundTrip | api/models/search.py:9-33 | dumping a valid hit and validating it again gives the same hit |
| SearchModels.SceneHitDefaults | api/models/search.py:13-33 | with only the required fields, every other field has its declared default |
| SearchModels.ValidateFacets | api/models/search.py:42-48 | each of the six facet lists is kept when given and defaults to `[]` when missing |
| SearchModels.ValidateContentHit | api/models/search.py:61-77 | a content hit validates iff `score`, `content_id` and `title` are given; those are kept and each of the thirteen other fields is the given value or its declared default |
| SearchModels.ContentHitRoundTrip | api/models/search.py:61-77 | dumping a valid content hit and validating it again gives the same hit |
| SearchModels.ToFacetItems | api/models/search.py:36-39 | each computed facet becomes an item with the same value, count and scene ids |
| SearchModels.FacetsOf | api/models/search.py:42-48 | the three facet fields the search computes are filled, and `broadcast_date`, `program_id` and `content_type_id` are empty (see also `src/milvus_queries.py:64-70`) |
| SearchModels.ToContentFacetItems | api/models/search.py:80-83 | each computed facet becomes a content item with the same value, count and content ids |
| SearchModels.ContentFacetsOf | api/models/search.py:86-91 | the two content facet fields are filled, and the other three are empty |
| SearchRoutes.KindOf | api/routes/search.py:197-262 | a missing `search_type` takes the endpoint's default; a given one is accepted iff it is `semantic`, `fulltext` or `hybrid` |
| SearchRoutes.SceneAction | api/routes/search.py:199-212 | full-text on a non-Milvus backend is a 501; Milvus serves every kind; OpenSearch serves semantic and hybrid |
| SearchRoutes.MilvusOnlyAction | api/routes/search.py:223-268 | a non-Milvus backend is a 501, otherwise Milvus serves the kind |
| SearchRoutes.DispatchAgrees | api/routes/search.py:199-230 | OpenSearch is never asked for full-text, and on Milvus the scene and content routes dispatch alike |
| SearchRoutes.AsWrittenSceneKwargs | api/routes/search.py:111 | the keyword arguments a Milvus hit gives `SceneHit(**h)` carry `video_id` but no `content_id` |
| SearchRoutes.AsWrittenSceneHitRejected | api/routes/search.py:111 | validating those arguments always fails on the missing `content_id` (see also `api/models/search.py:19`) |
| SearchRoutes.SceneKwargsValid | api/models/search.py:9-33 | with `content_id` taken from `video_id`, every Milvus hit validates and keeps its score, ids, title, tags and facet fields |
| SearchRoutes.SceneKwargsAll | api/routes/search.py:111 | one set of keyword arguments per hit, in order |
| SearchRoutes.SceneResponseOf | api/routes/search.py:111-113 | a response keeps the search's total and its facets |
| SearchRoutes.SceneResponseOk | api/routes/search.py:111-113 | with `content_id` supplied, every Milvus scene result becomes a response with one hit per result, each keeping its scene id and with `content_id` equal to its `video_id` |
| SearchRoutes.AsWrittenSceneSearchFails | api/routes/search.py:111 | as written, any Milvus scene search with at least one hit ends in an unhandled validation error (see also `src/milvus_queries.py:40-53`) |
| SearchRoutes.MilvusScene | api/routes/search.py:101-142 | corrected, see ## Findings: Milvus is asked for `k` results with the filter as given; a client error is a 502; otherwise the response is the validated shape of the parsed hits (`SceneSearchOf`), with one hit per result carrying its distance as score, its scene id and its `video_id` as `content_id`, and the facets of those hits |
| SearchRoutes.ValidateEachAt | api/routes/search.py:111 | a validated list holds, at each position, the validation of that element |
| SearchRoutes.AsWrittenOpenSearchKwargs | api/routes/search.py:30-56 | the arguments built from an OpenSearch hit exist iff `_source` has its six subscripted fields, and never carry `content_id` |
| SearchRoutes.AsWrittenOpenSearchHitRejected | api/routes/search.py:30-56 | as written, every OpenSearch hit that gets that far fails validation on the missing `content_id` (see also `api/models/search.py:19`) |
| SearchRoutes.OpenSearchSceneHitSpec | api/routes/search.py:19-58 | with `content_id` taken from `video_id`, a hit converts iff its six required `_source` fields are present and every face item validates; the score defaults to 0.0 |
| SearchRoutes.OpenSearchHitsOf | api/routes/search.py:19-58 | a successful conversion yields one hit per raw hit |
| SearchRoutes.OpenSearchHitsOk | api/routes/search.py:21-57 | the list converts iff every hit converts |
| SearchRoutes.OpenSearchHitsAt | api/routes/search.py:21-57 | each converted hit is the conversion of the raw hit at the same position |
| SearchRoutes.ParseOpenSearchHits | api/routes/search.py:19-58 | the loop returns exactly the reference conversion `OpenSearchHitsOf` |
| SearchRoutes.OpenSearchErrSticks | api/routes/search.py:21-57 | once a hit fails, the whole request fails |
| SearchRoutes.ErrIsUnhandled | api/routes/search.py:21-57 | a failing conversion is an unhandled error, not an HTTP status |
| SearchRoutes.OpenSearchScene | api/routes/search.py:61-96 | semantic sends the semantic query body; hybrid sends the hybrid body through the search pipeline; a client error is a 502; otherwise the response carries the reported total and the converted hits, without facets, or the conversion's error |
| SearchRoutes.SceneSearch | api/routes/search.py:193-212 | a missing or empty query, an out-of-range `k` or an unknown type is a 422; then the request is refused as `SceneAction` says, or sent to Milvus with that kind and `k` and answered as `MilvusScene` answers, or sent to OpenSearch with the semantic body or the hybrid body through the pipeline and answered as `OpenSearchScene` answers |
| SearchRoutes.ContentKwargsValid | api/models/search.py:61-77 | every Milvus content hit validates as a `ContentHit`, keeping its fields |
| SearchRoutes.ContentKwargsAll | api/routes/search.py:157 | one set of keyword arguments per content hit, in order |
| SearchRoutes.ContentResponseOf | api/routes/search.py:157-159 | a content response keeps the search's total and its facets |
| SearchRoutes.ContentResponseOk | api/routes/search.py:157-159 | every content search result becomes a response with one hit per result, keeping ids and scores |
| SearchRoutes.MilvusContent | api/routes/search.py:147-188 | Milvus is asked for `k` content results with the filter as given; a client error is a 502; otherwise the response is the validated shape of the parsed hits (`ContentSearchOf`), one hit per result with its `content_id`, and their facets |
| SearchRoutes.ContentSearch | api/routes/search.py:217-230 | invalid parameters are a 422; a non-Milvus backend is a 501; otherwise the content collection is searched with the chosen kind and `k`, and the answer is shaped as `MilvusContent` shapes it |
| SearchRoutes.IdListFilterSent | api/routes/search.py:246-253 | the id-list filter is never empty, so it always reaches Milvus |
| SearchRoutes.SceneFilterSearch | api/routes/search.py:235-253 | corrected, see ## Findings: a missing query, an empty id list, an out-of-range `k` or an unknown type is a 422; a non-Milvus backend is a 501; otherwise the scene collection is searched with `scene_id in [...]` (semantic by default) and answered as `MilvusScene` answers, the total being the number of results |
| SearchRoutes.ContentFilterSearch | api/routes/search.py:258-276 | the same for contents, filtered by `content_id in [...]` and answered as `MilvusContent` answers |
| SearchRoutes.NormalizeScene | api/routes/search.py:305-318 | tags and faces are replaced by their decoded lists (`[]` when malformed) and nothing else changes |
| SearchRoutes.NormalizeSceneLaws | api/routes/search.py:305-318 | normalising twice is normalising once, and JSON-encoded tags and faces decode to what was encoded |
| SearchRoutes.ListScenes | api/routes/search.py:281-321 | `skip < 0` or `limit` outside 1..1000 is a 422; a non-Milvus backend is a 501; otherwise Milvus is queried with that limit and offset, and the response lists every row normalised, with its count as total |
| SearchRoutes.NormalizeContent | api/routes/search.py:348-354 | tags are replaced by their decoded list and nothing else changes |
| SearchRoutes.NormalizeContentLaws | api/routes/search.py:348-354 | normalising twice is normalising once, and JSON-encoded tags decode to what was encoded |
| SearchRoutes.ListContents | api/routes/search.py:324-357 | the same paging checks; the content collection is queried, and every row is listed normalised |
| Queries.ClauseTexts | src/queries.py:27-44 | a `bool.should` clause contributes one query text per match, and a neural clause its own text |
| Queries.SemanticCarries | src/queries.py:4-17 | the semantic body carries the query text once, uses `k` both as `size` and as the neural `k`, and names the configured model |
| Queries.HybridCarries | src/queries.py:20-48 | the hybrid body carries the query text in all four places, uses `k` everywhere a size appears, and is a lexical clause followed by a neural one |
| Queries.NeuralShared | src/queries.py:9-44 | the neural half of the hybrid body is exactly the semantic query, with the same size |
| Queries.Weight | src/queries.py:30 | a match without a boost weighs 1.0 |
| Queries.LexicalWeights | src/queries.py:29-33 | the lexical clause matches `scene_description`, `video_title` and `video_description`, with the title weighted most and the description least |
| IngestRoutes.FacesData | api/routes/ingest.py:20-73 | one `{"face_id", "name"}` entry per face, in order |
| IngestRoutes.MapSeq | api/routes/ingest.py:69-104 | one output per input |
| IngestRoutes.MapSeqAt | api/routes/ingest.py:69-104 | the output at each position is built from the input at that position |
| IngestRoutes.ActionOf | api/routes/ingest.py:21-48 | the bulk action's `_id` is the scene id, and a missing `fps` becomes 0.0 |
| IngestRoutes.OpenSearchIngestReadsBack | api/routes/ingest.py:21-48 | a scene indexed in OpenSearch (with `content_id` read from `video_id`) is found again with the same ids, description, times, title, tags and faces (see also `api/routes/search.py:19-58`) |
| IngestRoutes.BuildActions | api/routes/ingest.py:18-49 | the loop builds one action per scene, each `ActionOf` that scene |
| IngestRoutes.IngestOpenSearch | api/routes/ingest.py:11-57 | one action per scene; a raising bulk call is a 502; otherwise the response reports the success count and the error texts |
| IngestRoutes.MilvusDocOf | api/routes/ingest.py:75-104 | the document is keyed by the scene id, carries the stripped `description title` text for BM25, and turns a missing duration, `fps` or creation time into 0.0, 0.0 and `""` |
| IngestRoutes.MilvusIngestReadsBack | api/routes/ingest.py:75-104 | a scene ingested into Milvus reads back through the face-search parser as a valid hit with the same ids, texts, times, tags, facet fields and faces (see also `api/routes/face_search.py:69-110`) |
| IngestRoutes.MilvusHitFaces | api/routes/ingest.py:73-81 | the faces stored as JSON decode to the scene's faces, and the hit validates |
| IngestRoutes.EmbedTextPlain | api/routes/ingest.py:70 | when the description does not start and the title does not end with whitespace, the embedded text is exactly `description title` |
| IngestRoutes.WithVectors | api/routes/ingest.py:108-109 | each document, scene or content, receives the vector at its own position |
| IngestRoutes.MilvusDocIds | api/routes/ingest.py:75-109 | the documents sent keep their scenes' ids, in order |
| IngestRoutes.BuildMilvusDocs | api/routes/ingest.py:67-104 | the loop builds one embedding text and one document per scene |
| IngestRoutes.IngestMilvus | api/routes/ingest.py:60-118 | the documents are upserted with their vectors exactly when embedding succeeds with enough vectors; an embedding or upsert error is a 502; otherwise the response reports `upsert_count` with no errors |
| IngestRoutes.AttachVectors | api/routes/ingest.py:108-109 | the loop attaches each vector to the document at its position, for scene and content documents alike |
| IngestRoutes.ContentDocOf | api/routes/ingest.py:141-158 | the content document is keyed by `content_id` and carries the stripped `title description tags` text |
| IngestRoutes.ContentIngestReadsBack | api/routes/ingest.py:141-158 | an ingested content reads back through the content-hit parser with the same id, title, description, tags, duration, category and author (see also `src/milvus_queries.py:91-110`) |
| IngestRoutes.BuildContentDocs | api/routes/ingest.py:134-158 | the loop builds one embedding text and one document per content |
| IngestRoutes.IngestMilvusContent | api/routes/ingest.py:128-172 | the content documents are upserted with their vectors exactly when embedding succeeds with enough vectors; errors are a 502; otherwise `upsert_count` is reported |
| IngestRoutes.IngestScenes | api/routes/ingest.py:121-125 | an invalid request is a 422 and sends nothing; OpenSearch receives `ActionOf` each scene, keyed by scene id, and a raising bulk call is a 502, otherwise the success count and error texts are reported; Milvus receives the scene documents with their vectors, in order, exactly when embedding succeeds with enough vectors, otherwise the request is a 502; a raising upsert is a 502 and a successful one reports `upsert_count` (see also `api/models/scene.py:41-42`) |
| IngestRoutes.IngestContents | api/routes/ingest.py:175-179 | an invalid request is a 422; a non-Milvus backend is a 501; otherwise the content documents with their vectors are sent, in order and keeping the contents' ids, exactly when embedding succeeds with enough vectors, and the request is a 502 otherwise; a raising upsert is a 502 and a successful one reports `upsert_count` (see also `api/models/scene.py:63-64`) |
| IngestData.VideoOf | scripts/ingest_data.py:46-53 | the video block exists iff the document has `unique_id` (the subscript raises otherwise); its title defaults to `""` |
| IngestData.ScriptSceneOf | scripts/ingest_data.py:41-57 | a converted scene keeps its entry's `scene_id` and the document's video block, and has no faces |
| IngestData.ScriptSceneOfSpec | scripts/ingest_data.py:37-57 | an entry converts iff it has `scene_id`, string `start` and `end` times that parse, and the document has `unique_id`; then the description is the caption joined to `audio_summary` and stripped, the times are the parsed ones, and the category defaults to `""` |
| IngestData.Steps | scripts/ingest_data.py:35 | one conversion per entry of `scene_list` |
| IngestData.EntriesOf | scripts/ingest_data.py:32-35 | a document without `enriched_data` raises `KeyError`; otherwise the entries are its `scene_list` |
| IngestData.Transform | scripts/ingest_data.py:30-59 | the loop returns exactly the reference `TransformOf` |
| IngestData.NoStatusGate | scripts/ingest_data.py:30-59 | unlike the watcher's transform, the script ignores `status` |
| IngestData.TransformPayloads | scripts/ingest_data.py:30-59 | the document converts iff every entry does; then there is one payload per entry, in order, with its `scene_id`, each valid for the ingest API and with `video_id` equal to `unique_id` |
| IngestData.DocsOf | scripts/ingest_data.py:78-79 | a single JSON object is treated as a list of one document |
| IngestData.FlattenErr | scripts/ingest_data.py:83-84 | the first document whose transform raises ends the script with that error |
| IngestData.FlattenOk | scripts/ingest_data.py:83-84 | when every transform succeeds, the scenes are all their lists concatenated in document order |
| IngestData.Transforms | scripts/ingest_data.py:83 | one transform per document |
| IngestData.AllScenes | scripts/ingest_data.py:82-84 | the loop returns exactly the reference `AllScenesOf` |
| IngestData.AllScenesConcat | scripts/ingest_data.py:82-84 | when every document converts, the scenes are the concatenation of their conversions |
| IngestData.AllScenesRaises | scripts/ingest_data.py:82-84 | the first document that fails decides the error |
| IngestData.Slice | scripts/ingest_data.py:94 | a slice has `batch_size` elements, or fewer at the end of the list |
| IngestData.BatchesBounded | scripts/ingest_data.py:93-94 | every batch has between 1 and `batch_size` scenes |
| IngestData.BatchesPartition | scripts/ingest_data.py:93-94 | the batches, concatenated, are exactly the scenes, in order |
| IngestData.AllIndexedTotal | scripts/ingest_data.py:101-103 | when every batch is fully indexed without errors, the total indexed is the number of scenes and there are no errors |
| IngestData.ConcatSnoc | scripts/ingest_data.py:93-94 | concatenating one more batch appends it |
| IngestData.BatchesStep | scripts/ingest_data.py:93-94 | the batches from position `i` are the slice at `i` followed by the batches after it |
| IngestData.BatchesDone | scripts/ingest_data.py:93-94 | the batches sent so far, followed by those still to send, are all the batches |
| IngestData.TotalsSnoc | scripts/ingest_data.py:97-106 | a successful batch adds its `indexed` and `errors`; a failed request adds nothing |
| IngestData.SendBatches | scripts/ingest_data.py:93-106 | `batch_size` 0 raises `ValueError`; a negative size sends nothing; otherwise the batches sent are exactly `Batches` and the totals are the sums over the answers |
| IngestData.RunIngest | scripts/ingest_data.py:62-114 | a raising transform ends the script with that error; otherwise it counts the videos and scenes, sends them in batches of at most `batch_size` that together are all the scenes, and sums the answers; a server that indexes everything reports every scene indexed and no errors |
| IngestContent.TransformContentOf | scripts/ingest_content.py:21-44 | a content exists iff the document has `unique_id` (a `KeyError` otherwise), and its `content_id` is that key |
| IngestContent.ContentPayload | scripts/ingest_content.py:23-44 | the payload validates as a `ContentIngestItem`: the description is the audio summary, or the transcription when there is no summary; category and author come from the first scene, or are empty; duration defaults to 0.0 and title to `""` |
| IngestContent.AllContents | scripts/ingest_content.py:67-69 | every document converts iff each has `unique_id`; then there is one payload per document, in order |
| IngestContent.RunContentIngest | scripts/ingest_content.py:47-99 | a document without `unique_id` ends the script with `KeyError`; `batch_size` 0 raises `ValueError`; otherwise one content per document is sent, in order, in batches of at most `batch_size`, and the indexed counts and error lists of the answers are summed |
| MilvusManager.Names | src/milvus_manager.py:33 | the field names of a schema, in order |
| MilvusManager.SchemaShape | src/milvus_manager.py:6-26 | the schema has 14 fields; `scene_id` is the only primary key, and `embedding` the only vector field, with the configured dimension |
| MilvusManager.SchemaCompatible | src/milvus_manager.py:29-37 | a collection is compatible iff it can be described and has `scene_id`, `category`, `created_date` and `author`; a failing describe means incompatible |
| MilvusManager.FreshSchemaCompatible | src/milvus_manager.py:6-37 | a collection created from the schema is compatible, so it is never dropped |
| MilvusManager.LegacySchemaIncompatible | src/milvus_manager.py:44-46 | a legacy collection without `scene_id` is incompatible and is dropped |
| MilvusManager.RunSnoc | src/milvus_manager.py:40-68 | running one more operation applies it to the result so far |
| MilvusManager.RunConcat | src/milvus_manager.py:40-68 | running two operation lists one after the other is running their concatenation |
| MilvusManager.RunThree | src/milvus_manager.py:48-68 | running three operations applies them in order |
| MilvusManager.RunFour | src/milvus_manager.py:43-68 | running four operations applies them in order |
| MilvusManager.EnsureCases | src/milvus_manager.py:40-68 | a compatible collection is only loaded; a missing one is created, indexed with HNSW/COSINE (M 16, efConstruction 128) and loaded; an incompatible one is dropped, then created, indexed and loaded |
| MilvusManager.EnsureExistsLoaded | src/milvus_manager.py:40-68 | afterwards the collection exists and is loaded, an index is created exactly when the collection is, and every other collection, index and load state is untouched |
| MilvusManager.EnsureIdempotent | src/milvus_manager.py:40-68 | running it a second time only loads and changes nothing |
| MilvusManager.DescribeFailureRecreates | src/milvus_manager.py:36-46 | when describing an existing collection fails, it is dropped and recreated |
| MilvusManager.MilvusClient.constructor | src/milvus_manager.py:40 | the client starts from the given server state with no operation recorded |
| MilvusManager.MilvusClient.HasCollection | src/milvus_manager.py:43-48 | true iff the collection exists |
| MilvusManager.MilvusClient.DescribeCollection | src/milvus_manager.py:32-33 | the description exists iff the call succeeds on an existing collection, and then lists its field names |
| MilvusManager.MilvusClient.Perform | src/milvus_manager.py:46-68 | the server state changes as the operation says, and the operation is recorded |
| MilvusManager.SchemaCompatibleOn | src/milvus_manager.py:29-44 | the check passes iff the collection exists and would not be dropped |
| MilvusManager.DropIfIncompatible | src/milvus_manager.py:43-46 | the collection is dropped exactly when it exists and is incompatible |
| MilvusManager.CreateIfMissing | src/milvus_manager.py:48-65 | a missing collection is created and indexed; an existing one is left alone |
| MilvusManager.EnsureCollection | src/milvus_manager.py:40-68 | the calls made, and the resulting server state, are exactly those of the reference `EnsureOps`/`EnsureState` |

## Left out

- I/O is outside the model. This covers reading JSON files, the command line, `print` and `logging`, `sys.exit`, and the HTTP client of the ingest scripts. The data and the endpoints' answers are parameters.
- The embedding model, and the ranking done by Milvus (ANN, BM25, RRF) and by OpenSearch, are not modelled. Embeddings are opaque vectors. Search results are parameters.
- The Milvus and OpenSearch client semantics beyond a keyed index are not modelled. Milvus exceptions in the sync paths are left out. OpenSearch per-document failures are a fixed set of rejected ids.
- Three names are imported by the watcher and the CRUD routes but not defined in `src/sync_utils.py`: `transform_mongo_doc_to_content`, `sync_upsert_content` and `sync_delete_content`. The content transform is a parameter, and the content calls are only recorded.
- `src.index_manager`, the OpenSearch index set-up that the watcher's start-up calls, is not part of this model.
- The client singletons, `src/config.py`, `api/main.py` and `scripts/drop_collection.py` are not part of this model. Index and collection names, `model_id`, timeouts and batch sizes are parameters or constants.
- Floating-point numbers are modelled as `real`, and rounding is not modelled.
- `Text.ParseInt` and `Text.ParseFloat` accept only an optionally signed plain decimal numeral. Python's `int()` and `float()` also accept surrounding whitespace and underscores. `float()` also accepts exponents, `inf` and `nan`. The model rejects these.
- The signal handler runs concurrently in Python. Here a signal is a delivery in the watcher's script, and `_running` is checked at the points where the loop reads it. Sleeps are recorded durations.
- pydantic's parsing of datetimes, and `.isoformat()`, are not modelled. A creation time is either a date value with its ISO text or a plain string (`SyncUtils.CreatedAtText`, `IngestData.CreatedAtOf`).
- Explicit JSON nulls in documents and OpenSearch sources are not distinguished from missing keys. An OpenSearch source stored with a null duration or creation time is not read back (`IngestRoutes.StoredSource` needs both).
- `str(err)` of an exception is modelled as an opaque error text.
- `scripts/ingest_data.py` also writes `video_description` into each `video` block. `VideoInfo` does not declare that key, so validation drops it, and the model leaves it out.
- The face-recognition step of `face_search` is a placeholder that always answers 501 when an image is uploaded. Only that answer is modelled.
- Any client exception in the list endpoints escapes as an unhandled error (HTTP 500). It is modelled as `Unhandled`, without the exception's contents.
- An exception from `has_collection` in `ensure_collection` is not modelled. An exception from `describe_collection` is: it makes the collection incompatible.

## Findings

| source | as written | input that shows it | evidently intended | confidence | as-written member | corrected member |
|---|---|---|---|---|---|---|
| api/routes/search.py:111 | `SceneHit(**h)` over the dicts of `_parse_scene_hit`, which carry `video_id` but no `content_id`, a required field of `SceneHit` (api/models/search.py:19); the same holds at lines 125 and 140 | any Milvus scene search whose client answer has one hit | each hit's `content_id` taken from its `video_id`, as the face-search parser and the tests expect | high; not executed | SearchRoutes.AsWrittenSceneSearchFails | SearchRoutes.SceneResponseOk |
| api/routes/search.py:30-56 | `_parse_opensearch_hits` builds `SceneHit(video_id=...)` without `content_id` | any OpenSearch scene search with one hit | `content_id=src["video_id"]` | high; not executed | SearchRoutes.AsWrittenOpenSearchHitRejected | SearchRoutes.OpenSearchSceneHitSpec |
