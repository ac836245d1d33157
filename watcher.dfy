/** The change-stream watcher that keeps the vector backend in step with the
    `video_queue` collection: the resume-token file, the handler for one
    change event, the reconnecting watch loop with its backoff, and the
    start-up flags. The environment (the stream's events, its failures and
    the shutdown signal) is given to the loop as a script of attempts; the
    sleeps are recorded, not slept. */
module MongoWatcher {
  import opened Wrappers
  import opened Text
  import opened Json
  import opened Documents
  import opened SyncUtils
  import opened Resync

  // ---------------------------------------------------------------------
  // Resume token file
  // ---------------------------------------------------------------------

  /** A resume token is a dict; it is truthy when it has a key. */
  type Token = map<string, string>

  /** The token file: absent, or holding some text (the dump of a token, or
      anything else that does not parse). */
  datatype TokenFile = NoFile | File(text: JsonText<Token>)

  /** `_load_token`: `None` for a missing or unparsable file. */
  function LoadedToken(f: TokenFile): (t: Option<Token>)
    ensures f.NoFile? ==> t.None?
    ensures f.File? ==> (t.Some? <==> f.text.Dumps?)
    ensures f.File? && f.text.Dumps? ==> t == Some(f.text.value)
  {
    match f
    case NoFile => None
    case File(text) => Loads(text)
  }

  /** The `resume_after` argument a connection attempt passes: the loaded
      token when it is truthy, nothing otherwise. */
  function ResumeAfter(f: TokenFile): (r: Option<Token>)
    ensures r.Some? ==> r.value != map[] && LoadedToken(f) == r
    ensures r.None? ==> LoadedToken(f).None? || LoadedToken(f) == Some(map[])
  {
    match LoadedToken(f)
    case Some(t) => if t != map[] then Some(t) else None
    case None => None
  }

  // ---------------------------------------------------------------------
  // One change event
  // ---------------------------------------------------------------------

  /** A change-stream event: `operationType`, `documentKey._id`,
      `fullDocument` and `fullDocumentBeforeChange` (each `None` when
      absent). */
  datatype Change = Change(
    op: Option<string>,
    key: Option<DocId>,
    fullDocument: Option<MongoDoc>,
    preImage: Option<MongoDoc>)

  predicate IsWrite(c: Change) {
    c.op == Some("insert") || c.op == Some("update") || c.op == Some("replace")
  }

  /** `col.find_one({"_id": key})`: the first document with that id. */
  function FindById(docs: seq<MongoDoc>, key: Option<DocId>): (r: Option<MongoDoc>)
    ensures r.Some? ==> r.value in docs && key.Some? && r.value.id == key
    ensures r.None? ==> forall i :: 0 <= i < |docs| ==> key.None? || docs[i].id != key
  {
    if key.None? || docs == [] then None
    else if docs[0].id == key then Some(docs[0])
    else FindById(docs[1..], key)
  }

  /** The document an insert, update or replace is about: the event's full
      document, or the one fetched again by id when the event has none. */
  function WrittenDoc(docs: seq<MongoDoc>, c: Change): Option<MongoDoc> {
    if c.fullDocument.Some? then c.fullDocument else FindById(docs, c.key)
  }

  /** What handling an event did to the index, and what it raised. */
  datatype Handled = Handled(index: Index, raised: Option<Raised>)

  /** `_handle_change`. */
  function Handle(setup: Setup, docs: seq<MongoDoc>, ix: Index, c: Change): Handled
  {
    if IsWrite(c) then HandleWrite(setup, WrittenDoc(docs, c), ix)
    else if c.op == Some("delete") then Handled(HandleDelete(setup, c.preImage, ix), None)
    else Handled(ix, None)
  }

  /** The write branch of `_handle_change`, given the document it found. */
  function HandleWrite(setup: Setup, doc: Option<MongoDoc>, ix: Index): Handled
  {
    match doc
    case None => Handled(ix, None)
    case Some(d) =>
      if !Completed(d) then Handled(ix, None)
      else match Transform(d)
        case Err(e) => Handled(ix, Some(e))
        case Ok(scenes) =>
          Handled(AfterContent(AfterUpsert(setup.backend, setup.refused, ix, scenes), setup.contentOf(d)), None)
  }

  /** The delete branch of `_handle_change`, given the pre-image. */
  function HandleDelete(setup: Setup, pre: Option<MongoDoc>, ix: Index): Index
  {
    match pre
    case Some(p) =>
      if !Truthy(p) then ix
      else
        var cleared := AfterDelete(setup.backend, setup.refused, ix, GetSceneIds(p));
        var key := VideoKey(p);
        if key != "" then cleared.(calls := cleared.calls + [DeleteContent(key)]) else cleared
    case None => ix
  }

  /** What handling one change event does to the index. */
  lemma HandleSpec(setup: Setup, docs: seq<MongoDoc>, ix: Index, c: Change)
    // an operation other than the four leaves the backend alone
    ensures !IsWrite(c) && c.op != Some("delete") ==> Handle(setup, docs, ix, c) == Handled(ix, None)
    // a write whose document is gone or not completed leaves the backend alone
    ensures IsWrite(c) && (WrittenDoc(docs, c).None? || !Completed(WrittenDoc(docs, c).value)) ==>
      Handle(setup, docs, ix, c) == Handled(ix, None)
    // a completed document: its scenes are written (nothing is removed) when
    // there are any, then its content; a failing transform writes nothing
    ensures IsWrite(c) && WrittenDoc(docs, c).Some? && Completed(WrittenDoc(docs, c).value) ==>
      var d := WrittenDoc(docs, c).value;
      match Transform(d)
      case Err(e) => Handle(setup, docs, ix, c) == Handled(ix, Some(e))
      case Ok(scenes) =>
        && Handle(setup, docs, ix, c).raised.None?
        && (forall k :: k in ix.scenes ==> k in Handle(setup, docs, ix, c).index.scenes)
        && (forall i :: 0 <= i < |scenes| && scenes[i].sceneId !in setup.refused ==> scenes[i].sceneId in Handle(setup, docs, ix, c).index.scenes)
        && |Handle(setup, docs, ix, c).index.calls| == |ix.calls| + (if scenes == [] then 0 else 1) + (if setup.contentOf(d).None? then 0 else 1)
    // a delete without a pre-image leaves the backend alone
    ensures c.op == Some("delete") && (c.preImage.None? || !Truthy(c.preImage.value)) ==> Handle(setup, docs, ix, c) == Handled(ix, None)
    // a delete with a pre-image removes exactly the rows the delete of its
    // scene ids selects (`Deleted`: with clean ids, those the backend does
    // not refuse) and nothing else, then deletes its content
    ensures c.op == Some("delete") && c.preImage.Some? && Truthy(c.preImage.value) ==>
      var pre := c.preImage.value;
      var key := VideoKey(pre);
      && Handle(setup, docs, ix, c).raised.None?
      && (forall k :: k in Handle(setup, docs, ix, c).index.scenes <==> k in ix.scenes && k !in Deleted(setup.backend, setup.refused, GetSceneIds(pre)))
      && (key != "" ==> |Handle(setup, docs, ix, c).index.calls| > |ix.calls| && Handle(setup, docs, ix, c).index.calls[|Handle(setup, docs, ix, c).index.calls| - 1] == DeleteContent(key))
      && (GetSceneIds(pre) == [] && key == "" ==> Handle(setup, docs, ix, c).index == ix)
  {
  }


  // ---------------------------------------------------------------------
  // The watch loop
  // ---------------------------------------------------------------------

  /** What a stream delivers: an event with the resume token after it, or
      the shutdown signal arriving while the stream waits. */
  datatype Delivery = Event(change: Change, token: Token) | Interrupt

  /** How a stream ends: it closes, or iterating it raises (a PyMongoError
      or any other exception: both are handled alike). `signalled`: the
      shutdown signal arrived before the exception was handled. */
  datatype StreamEnd = Closes | Fails(signalled: bool)

  /** One pass of the outer loop: opening the stream raises, or it opens
      and delivers some events before it ends. */
  datatype Attempt = OpenFails(signalled: bool) | Opens(deliveries: seq<Delivery>, end: StreamEnd)

  /** Everything the loop changes: the index, the token file, the running
      flag, the backoff, the sleeps, the `resume_after` of every
      connection, and the events handed to the handler. */
  datatype WState = WState(
    index: Index,
    token: TokenFile,
    running: bool,
    backoff: nat,
    sleeps: seq<nat>,
    resumes: seq<Option<Token>>,
    handled: seq<Change>)

  const MaxBackoff: nat := 60

  /** `min(backoff * 2, max_backoff)`. */
  function NextBackoff(b: nat): (r: nat)
    ensures r <= MaxBackoff
    ensures b <= MaxBackoff / 2 ==> r == 2 * b
  {
    if 2 * b < MaxBackoff then 2 * b else MaxBackoff
  }

  /** The events of a stream, handled one by one; a token is saved after
      every event whether or not its handler raised, and the first event
      after the shutdown signal ends the stream unhandled. */
  function Deliver(setup: Setup, docs: seq<MongoDoc>, s: WState, ds: seq<Delivery>): WState
    decreases |ds|
  {
    if ds == [] then s
    else match ds[0]
      case Interrupt => Deliver(setup, docs, s.(running := false), ds[1..])
      case Event(c, t) =>
        if !s.running then s
        else Deliver(setup, docs, EventStep(setup, docs, s, c, t), ds[1..])
  }

  /** One event: hand it to the handler (whatever it raises is logged and
      dropped), then save the stream's token when it is truthy. */
  function EventStep(setup: Setup, docs: seq<MongoDoc>, s: WState, c: Change, t: Token): (r: WState)
    ensures r.running == s.running && r.backoff == s.backoff && r.sleeps == s.sleeps && r.resumes == s.resumes
    ensures r.handled == s.handled + [c]
    ensures t != map[] ==> LoadedToken(r.token) == Some(t)
    ensures t == map[] ==> r.token == s.token
  {
    s.(
      index := Handle(setup, docs, s.index, c).index,
      handled := s.handled + [c],
      token := if t != map[] then File(Dumps(t)) else s.token)
  }

  /** An exception out of the stream: stop when the signal has arrived,
      otherwise sleep for the backoff and double it. */
  function Failed(s: WState, signalled: bool): (r: WState)
    ensures !s.running || signalled ==> r.sleeps == s.sleeps && !r.running
    ensures s.running && !signalled ==> r.sleeps == s.sleeps + [s.backoff] && r.backoff == NextBackoff(s.backoff)
  {
    var t := s.(running := s.running && !signalled);
    if !t.running then t else t.(sleeps := t.sleeps + [t.backoff], backoff := NextBackoff(t.backoff))
  }

  /** One pass of `while _running`: load the token, connect, and either
      fail or reset the backoff and read the stream. */
  function Step(setup: Setup, docs: seq<MongoDoc>, s: WState, a: Attempt): WState {
    var s1 := s.(resumes := s.resumes + [ResumeAfter(s.token)]);
    match a
    case OpenFails(signalled) => Failed(s1, signalled)
    case Opens(ds, end) =>
      var s2 := Deliver(setup, docs, s1.(backoff := 1), ds);
      match end
      case Closes => s2
      case Fails(signalled) => Failed(s2, signalled)
  }

  /** `watch_loop` over a script of attempts; it stops when the flag is down
      or the script runs out. */
  function Run(setup: Setup, docs: seq<MongoDoc>, s: WState, attempts: seq<Attempt>): WState
    decreases |attempts|
  {
    if attempts == [] || !s.running then s
    else Run(setup, docs, Step(setup, docs, s, attempts[0]), attempts[1..])
  }

  /** Reading a stream touches neither the backoff, the sleeps nor the
      connections. */
  lemma {:induction false} DeliverFrame(setup: Setup, docs: seq<MongoDoc>, s: WState, ds: seq<Delivery>)
    ensures var r := Deliver(setup, docs, s, ds);
      r.backoff == s.backoff && r.sleeps == s.sleeps && r.resumes == s.resumes
    decreases |ds|
  {
    if ds != [] {
      match ds[0]
      case Interrupt => DeliverFrame(setup, docs, s.(running := false), ds[1..]);
      case Event(c, t) =>
        if s.running {
          DeliverFrame(setup, docs, EventStep(setup, docs, s, c, t), ds[1..]);
        }
    }
  }

  /** The loop only appends connections, and its first connection resumes
      from the token the file held when the loop started. */
  lemma {:induction false} RunFirstResume(setup: Setup, docs: seq<MongoDoc>, s: WState, attempts: seq<Attempt>)
    ensures var r := Run(setup, docs, s, attempts);
      && |s.resumes| <= |r.resumes| && r.resumes[..|s.resumes|] == s.resumes
      && (s.running && attempts != [] ==> |r.resumes| > |s.resumes| && r.resumes[|s.resumes|] == ResumeAfter(s.token))
    decreases |attempts|
  {
    if attempts != [] && s.running {
      var s1 := s.(resumes := s.resumes + [ResumeAfter(s.token)]);
      var next := Step(setup, docs, s, attempts[0]);
      match attempts[0] {
        case OpenFails(_) =>
        case Opens(ds, _) => DeliverFrame(setup, docs, s1.(backoff := 1), ds);
      }
      assert next.resumes == s1.resumes;
      RunFirstResume(setup, docs, next, attempts[1..]);
      var r := Run(setup, docs, next, attempts[1..]);
      assert r.resumes[..|s1.resumes|] == s1.resumes;
      assert r.resumes[..|s.resumes|] == s1.resumes[..|s.resumes|];
    }
  }

  // ---------------------------------------------------------------------
  // What the loop promises
  // ---------------------------------------------------------------------

  function Pow2(n: nat): nat {
    if n == 0 then 1 else 2 * Pow2(n - 1)
  }

  /** The backoff after `n` failures in a row. */
  function Backoff(n: nat): nat {
    if n == 0 then 1 else NextBackoff(Backoff(n - 1))
  }

  /** The backoffs after `k`, `k + 1`, ... failures, `n` of them. */
  function Backoffs(k: nat, n: nat): (bs: seq<nat>)
    ensures |bs| == n
    ensures forall i :: 0 <= i < n ==> bs[i] == Backoff(k + i)
  {
    seq<nat>(n, i requires 0 <= i < n => Backoff(k + i))
  }

  /** The backoff doubles from one second and stays at 60 from the sixth
      failure on: 1, 2, 4, 8, 16, 32, 60, 60, ... */
  lemma {:induction false} BackoffValues(n: nat)
    ensures n <= 5 ==> Backoff(n) == Pow2(n)
    ensures n >= 6 ==> Backoff(n) == MaxBackoff
  {
    if n > 0 {
      BackoffValues(n - 1);
      if n <= 5 {
        assert Pow2(n - 1) <= 16 by {
          assert Pow2(0) == 1 && Pow2(1) == 2 && Pow2(2) == 4 && Pow2(3) == 8 && Pow2(4) == 16;
        }
      } else if n == 6 {
        assert Pow2(5) == 32 by {
          assert Pow2(0) == 1 && Pow2(1) == 2 && Pow2(2) == 4 && Pow2(3) == 8 && Pow2(4) == 16;
        }
      }
    }
  }

  /** Connections that keep failing sleep for the successive backoffs. */
  lemma {:induction false} RunFailing(setup: Setup, docs: seq<MongoDoc>, s: WState, attempts: seq<Attempt>, k: nat)
    requires s.running && s.backoff == Backoff(k)
    requires forall i :: 0 <= i < |attempts| ==> attempts[i] == OpenFails(false)
    ensures var r := Run(setup, docs, s, attempts);
      && r.running
      && r.sleeps == s.sleeps + Backoffs(k, |attempts|)
      && r.backoff == Backoff(k + |attempts|)
    decreases |attempts|
  {
    if attempts != [] {
      var next := Step(setup, docs, s, attempts[0]);
      assert next.sleeps == s.sleeps + [Backoff(k)];
      RunFailing(setup, docs, next, attempts[1..], k + 1);
      assert [Backoff(k)] + Backoffs(k + 1, |attempts| - 1) == Backoffs(k, |attempts|);
    }
  }

  /** A stream that delivers only events (no shutdown signal). */
  predicate NoInterrupt(ds: seq<Delivery>) {
    forall i :: 0 <= i < |ds| ==> ds[i].Event?
  }

  function Changes(ds: seq<Delivery>): (cs: seq<Change>)
    requires NoInterrupt(ds)
    ensures |cs| == |ds|
    ensures forall i :: 0 <= i < |ds| ==> cs[i] == ds[i].change
  {
    seq(|ds|, i requires 0 <= i < |ds| => ds[i].change)
  }

  /** Without the signal every event is handed to the handler, in order,
      whether or not earlier handlers raised. */
  lemma {:induction false} DeliverAll(setup: Setup, docs: seq<MongoDoc>, s: WState, ds: seq<Delivery>)
    requires s.running && NoInterrupt(ds)
    ensures var r := Deliver(setup, docs, s, ds);
      r.running && r.handled == s.handled + Changes(ds)
    decreases |ds|
  {
    if ds != [] {
      var c, t := ds[0].change, ds[0].token;
      var next := EventStep(setup, docs, s, c, t);
      assert next.running && next.handled == s.handled + [c];
      DeliverEvent(setup, docs, s, ds);
      ChangesCons(ds);
      DeliverAll(setup, docs, next, ds[1..]);
      var r := Deliver(setup, docs, next, ds[1..]);
      assert r.running && r.handled == (s.handled + [c]) + Changes(ds[1..]);
      AppendAssoc(s.handled, [c], Changes(ds[1..]));
    }
  }

  /** A running loop hands the first event to the handler and goes on. */
  lemma DeliverEvent(setup: Setup, docs: seq<MongoDoc>, s: WState, ds: seq<Delivery>)
    requires s.running && ds != [] && ds[0].Event?
    ensures Deliver(setup, docs, s, ds) == Deliver(setup, docs, EventStep(setup, docs, s, ds[0].change, ds[0].token), ds[1..])
  {
  }

  lemma ChangesCons(ds: seq<Delivery>)
    requires ds != [] && NoInterrupt(ds)
    ensures NoInterrupt(ds[1..]) && Changes(ds) == [ds[0].change] + Changes(ds[1..])
  {
    assert forall i :: 0 <= i < |ds| - 1 ==> ds[1..][i] == ds[i + 1];
  }

  /** Once the flag is down nothing more is handled. */
  lemma {:induction false} DeliverStopped(setup: Setup, docs: seq<MongoDoc>, s: WState, ds: seq<Delivery>)
    requires !s.running
    ensures Deliver(setup, docs, s, ds) == s
    decreases |ds|
  {
    if ds != [] && ds[0].Interrupt? {
      assert s.(running := false) == s;
      DeliverStopped(setup, docs, s, ds[1..]);
    }
  }

  /** Reading two parts of a stream one after the other. */
  lemma {:induction false} DeliverConcat(setup: Setup, docs: seq<MongoDoc>, s: WState, a: seq<Delivery>, b: seq<Delivery>)
    ensures Deliver(setup, docs, s, a + b) == Deliver(setup, docs, Deliver(setup, docs, s, a), b)
    decreases |a|
  {
    if a == [] {
      assert a + b == b;
    } else {
      assert (a + b)[0] == a[0] && (a + b)[1..] == a[1..] + b;
      match a[0] {
        case Interrupt =>
          DeliverConcat(setup, docs, s.(running := false), a[1..], b);
        case Event(c, t) =>
          if s.running {
            DeliverConcat(setup, docs, EventStep(setup, docs, s, c, t), a[1..], b);
          } else {
            DeliverStopped(setup, docs, s, b);
          }
      }
    }
  }

  /** The signal ends the stream: what is read after it changes nothing but
      the flag. */
  lemma InterruptStopsHandling(setup: Setup, docs: seq<MongoDoc>, s: WState, ds: seq<Delivery>, j: nat)
    requires j < |ds| && ds[j] == Interrupt
    ensures Deliver(setup, docs, s, ds) == Deliver(setup, docs, s, ds[..j]).(running := false)
  {
    assert ds == ds[..j] + ds[j..];
    DeliverConcat(setup, docs, s, ds[..j], ds[j..]);
    var x := Deliver(setup, docs, s, ds[..j]);
    assert ds[j..][0] == Interrupt && ds[j..][1..] == ds[j + 1..];
    DeliverStopped(setup, docs, x.(running := false), ds[j + 1..]);
  }

  /** The token is saved after every event: after a stream whose last event
      carried a truthy token, the next connection resumes after it. */
  lemma ResumeFromLastEvent(setup: Setup, docs: seq<MongoDoc>, s: WState, ds: seq<Delivery>, c: Change, t: Token)
    requires s.running && NoInterrupt(ds) && t != map[]
    ensures var r := Deliver(setup, docs, s, ds + [Event(c, t)]);
      r.running && ResumeAfter(r.token) == Some(t)
  {
    DeliverConcat(setup, docs, s, ds, [Event(c, t)]);
    DeliverAll(setup, docs, s, ds);
  }

  /** A stream that opens resets the backoff: when it then fails, the loop
      sleeps one second and the next backoff is two, whatever came before. */
  lemma OpenResetsBackoff(setup: Setup, docs: seq<MongoDoc>, s: WState, ds: seq<Delivery>)
    requires s.running && NoInterrupt(ds)
    ensures var r := Step(setup, docs, s, Opens(ds, Fails(false)));
      r.running && r.sleeps == s.sleeps + [1] && r.backoff == 2
  {
    var s1 := s.(resumes := s.resumes + [ResumeAfter(s.token)], backoff := 1);
    DeliverAll(setup, docs, s1, ds);
    DeliverFrame(setup, docs, s1, ds);
  }

  // ---------------------------------------------------------------------
  // The watcher process
  // ---------------------------------------------------------------------

  /** How `main` ends. */
  datatype Exit = Stopped | ExitCode(code: nat) | Crashed(error: Raised)

  class Watcher {
    const store: VectorStore
    /** `transform_mongo_doc_to_content`, which is not part of this model. */
    const contentOf: MongoDoc -> Option<ContentDoc>
    /** The collection as `find` and `find_one` see it. */
    const docs: seq<MongoDoc>
    var tokenFile: TokenFile
    var running: bool
    var sleeps: seq<nat>
    var resumes: seq<Option<Token>>
    var handled: seq<Change>

    constructor (store: VectorStore, contentOf: MongoDoc -> Option<ContentDoc>, docs: seq<MongoDoc>, tokenFile: TokenFile)
      ensures this.store == store && this.contentOf == contentOf && this.docs == docs
      ensures this.tokenFile == tokenFile && running
      ensures sleeps == [] && resumes == [] && handled == []
    {
      this.store := store;
      this.contentOf := contentOf;
      this.docs := docs;
      this.tokenFile := tokenFile;
      running := true;
      sleeps := [];
      resumes := [];
      handled := [];
    }

    function SetupOf(): Setup
      reads store
    {
      Setup(store.backend, store.Refused(), contentOf)
    }

    /** The loop's state with the given backoff. */
    function Snapshot(backoff: nat): WState
      reads this, store
    {
      WState(store.State(), tokenFile, running, backoff, sleeps, resumes, handled)
    }

    /** `_save_token`: the file holds the token's dump. */
    method SaveToken(t: Token)
      modifies this
      ensures tokenFile == File(Dumps(t)) && LoadedToken(tokenFile) == Some(t)
      ensures running == old(running) && sleeps == old(sleeps) && resumes == old(resumes) && handled == old(handled)
    {
      tokenFile := File(Dumps(t));
    }

    /** `_load_token`. */
    method LoadToken() returns (t: Option<Token>)
      ensures t == LoadedToken(tokenFile)
    {
      match tokenFile
      case NoFile => return None;
      case File(text) =>
        if text.Malformed? {
          return None;
        }
        return Some(text.value);
    }

    /** `_clear_token`: the file is gone, so the next load finds nothing. */
    method ClearToken()
      modifies this
      ensures tokenFile == NoFile && LoadedToken(tokenFile).None?
      ensures running == old(running) && sleeps == old(sleeps) && resumes == old(resumes) && handled == old(handled)
    {
      if tokenFile.File? {
        tokenFile := NoFile;
      }
    }

    /** `_shutdown`: the signal handler lowers the flag. */
    method Shutdown()
      modifies this
      ensures !running && tokenFile == old(tokenFile) && sleeps == old(sleeps)
      ensures resumes == old(resumes) && handled == old(handled)
    {
      running := false;
    }

    /** `full_sync`: the re-sync pass over the collection. */
    method FullSync() returns (r: Result<Counters, Raised>)
      modifies store
      ensures var spec := FullPass(SetupOf(), old(store.State()), docs);
        && (spec.Ok? ==> r == Ok(spec.value.counters) && store.State() == spec.value.index)
        && (spec.Err? ==> r == Err(spec.error.error) && store.State() == spec.error.at.index)
    {
      r := SyncCompleted(store, contentOf, docs);
    }

    /** `_handle_change`. */
    method HandleChange(c: Change) returns (raised: Option<Raised>)
      modifies store
      ensures var h := Handle(SetupOf(), docs, old(store.State()), c);
        store.State() == h.index && raised == h.raised
    {
      if c.op == Some("insert") || c.op == Some("update") || c.op == Some("replace") {
        var doc := c.fullDocument;
        if doc.None? {
          doc := FindById(docs, c.key);
        }
        raised := HandleWritten(doc);
      } else if c.op == Some("delete") {
        HandleDeleted(c.preImage);
        raised := None;
      } else {
        raised := None;
      }
    }

    /** The write branch: the document's scenes, then its content. */
    method HandleWritten(doc: Option<MongoDoc>) returns (raised: Option<Raised>)
      modifies store
      ensures var h := HandleWrite(SetupOf(), doc, old(store.State()));
        store.State() == h.index && raised == h.raised
    {
      if doc.None? {
        return None;
      }
      var d := doc.value;
      if !Completed(d) {
        return None;
      }
      var transformed := TransformMongoDoc(d);
      if transformed.Err? {
        return Some(transformed.error);
      }
      var scenes := transformed.value;
      if scenes != [] {
        var _ := store.UpsertScenes(scenes);
      }
      var content := contentOf(d);
      if content.Some? {
        store.UpsertContent(content.value);
      }
      return None;
    }

    /** The delete branch: the pre-image's scene ids, then its content. */
    method HandleDeleted(pre: Option<MongoDoc>)
      modifies store
      ensures store.State() == HandleDelete(SetupOf(), pre, old(store.State()))
    {
      if pre.Some? && Truthy(pre.value) {
        var ids := GetSceneIds(pre.value);
        if ids != [] {
          var _ := store.DeleteScenes(ids);
        }
        var key := VideoKey(pre.value);
        if key != "" {
          store.DeleteContentOf(key);
        }
      }
    }

    /** The `for change in stream` loop. */
    method Consume(ds: seq<Delivery>, ghost backoff: nat)
      modifies this, store
      ensures Snapshot(backoff) == Deliver(SetupOf(), docs, old(Snapshot(backoff)), ds)
    {
      ghost var setup := SetupOf();
      ghost var goal := Deliver(setup, docs, Snapshot(backoff), ds);
      var j := 0;
      while j < |ds|
        invariant 0 <= j <= |ds|
        invariant setup == SetupOf()
        invariant goal == Deliver(setup, docs, Snapshot(backoff), ds[j..])
      {
        assert ds[j..][0] == ds[j] && ds[j..][1..] == ds[j + 1..];
        match ds[j] {
          case Interrupt =>
            running := false;
          case Event(c, t) =>
            if !running {
              return;
            }
            ghost var before := Snapshot(backoff);
            var _ := HandleChange(c);
            handled := handled + [c];
            if t != map[] {
              SaveToken(t);
            }
            assert Snapshot(backoff) == EventStep(setup, docs, before, c, t);
        }
        j := j + 1;
      }
    }

    /** `watch_loop`, over a script of attempts. */
    method WatchLoop(attempts: seq<Attempt>)
      modifies this, store
      ensures var r := Run(SetupOf(), docs, old(Snapshot(1)), attempts);
        Snapshot(r.backoff) == r
    {
      ghost var setup := SetupOf();
      ghost var goal := Run(setup, docs, Snapshot(1), attempts);
      var backoff: nat := 1;
      var i := 0;
      while i < |attempts| && running
        invariant 0 <= i <= |attempts|
        invariant setup == SetupOf()
        invariant goal == Run(setup, docs, Snapshot(backoff), attempts[i..])
      {
        assert attempts[i..][0] == attempts[i] && attempts[i..][1..] == attempts[i + 1..];
        ghost var before := Snapshot(backoff);
        var token := LoadToken();
        resumes := resumes + [if token.Some? && token.value != map[] then token else None];
        match attempts[i] {
          case OpenFails(signalled) =>
            if signalled {
              running := false;
            }
            if running {
              sleeps := sleeps + [backoff];
              backoff := NextBackoff(backoff);
            }
          case Opens(ds, end) =>
            backoff := 1;
            Consume(ds, backoff);
            match end {
              case Closes =>
              case Fails(signalled) =>
                if signalled {
                  running := false;
                }
                if running {
                  sleeps := sleeps + [backoff];
                  backoff := NextBackoff(backoff);
                }
            }
        }
        assert Snapshot(backoff) == Step(setup, docs, before, attempts[i]);
        i := i + 1;
      }
    }

    /** `main`: the flags, the connection check, the backend set-up, the
      optional full sync, then the watch loop. `pingOk` and `backendOk`
      say whether the ping and `_ensure_backend` succeed. */
    method Start(resetToken: bool, fullSync: bool, fullSyncOnly: bool, pingOk: bool, backendOk: bool, attempts: seq<Attempt>)
      returns (exit: Exit)
      modifies this, store
      ensures !pingOk || !backendOk ==>
        exit == ExitCode(1) && store.State() == old(store.State()) && resumes == old(resumes)
      ensures resetToken && (!pingOk || !backendOk) ==> tokenFile == NoFile
      ensures resetToken && |resumes| > |old(resumes)| ==> resumes[|old(resumes)|].None?
      ensures fullSyncOnly ==> resumes == old(resumes) && handled == old(handled)
      ensures exit.Crashed? ==> resumes == old(resumes) && (fullSync || fullSyncOnly)
      ensures pingOk && backendOk && (fullSync || fullSyncOnly) ==>
        var pass := FullPass(SetupOf(), old(store.State()), docs);
        && (pass.Err? ==> exit == Crashed(pass.error.error) && store.State() == pass.error.at.index)
        && (pass.Ok? && fullSyncOnly ==> exit == Stopped && store.State() == pass.value.index)
      ensures pingOk && backendOk && !fullSyncOnly && (fullSync ==> FullPass(SetupOf(), old(store.State()), docs).Ok?) ==>
        var index := if fullSync then FullPass(SetupOf(), old(store.State()), docs).value.index else old(store.State());
        var token := if resetToken then NoFile else old(tokenFile);
        var r := Run(SetupOf(), docs, WState(index, token, old(running), 1, old(sleeps), old(resumes), old(handled)), attempts);
        exit == Stopped && Snapshot(r.backoff) == r
    {
      if resetToken {
        ClearToken();
      }
      if !pingOk || !backendOk {
        return ExitCode(1);
      }
      if fullSync || fullSyncOnly {
        var r := FullSync();
        if r.Err? {
          return Crashed(r.error);
        }
        if fullSyncOnly {
          return Stopped;
        }
      }
      label WatchStart:
      WatchLoop(attempts);
      RunFirstResume(SetupOf(), docs, old@WatchStart(Snapshot(1)), attempts);
      return Stopped;
    }
  }
}
