/** Provisioning of the Milvus scene collection: the schema the service
    creates, the test that decides whether an existing collection can be
    kept, and `ensure_collection`, which drops an incompatible collection,
    creates the collection with its vector index when it is missing, and
    always loads it. The Milvus server is modelled as a registry of
    collections, indexes and loaded collections that the client's calls
    change in place, with a log of the calls that change it. */
module MilvusManager {
  import opened Wrappers

  // ---------------------------------------------------------------------
  // _build_schema
  // ---------------------------------------------------------------------

  datatype FieldType = VarChar(maxLength: nat) | FloatVector(dim: nat) | Float

  datatype Field = Field(name: string, dtype: FieldType, isPrimary: bool)

  /** The fields of the scene collection, in declaration order; `dim` is the
      configured embedding dimension. */
  function BuildSchema(dim: nat): seq<Field> {
    [ Field("scene_id", VarChar(256), true),
      Field("embedding", FloatVector(dim), false),
      Field("scene_description", VarChar(65535), false),
      Field("start_time_sec", Float, false),
      Field("end_time_sec", Float, false),
      Field("video_id", VarChar(256), false),
      Field("video_title", VarChar(1024), false),
      Field("video_description", VarChar(65535), false),
      Field("video_tags", VarChar(4096), false),
      Field("video_duration_sec", Float, false),
      Field("video_created_at", VarChar(64), false),
      Field("category", VarChar(256), false),
      Field("created_date", VarChar(64), false),
      Field("author", VarChar(256), false) ]
  }

  /** The field names a schema lists, as `describe_collection` reports them. */
  function Names(fields: seq<Field>): (names: seq<string>)
    ensures |names| == |fields|
    ensures forall i :: 0 <= i < |fields| ==> names[i] == fields[i].name
  {
    seq(|fields|, i requires 0 <= i < |fields| => fields[i].name)
  }

  /** The schema holds fourteen fields; `scene_id` is its one primary key
      and `embedding` its one vector field, of the configured dimension. */
  lemma SchemaShape(dim: nat)
    ensures var fs := BuildSchema(dim);
      && |fs| == 14
      && (forall i :: 0 <= i < |fs| ==> (fs[i].isPrimary <==> fs[i].name == "scene_id"))
      && (forall i :: 0 <= i < |fs| ==> (fs[i].dtype.FloatVector? <==> fs[i].name == "embedding"))
      && (forall i :: 0 <= i < |fs| && fs[i].dtype.FloatVector? ==> fs[i].dtype.dim == dim)
  {
  }

  // ---------------------------------------------------------------------
  // _schema_compatible
  // ---------------------------------------------------------------------

  /** The fields the scene code relies on. */
  const Required: set<string> := {"scene_id", "category", "created_date", "author"}

  /** `_schema_compatible` on the outcome of `describe_collection`: the
      field names, or None when the call raised. Any exception counts as
      incompatible. */
  function SchemaCompatible(info: Option<seq<string>>): (ok: bool)
    ensures info.None? ==> !ok
    ensures info.Some? ==> (ok <==> forall r :: r in Required ==> r in info.value)
  {
    match info
    case None => false
    case Some(names) => Required <= set n | n in names
  }

  /** A collection created from the schema passes the compatibility test. */
  lemma FreshSchemaCompatible(dim: nat)
    ensures SchemaCompatible(Some(Names(BuildSchema(dim))))
  {
    var names := Names(BuildSchema(dim));
    assert names[0] == "scene_id" && names[11] == "category";
    assert names[12] == "created_date" && names[13] == "author";
  }

  /** An older collection with an automatic `id` key and none of the scene
      fields is incompatible. */
  lemma LegacySchemaIncompatible(names: seq<string>)
    requires "scene_id" !in names
    ensures !SchemaCompatible(Some(names))
  {
  }

  // ---------------------------------------------------------------------
  // The server's registry
  // ---------------------------------------------------------------------

  /** The vector index `ensure_collection` builds. */
  datatype IndexParams = IndexParams(field: string, indexType: string, metric: string, m: nat, efConstruction: nat)

  const Hnsw: IndexParams := IndexParams("embedding", "HNSW", "COSINE", 16, 128)

  /** The calls that change the server. */
  datatype Op = Drop(name: string) | Create(name: string, schema: seq<Field>) | Index(name: string, params: IndexParams) | Load(name: string)

  /** What the server holds: each collection's schema, the indexes built
      on collections, and the collections loaded into memory. */
  datatype Registry = Registry(collections: map<string, seq<Field>>, indexes: map<string, IndexParams>, loaded: set<string>)

  /** The server after one call. Dropping a collection removes its index
      and unloads it. */
  function Apply(s: Registry, op: Op): Registry {
    match op
    case Drop(n) => Registry(s.collections - {n}, s.indexes - {n}, s.loaded - {n})
    case Create(n, schema) => s.(collections := s.collections[n := schema])
    case Index(n, p) => s.(indexes := s.indexes[n := p])
    case Load(n) => s.(loaded := s.loaded + {n})
  }

  /** The server after a list of calls, in order. */
  function Run(s: Registry, ops: seq<Op>): Registry
    decreases |ops|
  {
    if ops == [] then s else Apply(Run(s, ops[..|ops| - 1]), ops[|ops| - 1])
  }

  // ---------------------------------------------------------------------
  // ensure_collection, specified
  // ---------------------------------------------------------------------

  /** Whether `ensure_collection` drops the collection: it exists and the
      compatibility test fails on it, or its description raised. */
  predicate Drops(s: Registry, name: string, describeFails: bool) {
    name in s.collections
    && !SchemaCompatible(if describeFails then None else Some(Names(s.collections[name])))
  }

  /** The first half of `ensure_collection`: drop the collection when it
      exists and is incompatible. */
  function DropStep(s: Registry, name: string, describeFails: bool): seq<Op> {
    if Drops(s, name, describeFails) then [Drop(name)] else []
  }

  /** The second half, which asks `has_collection` again: create the
      collection and its index when it is missing. `schema` is the one it
      creates a collection with, `BuildSchema` of the configured dimension. */
  function CreateStep(s: Registry, name: string, schema: seq<Field>): seq<Op> {
    if name !in s.collections then [Create(name, schema), Index(name, Hnsw)] else []
  }

  /** The calls `ensure_collection` makes: the drop step, the create step
      on the server as the drop left it, then the load. */
  function EnsureOps(s: Registry, name: string, schema: seq<Field>, describeFails: bool): seq<Op> {
    var dropped := Run(s, DropStep(s, name, describeFails));
    DropStep(s, name, describeFails) + CreateStep(dropped, name, schema) + [Load(name)]
  }

  /** The server after `ensure_collection`. */
  function EnsureState(s: Registry, name: string, schema: seq<Field>, describeFails: bool): Registry {
    Run(s, EnsureOps(s, name, schema, describeFails))
  }

  lemma RunSnoc(s: Registry, ops: seq<Op>, op: Op)
    ensures Run(s, ops + [op]) == Apply(Run(s, ops), op)
  {
    assert (ops + [op])[..|ops|] == ops;
  }

  /** Running two lists of calls one after the other. */
  lemma {:induction false} RunConcat(s: Registry, a: seq<Op>, b: seq<Op>)
    ensures Run(s, a + b) == Run(Run(s, a), b)
    decreases |b|
  {
    if b == [] {
      assert a + b == a;
    } else {
      var front, last := b[..|b| - 1], b[|b| - 1];
      calc {
        Run(s, a + b);
        { assert a + b == (a + front) + [last]; }
        Run(s, (a + front) + [last]);
        { RunSnoc(s, a + front, last); }
        Apply(Run(s, a + front), last);
        { RunConcat(s, a, front); }
        Apply(Run(Run(s, a), front), last);
        { RunSnoc(Run(s, a), front, last); assert front + [last] == b; }
        Run(Run(s, a), b);
      }
    }
  }

  lemma RunThree(s: Registry, a: Op, b: Op, c: Op)
    ensures Run(s, [a, b, c]) == Apply(Apply(Apply(s, a), b), c)
  {
    RunSnoc(s, [], a);
    RunSnoc(s, [a], b);
    RunSnoc(s, [a, b], c);
    assert [] + [a] == [a] && [a] + [b] == [a, b] && [a, b] + [c] == [a, b, c];
  }

  lemma RunFour(s: Registry, a: Op, b: Op, c: Op, d: Op)
    ensures Run(s, [a, b, c, d]) == Apply(Apply(Apply(Apply(s, a), b), c), d)
  {
    RunThree(s, a, b, c);
    RunSnoc(s, [a, b, c], d);
    assert [a, b, c] + [d] == [a, b, c, d];
  }

  /** The three outcomes of `ensure_collection`. A compatible collection is
      only loaded: neither dropped nor re-indexed, and its schema and index
      stay as they were. A missing collection is created from the schema
      with the HNSW index, then loaded. An incompatible one, or one whose
      description raised, is dropped first and then created the same way. */
  lemma EnsureCases(s: Registry, name: string, schema: seq<Field>, describeFails: bool)
    ensures var ops := EnsureOps(s, name, schema, describeFails);
      var t := EnsureState(s, name, schema, describeFails);
      && (name in s.collections && !Drops(s, name, describeFails) ==>
            ops == [Load(name)] && t == s.(loaded := s.loaded + {name}))
      && (name !in s.collections ==>
            ops == [Create(name, schema), Index(name, Hnsw), Load(name)]
            && t.collections == s.collections[name := schema]
            && t.indexes == s.indexes[name := Hnsw] && t.loaded == s.loaded + {name})
      && (Drops(s, name, describeFails) ==>
            ops == [Drop(name), Create(name, schema), Index(name, Hnsw), Load(name)]
            && t.collections == s.collections[name := schema]
            && t.indexes == s.indexes[name := Hnsw] && t.loaded == s.loaded + {name})
  {
    var ops := EnsureOps(s, name, schema, describeFails);
    if name in s.collections && !Drops(s, name, describeFails) {
      assert DropStep(s, name, describeFails) == [];
      assert ops == [Load(name)];
      RunSnoc(s, [], Load(name));
      assert [] + [Load(name)] == [Load(name)];
    } else if name !in s.collections {
      assert DropStep(s, name, describeFails) == [];
      assert ops == [Create(name, schema), Index(name, Hnsw), Load(name)];
      RunThree(s, Create(name, schema), Index(name, Hnsw), Load(name));
    } else {
      RunSnoc(s, [], Drop(name));
      assert [] + [Drop(name)] == [Drop(name)];
      assert ops == [Drop(name), Create(name, schema), Index(name, Hnsw), Load(name)];
      RunFour(s, Drop(name), Create(name, schema), Index(name, Hnsw), Load(name));
      var d := Apply(s, Drop(name));
      assert d.collections[name := schema] == s.collections[name := schema];
      assert d.indexes[name := Hnsw] == s.indexes[name := Hnsw];
      assert d.loaded + {name} == s.loaded + {name};
    }
  }

  /** Whatever the starting state, the collection exists and is loaded
      afterwards; the index is built exactly when the collection is
      created; and every other collection keeps its schema, index and load
      state. */
  lemma EnsureExistsLoaded(s: Registry, name: string, schema: seq<Field>, describeFails: bool)
    ensures var ops := EnsureOps(s, name, schema, describeFails);
      var t := EnsureState(s, name, schema, describeFails);
      && name in t.collections && name in t.loaded
      && (Index(name, Hnsw) in ops <==> Create(name, schema) in ops)
      && (forall n :: n != name ==> (n in t.collections <==> n in s.collections))
      && (forall n :: n != name && n in s.collections ==> t.collections[n] == s.collections[n])
      && (forall n :: n != name ==> (n in t.indexes <==> n in s.indexes))
      && (forall n :: n != name && n in s.indexes ==> t.indexes[n] == s.indexes[n])
      && (forall n :: n != name ==> (n in t.loaded <==> n in s.loaded))
  {
    EnsureCases(s, name, schema, describeFails);
  }

  /** A second `ensure_collection` whose description succeeds only loads
      the collection again, which changes nothing. */
  lemma EnsureIdempotent(s: Registry, name: string, schema: seq<Field>, describeFails: bool)
    requires SchemaCompatible(Some(Names(schema)))
    ensures var t := EnsureState(s, name, schema, describeFails);
      && EnsureOps(t, name, schema, false) == [Load(name)]
      && EnsureState(t, name, schema, false) == t
  {
    var t := EnsureState(s, name, schema, describeFails);
    EnsureCases(s, name, schema, describeFails);
    if name in s.collections && !Drops(s, name, describeFails) {
      assert t.collections[name] == s.collections[name];
    } else {
      assert t.collections[name] == schema;
    }
    assert !Drops(t, name, false);
    EnsureCases(t, name, schema, false);
  }

  /** A failing description drops and recreates even a compatible
      collection: the exception is read as a schema mismatch. */
  lemma DescribeFailureRecreates(s: Registry, name: string, schema: seq<Field>)
    requires name in s.collections
    ensures EnsureOps(s, name, schema, true)[0] == Drop(name)
  {
  }

  // ---------------------------------------------------------------------
  // The client and ensure_collection
  // ---------------------------------------------------------------------

  /** A Milvus client bound to one server; `ops` records the calls that
      changed the server. */
  class MilvusClient {
    var collections: map<string, seq<Field>>
    var indexes: map<string, IndexParams>
    var loaded: set<string>
    var ops: seq<Op>

    constructor(s: Registry)
      ensures State() == s && ops == []
    {
      collections := s.collections;
      indexes := s.indexes;
      loaded := s.loaded;
      ops := [];
    }

    function State(): Registry
      reads this
    {
      Registry(collections, indexes, loaded)
    }

    /** `has_collection`. */
    method HasCollection(name: string) returns (b: bool)
      ensures b <==> name in State().collections
    {
      b := name in collections;
    }

    /** `describe_collection` then the field names; None when the call
      raises, as it does for a missing collection or a failing server. */
    method DescribeCollection(name: string, fails: bool) returns (info: Option<seq<string>>)
      ensures info.Some? <==> !fails && name in State().collections
      ensures info.Some? ==> (|info.value| == |State().collections[name]|
        && forall i :: 0 <= i < |info.value| ==> info.value[i] == State().collections[name][i].name)
    {
      if fails || name !in collections {
        return None;
      }
      return Some(Names(collections[name]));
    }

    /** One call that changes the server. */
    method Perform(op: Op)
      modifies this
      ensures State() == Apply(old(State()), op)
      ensures ops == old(ops) + [op]
    {
      match op {
        case Drop(n) =>
          collections := collections - {n};
          indexes := indexes - {n};
          loaded := loaded - {n};
        case Create(n, schema) =>
          collections := collections[n := schema];
        case Index(n, p) =>
          indexes := indexes[n := p];
        case Load(n) =>
          loaded := loaded + {n};
      }
      ops := ops + [op];
    }
  }

  /** `_schema_compatible(client, collection)`. */
  method SchemaCompatibleOn(client: MilvusClient, name: string, describeFails: bool) returns (ok: bool)
    ensures ok <==> name in client.State().collections && !Drops(client.State(), name, describeFails)
  {
    var info := client.DescribeCollection(name, describeFails);
    ok := SchemaCompatible(info);
    if info.Some? {
      assert info.value == Names(client.collections[name]);
    }
  }

  /** Lines 43-46 of `ensure_collection`: an existing collection that
      fails the compatibility test is dropped. */
  method DropIfIncompatible(client: MilvusClient, name: string, describeFails: bool)
    modifies client
    ensures client.State() == Run(old(client.State()), DropStep(old(client.State()), name, describeFails))
    ensures client.ops == old(client.ops) + DropStep(old(client.State()), name, describeFails)
  {
    ghost var s := client.State();
    var present := client.HasCollection(name);
    if present {
      var ok := SchemaCompatibleOn(client, name, describeFails);
      if !ok {
        client.Perform(Drop(name));
        RunSnoc(s, [], Drop(name));
        assert [] + [Drop(name)] == [Drop(name)];
        return;
      }
    }
    assert DropStep(s, name, describeFails) == [];
  }

  /** Lines 48-65: a missing collection is created with the schema and
      then indexed. */
  method CreateIfMissing(client: MilvusClient, name: string, schema: seq<Field>)
    modifies client
    ensures client.State() == Run(old(client.State()), CreateStep(old(client.State()), name, schema))
    ensures client.ops == old(client.ops) + CreateStep(old(client.State()), name, schema)
  {
    ghost var s := client.State();
    var present := client.HasCollection(name);
    if !present {
      client.Perform(Create(name, schema));
      client.Perform(Index(name, Hnsw));
      RunSnoc(s, [], Create(name, schema));
      RunSnoc(s, [Create(name, schema)], Index(name, Hnsw));
      assert [] + [Create(name, schema)] == [Create(name, schema)];
      assert [Create(name, schema)] + [Index(name, Hnsw)] == [Create(name, schema), Index(name, Hnsw)];
    }
  }

  /** `ensure_collection`: `dim` is the configured embedding dimension and
      `describeFails` whether `describe_collection` raises. */
  method EnsureCollection(client: MilvusClient, name: string, dim: nat, describeFails: bool)
    modifies client
    ensures client.State() == EnsureState(old(client.State()), name, BuildSchema(dim), describeFails)
    ensures client.ops == old(client.ops) + EnsureOps(old(client.State()), name, BuildSchema(dim), describeFails)
  {
    ghost var s := client.State();
    var schema := BuildSchema(dim);
    DropIfIncompatible(client, name, describeFails);
    ghost var dropOps := DropStep(s, name, describeFails);
    ghost var s1 := client.State();
    CreateIfMissing(client, name, schema);
    ghost var createOps := CreateStep(s1, name, schema);
    client.Perform(Load(name));
    RunConcat(s, dropOps, createOps);
    RunSnoc(s, dropOps + createOps, Load(name));
  }
}
