/** The OpenSearch query bodies: a pure neural (k-NN) query and a hybrid
    query that pairs a lexical bool query with the same neural clause.
    `model_id` comes from the settings and is a parameter here. */
module Queries {
  import opened Wrappers

  /** `{"neural": {"embedding": {query_text, model_id, k}}}`. */
  datatype Neural = Neural(field: string, queryText: string, modelId: string, k: int)

  /** `{"match": {field: {"query": ..., "boost": ...}}}`; no boost key is None. */
  datatype Match = Match(field: string, query: string, boost: Option<real>)

  /** A clause of a hybrid query. */
  datatype Clause = BoolShould(should: seq<Match>) | NeuralClause(neural: Neural)

  datatype Query = NeuralQuery(neural: Neural) | HybridQuery(queries: seq<Clause>)

  datatype QueryBody = QueryBody(size: int, query: Query)

  function NeuralOn(queryText: string, modelId: string, k: int): Neural {
    Neural("embedding", queryText, modelId, k)
  }

  /** `build_semantic_query`. */
  function SemanticQuery(queryText: string, k: int, modelId: string): QueryBody {
    QueryBody(k, NeuralQuery(NeuralOn(queryText, modelId, k)))
  }

  /** `build_hybrid_query`. */
  function HybridQueryOf(queryText: string, k: int, modelId: string): QueryBody {
    QueryBody(k, HybridQuery([
      BoolShould([
        Match("scene_description", queryText, None),
        Match("video_title", queryText, Some(1.5)),
        Match("video_description", queryText, Some(0.5))]),
      NeuralClause(NeuralOn(queryText, modelId, k))]))
  }

  /** Every query text a clause carries, in order. */
  function ClauseTexts(c: Clause): (texts: seq<string>)
    ensures c.BoolShould? ==> |texts| == |c.should|
    ensures c.NeuralClause? ==> texts == [c.neural.queryText]
  {
    match c
    case BoolShould(ms) => seq(|ms|, i requires 0 <= i < |ms| => ms[i].query)
    case NeuralClause(n) => [n.queryText]
  }

  function ClausesTexts(cs: seq<Clause>): seq<string>
    decreases |cs|
  {
    if cs == [] then [] else ClauseTexts(cs[0]) + ClausesTexts(cs[1..])
  }

  /** Every query text a body carries, in order. */
  function Texts(q: QueryBody): seq<string> {
    match q.query
    case NeuralQuery(n) => [n.queryText]
    case HybridQuery(cs) => ClausesTexts(cs)
  }

  /** Every `k` a body carries: its `size` and each neural clause's `k`. */
  function Sizes(q: QueryBody): seq<int> {
    match q.query
    case NeuralQuery(n) => [q.size, n.k]
    case HybridQuery(cs) => [q.size] + NeuralKs(cs)
  }

  /** The `k` of each neural clause among `cs`, in order. */
  function NeuralKs(cs: seq<Clause>): seq<int>
    decreases |cs|
  {
    if cs == [] then []
    else (if cs[0].NeuralClause? then [cs[0].neural.k] else []) + NeuralKs(cs[1..])
  }

  /** The semantic query passes the query text once, unchanged, and asks
      for `k` hits and `k` neighbours. */
  lemma SemanticCarries(queryText: string, k: int, modelId: string)
    ensures Texts(SemanticQuery(queryText, k, modelId)) == [queryText]
    ensures forall s :: s in Sizes(SemanticQuery(queryText, k, modelId)) ==> s == k
    ensures SemanticQuery(queryText, k, modelId).query.neural.modelId == modelId
  {
  }

  /** The hybrid query passes the query text unchanged to its three lexical
      matches and its neural clause, asks for `k` everywhere, and has the
      lexical clause first and the neural clause second. */
  lemma HybridCarries(queryText: string, k: int, modelId: string)
    ensures Texts(HybridQueryOf(queryText, k, modelId)) == [queryText, queryText, queryText, queryText]
    ensures forall s :: s in Sizes(HybridQueryOf(queryText, k, modelId)) ==> s == k
    ensures var cs := HybridQueryOf(queryText, k, modelId).query.queries;
      |cs| == 2 && cs[0].BoolShould? && cs[1].NeuralClause?
  {
    var cs := HybridQueryOf(queryText, k, modelId).query.queries;
    assert cs[1..][1..] == [];
    assert ClausesTexts(cs[1..]) == [queryText];
    assert NeuralKs(cs[1..]) == [k];
  }

  /** Both builders ask the same neural question: the hybrid query's
      second clause is the semantic query's neural clause. */
  lemma NeuralShared(queryText: string, k: int, modelId: string)
    ensures HybridQueryOf(queryText, k, modelId).query.queries[1]
      == NeuralClause(SemanticQuery(queryText, k, modelId).query.neural)
    ensures HybridQueryOf(queryText, k, modelId).size == SemanticQuery(queryText, k, modelId).size
  {
  }

  /** The weight of a match clause: its boost, 1.0 when it has none. */
  function Weight(m: Match): (w: real)
    ensures m.boost.None? ==> w == 1.0
  {
    m.boost.GetOr(1.0)
  }

  /** The lexical clause weighs the title above the scene description and
      the scene description above the video description. */
  lemma LexicalWeights(queryText: string, k: int, modelId: string)
    ensures var ms := HybridQueryOf(queryText, k, modelId).query.queries[0].should;
      && |ms| == 3
      && ms[0].field == "scene_description" && ms[1].field == "video_title" && ms[2].field == "video_description"
      && Weight(ms[1]) > Weight(ms[0]) > Weight(ms[2])
  {
  }
}
