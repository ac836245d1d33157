/** Reading Milvus search results back: hits parsed with defaults, and the
    facet lists (values grouped, counted and ordered by count) that every
    search response carries. The embedding of the query and the ranking
    the client performs are not part of this model: the client's answer is
    a parameter. */
module MilvusQueries {
  import opened Wrappers
  import opened Json
  import opened SyncUtils

  // ---------------------------------------------------------------------
  // Hits
  // ---------------------------------------------------------------------

  /** A scene entity as the client returns it: every output field the
      parser reads, each present or missing. */
  datatype SceneEntity = SceneEntity(
    sceneId: Option<string>,
    description: Option<string>,
    startSec: Option<real>,
    endSec: Option<real>,
    videoId: Option<string>,
    videoTitle: Option<string>,
    videoDescription: Option<string>,
    videoTags: ListField<string>,
    category: Option<string>,
    createdDate: Option<string>,
    author: Option<string>)

  /** One search result: its `distance` and its `entity`. */
  datatype Found<E> = Found(distance: real, entity: E)

  /** The dict `_parse_scene_hit` returns. `video_description` is read
      without a default, so it may be missing. */
  datatype SceneHitDict = SceneHitDict(
    score: real,
    sceneId: string,
    description: string,
    startSec: real,
    endSec: real,
    videoId: string,
    videoTitle: string,
    videoDescription: Option<string>,
    videoTags: seq<string>,
    category: string,
    createdDate: string,
    author: string)

  function ParseSceneHit(r: Found<SceneEntity>): (h: SceneHitDict)
    ensures h.score == r.distance
    ensures h.videoTags == ListOrEmpty(r.entity.videoTags)
  {
    var e := r.entity;
    SceneHitDict(
      r.distance, e.sceneId.GetOr(""), e.description.GetOr(""), e.startSec.GetOr(0.0),
      e.endSec.GetOr(0.0), e.videoId.GetOr(""), e.videoTitle.GetOr(""), e.videoDescription,
      ListOrEmpty(e.videoTags), e.category.GetOr(""), e.createdDate.GetOr(""), e.author.GetOr(""))
  }

  /** The entity Milvus holds for a row the sync code wrote. */
  function EntityOfRow(row: MilvusSceneRow): SceneEntity {
    SceneEntity(
      Some(row.sceneId), Some(row.description), Some(row.startSec), Some(row.endSec),
      Some(row.videoId), Some(row.videoTitle), Some(row.videoDescription), Encoded(row.videoTags),
      Some(row.category), Some(row.createdDate), Some(row.author))
  }

  /** A hit read back from a row that the sync wrote for a scene record
      carries that record's own fields; the tags survive the JSON text. */
  lemma ParseWrittenScene(s: SceneRecord, distance: real)
    ensures var h := ParseSceneHit(Found(distance, EntityOfRow(MilvusRowOf(s).milvus)));
      && h.sceneId == s.sceneId && h.description == s.description
      && h.startSec == s.startSec && h.endSec == s.endSec
      && h.videoId == s.video.videoId && h.videoTitle == s.video.videoTitle
      && h.videoDescription == Some(s.video.videoDescription)
      && h.videoTags == s.video.videoTags
      && h.category == s.category && h.createdDate == s.createdDate && h.author == s.author
  {
  }

  /** A content entity as the client returns it. */
  datatype ContentEntity = ContentEntity(
    contentId: Option<string>,
    title: Option<string>,
    description: Option<string>,
    tags: ListField<string>,
    durationSec: Option<real>,
    createdAt: Option<string>,
    category: Option<string>,
    author: Option<string>)

  /** The dict `_parse_content_hit` returns. */
  datatype ContentHitDict = ContentHitDict(
    score: real,
    contentId: string,
    title: string,
    description: string,
    tags: seq<string>,
    durationSec: real,
    createdAt: string,
    category: string,
    author: string)

  function ParseContentHit(r: Found<ContentEntity>): (h: ContentHitDict)
    ensures h.score == r.distance
    ensures h.tags == ListOrEmpty(r.entity.tags)
  {
    var e := r.entity;
    ContentHitDict(
      r.distance, e.contentId.GetOr(""), e.title.GetOr(""), e.description.GetOr(""),
      ListOrEmpty(e.tags), e.durationSec.GetOr(0.0), e.createdAt.GetOr(""),
      e.category.GetOr(""), e.author.GetOr(""))
  }

  /** Missing fields read as the empty string or 0.0; tags that are
      missing or whose text does not decode read as the empty list. */
  lemma ParseDefaults(d: real, raw: string)
    ensures var h := ParseSceneHit(Found(d, SceneEntity(None, None, None, None, None, None, None, Encoded(Malformed(raw)), None, None, None)));
      h == SceneHitDict(d, "", "", 0.0, 0.0, "", "", None, [], "", "", "")
    ensures var h := ParseContentHit(Found(d, ContentEntity(None, None, None, Absent, None, None, None, None)));
      h == ContentHitDict(d, "", "", "", [], 0.0, "", "", "")
  {
  }

  // ---------------------------------------------------------------------
  // Facet grouping
  // ---------------------------------------------------------------------

  datatype FacetField = Category | CreatedDate | Author

  /** What the facet code reads of a hit: the id it groups and the hit's
      keys as a dict (`hit.get(field, "")`). */
  datatype Faceted = Faceted(id: string, fields: map<FacetField, string>)

  function Get(h: Faceted, f: FacetField): string {
    if f in h.fields then h.fields[f] else ""
  }

  function FacetedScene(h: SceneHitDict): Faceted {
    Faceted(h.sceneId, map[Category := h.category, CreatedDate := h.createdDate, Author := h.author])
  }

  /** A content hit has no `created_date` key. */
  function FacetedContent(h: ContentHitDict): Faceted {
    Faceted(h.contentId, map[Category := h.category, Author := h.author])
  }

  function FacetedScenes(hits: seq<SceneHitDict>): (fs: seq<Faceted>)
    ensures |fs| == |hits|
  {
    seq(|hits|, i requires 0 <= i < |hits| => FacetedScene(hits[i]))
  }

  function FacetedContents(hits: seq<ContentHitDict>): (fs: seq<Faceted>)
    ensures |fs| == |hits|
  {
    seq(|hits|, i requires 0 <= i < |hits| => FacetedContent(hits[i]))
  }

  /** One entry of a `defaultdict(list)`: a value and the ids appended
      under it. */
  datatype Group = Group(value: string, ids: seq<string>)

  /** Where `v` sits among the groups, or `|gs|` when it has none yet. */
  function Find(gs: seq<Group>, v: string): (i: nat)
    ensures i <= |gs|
    ensures i < |gs| ==> gs[i].value == v
    ensures forall j :: 0 <= j < i ==> gs[j].value != v
  {
    if gs == [] then 0 else if gs[0].value == v then 0 else 1 + Find(gs[1..], v)
  }

  /** `groups[value].append(id)`: a new value opens a group at the end. */
  function AddTo(gs: seq<Group>, v: string, id: string): seq<Group> {
    var i := Find(gs, v);
    if i < |gs| then gs[i := Group(v, gs[i].ids + [id])] else gs + [Group(v, [id])]
  }

  /** The groups of one field after the loop over `hits`. */
  function Grouped(hits: seq<Faceted>, f: FacetField): seq<Group>
    decreases |hits|
  {
    if hits == [] then []
    else
      var last := hits[|hits| - 1];
      var gs := Grouped(hits[..|hits| - 1], f);
      var v := Get(last, f);
      if v != "" then AddTo(gs, v, last.id) else gs
  }

  // The reference the grouping is measured against.

  /** The ids of the hits whose field holds `v`, in hit order. */
  function IdsWith(hits: seq<Faceted>, f: FacetField, v: string): seq<string>
    decreases |hits|
  {
    if hits == [] then []
    else
      var last := hits[|hits| - 1];
      IdsWith(hits[..|hits| - 1], f, v) + (if Get(last, f) == v then [last.id] else [])
  }

  /** The non-empty values of the field, each once, in order of first
      appearance. */
  function FirstAppearance(hits: seq<Faceted>, f: FacetField): seq<string>
    decreases |hits|
  {
    if hits == [] then []
    else
      var prior := FirstAppearance(hits[..|hits| - 1], f);
      var v := Get(hits[|hits| - 1], f);
      if v == "" || v in prior then prior else prior + [v]
  }

  /** The number of hits with a non-empty value for the field. */
  function CountWith(hits: seq<Faceted>, f: FacetField): nat
    decreases |hits|
  {
    if hits == [] then 0
    else CountWith(hits[..|hits| - 1], f) + (if Get(hits[|hits| - 1], f) != "" then 1 else 0)
  }

  function Values(gs: seq<Group>): seq<string> {
    seq(|gs|, i requires 0 <= i < |gs| => gs[i].value)
  }

  /** The total of the group sizes. */
  function Total(gs: seq<Group>): nat {
    if gs == [] then 0 else |gs[0].ids| + Total(gs[1..])
  }

  lemma {:induction false} TotalAppend(gs: seq<Group>, g: Group)
    ensures Total(gs + [g]) == Total(gs) + |g.ids|
  {
    if gs != [] {
      assert (gs + [g])[1..] == gs[1..] + [g];
      TotalAppend(gs[1..], g);
    }
  }

  lemma {:induction false} TotalUpdate(gs: seq<Group>, i: nat, g: Group)
    requires i < |gs|
    ensures Total(gs[i := g]) + |gs[i].ids| == Total(gs) + |g.ids|
  {
    if i > 0 {
      assert gs[i := g][1..] == gs[1..][i - 1 := g];
      TotalUpdate(gs[1..], i - 1, g);
    }
  }

  predicate Distinct(gs: seq<Group>) {
    forall i, j :: 0 <= i < j < |gs| ==> gs[i].value != gs[j].value
  }

  /** Each group holds exactly the ids of the hits with its value. */
  predicate IdsMatch(hits: seq<Faceted>, f: FacetField, gs: seq<Group>) {
    forall i :: 0 <= i < |gs| ==> gs[i].value != "" && gs[i].ids == IdsWith(hits, f, gs[i].value) != []
  }

  /** Every non-empty value some hit holds has a group. */
  ghost predicate Covers(hits: seq<Faceted>, f: FacetField, gs: seq<Group>) {
    forall w :: w != "" && IdsWith(hits, f, w) != [] ==> w in Values(gs)
  }

  /** The grouping of one field: one group per distinct non-empty value,
      in order of first appearance; each group holds exactly the ids of the
      hits with that value, in hit order; the group sizes add up to the
      number of hits that have a value. */
  lemma {:induction false} GroupedSpec(hits: seq<Faceted>, f: FacetField)
    ensures var gs := Grouped(hits, f);
      && Values(gs) == FirstAppearance(hits, f)
      && Distinct(gs)
      && IdsMatch(hits, f, gs)
      && Covers(hits, f, gs)
      && Total(gs) == CountWith(hits, f)
    decreases |hits|
  {
    if hits != [] {
      var prefix := hits[..|hits| - 1];
      var last := hits[|hits| - 1];
      assert hits == prefix + [last];
      GroupedSpec(prefix, f);
      var gs := Grouped(prefix, f);
      if Get(last, f) != "" {
        StepValues(prefix, f, gs, last);
        StepDistinct(gs, Get(last, f), last.id);
        StepIds(prefix, f, gs, last);
        StepCovers(prefix, f, gs, last);
        StepTotal(prefix, f, gs, last);
      } else {
        forall w | w != ""
          ensures IdsWith(hits, f, w) == IdsWith(prefix, f, w)
        {
          IdsWithStep(prefix, last, f, w);
        }
      }
    }
  }

  lemma FindIn(gs: seq<Group>, v: string)
    ensures Find(gs, v) < |gs| <==> v in Values(gs)
  {
    var k := Find(gs, v);
    if k < |gs| {
      assert Values(gs)[k] == v;
    }
  }

  lemma IdsWithStep(prefix: seq<Faceted>, last: Faceted, f: FacetField, w: string)
    ensures IdsWith(prefix + [last], f, w) == IdsWith(prefix, f, w) + (if Get(last, f) == w then [last.id] else [])
  {
    var hits := prefix + [last];
    assert hits[..|hits| - 1] == prefix;
  }

  lemma StepValues(prefix: seq<Faceted>, f: FacetField, gs: seq<Group>, last: Faceted)
    requires Get(last, f) != ""
    requires Values(gs) == FirstAppearance(prefix, f)
    ensures Values(AddTo(gs, Get(last, f), last.id)) == FirstAppearance(prefix + [last], f)
  {
    var v := Get(last, f);
    var hits := prefix + [last];
    assert hits[..|hits| - 1] == prefix;
    FindIn(gs, v);
    var gs' := AddTo(gs, v, last.id);
    if Find(gs, v) < |gs| {
      assert Values(gs') == Values(gs);
    } else {
      assert Values(gs') == Values(gs) + [v];
    }
  }

  lemma StepDistinct(gs: seq<Group>, v: string, id: string)
    requires Distinct(gs)
    ensures Distinct(AddTo(gs, v, id))
  {
    var gs' := AddTo(gs, v, id);
    assert forall i :: 0 <= i < |gs| ==> gs'[i].value == gs[i].value;
  }

  lemma StepIds(prefix: seq<Faceted>, f: FacetField, gs: seq<Group>, last: Faceted)
    requires Get(last, f) != ""
    requires Distinct(gs) && IdsMatch(prefix, f, gs) && Covers(prefix, f, gs)
    ensures IdsMatch(prefix + [last], f, AddTo(gs, Get(last, f), last.id))
  {
    var v := Get(last, f);
    var hits := prefix + [last];
    var gs' := AddTo(gs, v, last.id);
    var k := Find(gs, v);
    FindIn(gs, v);
    forall i | 0 <= i < |gs'|
      ensures gs'[i].value != "" && gs'[i].ids == IdsWith(hits, f, gs'[i].value) != []
    {
      var w := gs'[i].value;
      IdsWithStep(prefix, last, f, w);
      if i == k {
        if k == |gs| {
          assert IdsWith(prefix, f, v) == [];
        } else {
          assert gs'[i].ids == IdsWith(prefix, f, v) + [last.id];
        }
      } else {
        assert gs'[i] == gs[i] && w != v;
      }
    }
  }

  lemma StepCovers(prefix: seq<Faceted>, f: FacetField, gs: seq<Group>, last: Faceted)
    requires Get(last, f) != ""
    requires Covers(prefix, f, gs)
    ensures Covers(prefix + [last], f, AddTo(gs, Get(last, f), last.id))
  {
    var v := Get(last, f);
    var hits := prefix + [last];
    var gs' := AddTo(gs, v, last.id);
    var k := Find(gs, v);
    assert k < |gs'| && gs'[k].value == v;
    assert forall i :: 0 <= i < |gs| ==> gs'[i].value == gs[i].value;
    forall w | w != "" && IdsWith(hits, f, w) != []
      ensures w in Values(gs')
    {
      IdsWithStep(prefix, last, f, w);
      if w == v {
        assert Values(gs')[k] == w;
      } else {
        assert w in Values(gs);
        var j :| 0 <= j < |Values(gs)| && Values(gs)[j] == w;
        assert Values(gs')[j] == w;
      }
    }
  }

  lemma StepTotal(prefix: seq<Faceted>, f: FacetField, gs: seq<Group>, last: Faceted)
    requires Get(last, f) != ""
    requires Total(gs) == CountWith(prefix, f)
    ensures Total(AddTo(gs, Get(last, f), last.id)) == CountWith(prefix + [last], f)
  {
    var v := Get(last, f);
    var hits := prefix + [last];
    assert hits[..|hits| - 1] == prefix;
    var k := Find(gs, v);
    if k < |gs| {
      TotalUpdate(gs, k, Group(v, gs[k].ids + [last.id]));
    } else {
      TotalAppend(gs, Group(v, [last.id]));
    }
  }

  // ---------------------------------------------------------------------
  // sorted(groups.items(), key=lambda x: -len(x[1]))
  // ---------------------------------------------------------------------

  /** Counts never increase along the list. */
  predicate Descending(gs: seq<Group>) {
    forall i, j :: 0 <= i < j < |gs| ==> |gs[i].ids| >= |gs[j].ids|
  }

  /** Places a group after every group at least as large. */
  function Insert(g: Group, s: seq<Group>): seq<Group> {
    if s == [] then [g]
    else if |s[0].ids| >= |g.ids| then [s[0]] + Insert(g, s[1..])
    else [g] + s
  }

  /** Python's stable sort by the key `-count`, as an insertion sort. */
  function SortByCount(gs: seq<Group>): seq<Group>
    decreases |gs|
  {
    if gs == [] then [] else Insert(gs[|gs| - 1], SortByCount(gs[..|gs| - 1]))
  }

  /** The groups of one size, in their order. */
  function WithCount(gs: seq<Group>, c: nat): seq<Group> {
    if gs == [] then []
    else (if |gs[0].ids| == c then [gs[0]] else []) + WithCount(gs[1..], c)
  }

  lemma {:induction false} WithCountConcat(a: seq<Group>, b: seq<Group>, c: nat)
    ensures WithCount(a + b, c) == WithCount(a, c) + WithCount(b, c)
  {
    if a != [] {
      assert (a + b)[1..] == a[1..] + b;
      WithCountConcat(a[1..], b, c);
    } else {
      assert a + b == b;
    }
  }

  lemma {:induction false} WithCountNone(s: seq<Group>, c: nat)
    requires forall i :: 0 <= i < |s| ==> |s[i].ids| < c
    ensures WithCount(s, c) == []
  {
    if s != [] {
      WithCountNone(s[1..], c);
    }
  }

  lemma {:induction false} InsertKeeps(g: Group, s: seq<Group>)
    ensures multiset(Insert(g, s)) == multiset(s) + multiset{g}
    ensures Total(Insert(g, s)) == Total(s) + |g.ids|
  {
    if s != [] && |s[0].ids| >= |g.ids| {
      InsertKeeps(g, s[1..]);
      assert s == [s[0]] + s[1..];
    }
  }

  /** Insertion keeps a bound on the counts. */
  lemma {:induction false} InsertBounded(g: Group, s: seq<Group>, b: nat)
    requires |g.ids| <= b && forall i :: 0 <= i < |s| ==> |s[i].ids| <= b
    ensures forall i :: 0 <= i < |Insert(g, s)| ==> |Insert(g, s)[i].ids| <= b
    decreases |s|
  {
    if s != [] && |s[0].ids| >= |g.ids| {
      var tail := s[1..];
      assert forall i :: 0 <= i < |tail| ==> tail[i] == s[i + 1];
      InsertBounded(g, tail, b);
      assert Insert(g, s) == [s[0]] + Insert(g, tail);
    }
  }

  /** A group that is not larger than the first one goes after it. */
  lemma InsertDescendingSkip(g: Group, s: seq<Group>)
    requires s != [] && |s[0].ids| >= |g.ids| && Descending(s) && Descending(Insert(g, s[1..]))
    ensures Descending(Insert(g, s))
  {
    var tail := s[1..];
    var rest := Insert(g, tail);
    forall i | 0 <= i < |tail|
      ensures |tail[i].ids| <= |s[0].ids|
    {
      assert tail[i] == s[i + 1];
    }
    InsertBounded(g, tail, |s[0].ids|);
    var r := Insert(g, s);
    assert r == [s[0]] + rest;
    forall i, j | 0 <= i < j < |r|
      ensures |r[i].ids| >= |r[j].ids|
    {
      if i == 0 {
        assert r[j] == rest[j - 1];
      } else {
        assert r[i] == rest[i - 1] && r[j] == rest[j - 1];
      }
    }
  }

  /** A group larger than the first one goes in front. */
  lemma InsertDescendingFront(g: Group, s: seq<Group>)
    requires s != [] && |s[0].ids| < |g.ids| && Descending(s)
    ensures Descending(Insert(g, s))
  {
    var r := Insert(g, s);
    assert r == [g] + s;
    forall i, j | 0 <= i < j < |r|
      ensures |r[i].ids| >= |r[j].ids|
    {
      if i == 0 {
        assert r[j] == s[j - 1];
        if j > 1 {
          assert |s[0].ids| >= |s[j - 1].ids|;
        }
      } else {
        assert r[i] == s[i - 1] && r[j] == s[j - 1];
      }
    }
  }

  lemma {:induction false} InsertDescending(g: Group, s: seq<Group>)
    requires Descending(s)
    ensures Descending(Insert(g, s))
    decreases |s|
  {
    if s == [] {
      assert Insert(g, s) == [g];
    } else if |s[0].ids| >= |g.ids| {
      DescendingTail(s);
      InsertDescending(g, s[1..]);
      InsertDescendingSkip(g, s);
    } else {
      InsertDescendingFront(g, s);
    }
  }

  lemma DescendingTail(s: seq<Group>)
    requires s != [] && Descending(s)
    ensures Descending(s[1..])
  {
    forall i, j | 0 <= i < j < |s| - 1
      ensures |s[1..][i].ids| >= |s[1..][j].ids|
    {
      assert s[1..][i] == s[i + 1] && s[1..][j] == s[j + 1];
    }
  }

  /** The groups of one count in a sequence that starts with `h`. */
  lemma WithCountCons(h: Group, t: seq<Group>, c: nat)
    ensures WithCount([h] + t, c) == (if |h.ids| == c then [h] else []) + WithCount(t, c)
  {
    assert ([h] + t)[0] == h && ([h] + t)[1..] == t;
  }

  /** A group larger than every group of a descending sequence goes in
      front, and no group of the sequence has its count. */
  lemma InsertWithCountFront(g: Group, s: seq<Group>, c: nat)
    requires Descending(s) && s != [] && |s[0].ids| < |g.ids|
    ensures WithCount(Insert(g, s), c) == WithCount(s, c) + (if |g.ids| == c then [g] else [])
  {
    assert Insert(g, s) == [g] + s;
    WithCountCons(g, s, c);
    if |g.ids| == c {
      forall i | 0 <= i < |s|
        ensures |s[i].ids| < c
      {
        if i > 0 {
          assert |s[0].ids| >= |s[i].ids|;
        }
      }
      WithCountNone(s, c);
      assert [g] + [] == [] + [g];
    } else {
      assert [] + WithCount(s, c) == WithCount(s, c) + [];
    }
  }

  /** Passing over the first group, which is at least as large. */
  lemma InsertWithCountSkip(g: Group, s: seq<Group>, c: nat)
    requires s != [] && |s[0].ids| >= |g.ids|
    requires WithCount(Insert(g, s[1..]), c) == WithCount(s[1..], c) + (if |g.ids| == c then [g] else [])
    ensures WithCount(Insert(g, s), c) == WithCount(s, c) + (if |g.ids| == c then [g] else [])
  {
    var mine := if |g.ids| == c then [g] else [];
    var head := if |s[0].ids| == c then [s[0]] else [];
    assert Insert(g, s) == [s[0]] + Insert(g, s[1..]);
    WithCountCons(s[0], Insert(g, s[1..]), c);
    WithCountCons(s[0], s[1..], c);
    assert [s[0]] + s[1..] == s;
    assert head + (WithCount(s[1..], c) + mine) == (head + WithCount(s[1..], c)) + mine;
  }

  lemma {:induction false} InsertWithCount(g: Group, s: seq<Group>, c: nat)
    requires Descending(s)
    ensures WithCount(Insert(g, s), c) == WithCount(s, c) + (if |g.ids| == c then [g] else [])
    decreases |s|
  {
    if s == [] {
      WithCountCons(g, [], c);
      assert Insert(g, s) == [g];
      assert (if |g.ids| == c then [g] else []) + [] == [] + (if |g.ids| == c then [g] else []);
    } else if |s[0].ids| >= |g.ids| {
      DescendingTail(s);
      InsertWithCount(g, s[1..], c);
      InsertWithCountSkip(g, s, c);
    } else {
      InsertWithCountFront(g, s, c);
    }
  }

  lemma {:induction false} SortDescending(gs: seq<Group>)
    ensures Descending(SortByCount(gs))
    decreases |gs|
  {
    if gs != [] {
      SortDescending(gs[..|gs| - 1]);
      InsertDescending(gs[|gs| - 1], SortByCount(gs[..|gs| - 1]));
    }
  }

  lemma {:induction false} SortPermutation(gs: seq<Group>)
    ensures multiset(SortByCount(gs)) == multiset(gs)
    ensures Total(SortByCount(gs)) == Total(gs)
    decreases |gs|
  {
    if gs != [] {
      var prefix, last := gs[..|gs| - 1], gs[|gs| - 1];
      SortPermutation(prefix);
      InsertKeeps(last, SortByCount(prefix));
      assert gs == prefix + [last];
      TotalAppend(prefix, last);
    }
  }

  lemma {:induction false} SortStable(gs: seq<Group>, c: nat)
    ensures WithCount(SortByCount(gs), c) == WithCount(gs, c)
    decreases |gs|
  {
    if gs != [] {
      var prefix, last := gs[..|gs| - 1], gs[|gs| - 1];
      SortStable(prefix, c);
      SortDescending(prefix);
      InsertWithCount(last, SortByCount(prefix), c);
      assert gs == prefix + [last];
      WithCountConcat(prefix, [last], c);
    }
  }

  /** The sort orders by count, descending; it is a permutation; and groups
      of equal count keep their relative order. */
  lemma SortByCountSpec(gs: seq<Group>)
    ensures Descending(SortByCount(gs))
    ensures multiset(SortByCount(gs)) == multiset(gs)
    ensures Total(SortByCount(gs)) == Total(gs)
    ensures forall c: nat :: WithCount(SortByCount(gs), c) == WithCount(gs, c)
  {
    SortDescending(gs);
    SortPermutation(gs);
    forall c: nat
      ensures WithCount(SortByCount(gs), c) == WithCount(gs, c)
    {
      SortStable(gs, c);
    }
  }

  /** A permutation of groups with distinct values has distinct values. */
  lemma DistinctPermutation(gs: seq<Group>, s: seq<Group>)
    requires Distinct(gs) && multiset(s) == multiset(gs)
    ensures Distinct(s)
  {
    forall i, j | 0 <= i < j < |s|
      ensures s[i].value != s[j].value
    {
      if s[i].value == s[j].value {
        assert s[i] in multiset(gs) && s[j] in multiset(gs);
        var a :| 0 <= a < |gs| && gs[a] == s[i];
        var b :| 0 <= b < |gs| && gs[b] == s[j];
        assert a == b;
        Twice(s, i, j);
        OnlyOnce(gs, a);
        assert false;
      }
    }
  }

  lemma Twice(s: seq<Group>, i: nat, j: nat)
    requires i < j < |s| && s[i] == s[j]
    ensures multiset(s)[s[i]] >= 2
  {
    assert s == s[..j] + [s[j]] + s[j + 1..];
    assert s[..j][i] == s[i];
    assert s[i] in multiset(s[..j]);
  }

  lemma OnlyOnce(gs: seq<Group>, a: nat)
    requires a < |gs| && Distinct(gs)
    ensures multiset(gs)[gs[a]] == 1
  {
    assert gs == gs[..a] + [gs[a]] + gs[a + 1..];
    assert forall k :: 0 <= k < a ==> gs[..a][k] != gs[a];
    assert gs[a] !in gs[..a];
    assert gs[a] !in gs[a + 1..];
  }

  // ---------------------------------------------------------------------
  // Facet lists
  // ---------------------------------------------------------------------

  /** `{"value": ..., "count": len(ids), "scene_ids": ids}` (or
      `content_ids`). */
  datatype FacetItem = FacetItem(value: string, count: nat, ids: seq<string>)

  function ItemsOf(gs: seq<Group>): (items: seq<FacetItem>)
    ensures |items| == |gs|
    ensures forall i :: 0 <= i < |gs| ==> items[i] == FacetItem(gs[i].value, |gs[i].ids|, gs[i].ids)
  {
    seq(|gs|, i requires 0 <= i < |gs| => FacetItem(gs[i].value, |gs[i].ids|, gs[i].ids))
  }

  /** The facet list of one field. */
  function FacetOf(hits: seq<Faceted>, f: FacetField): seq<FacetItem> {
    ItemsOf(SortByCount(Grouped(hits, f)))
  }

  /** What a facet list promises: one item per distinct non-empty value of
      the field; each item holds the ids of exactly the hits with its
      value, in hit order, and its count is their number; counts descend. */
  lemma FacetOfSpec(hits: seq<Faceted>, f: FacetField)
    ensures var items := FacetOf(hits, f);
      && (forall i, j :: 0 <= i < j < |items| ==> items[i].count >= items[j].count)
      && (forall i, j :: 0 <= i < j < |items| ==> items[i].value != items[j].value)
      && (forall i :: 0 <= i < |items| ==>
            && items[i].value != ""
            && items[i].ids == IdsWith(hits, f, items[i].value)
            && items[i].count == |items[i].ids| > 0)
      && (forall v :: v != "" && IdsWith(hits, f, v) != [] ==> exists i :: 0 <= i < |items| && items[i].value == v)
  {
    var gs := Grouped(hits, f);
    var sorted := SortByCount(gs);
    GroupedSpec(hits, f);
    SortByCountSpec(gs);
    DistinctPermutation(gs, sorted);
    SortedIds(hits, f, gs, sorted);
    SortedCovers(hits, f, gs, sorted);
  }

  lemma SortedIds(hits: seq<Faceted>, f: FacetField, gs: seq<Group>, sorted: seq<Group>)
    requires IdsMatch(hits, f, gs) && multiset(sorted) == multiset(gs)
    ensures IdsMatch(hits, f, sorted)
  {
    forall i | 0 <= i < |sorted|
      ensures sorted[i].value != "" && sorted[i].ids == IdsWith(hits, f, sorted[i].value) != []
    {
      assert sorted[i] in multiset(gs);
    }
  }

  lemma SortedCovers(hits: seq<Faceted>, f: FacetField, gs: seq<Group>, sorted: seq<Group>)
    requires Covers(hits, f, gs) && multiset(sorted) == multiset(gs)
    ensures forall v :: v != "" && IdsWith(hits, f, v) != [] ==> exists i :: 0 <= i < |sorted| && sorted[i].value == v
  {
    forall v | v != "" && IdsWith(hits, f, v) != []
      ensures exists i :: 0 <= i < |sorted| && sorted[i].value == v
    {
      var j :| 0 <= j < |Values(gs)| && Values(gs)[j] == v;
      assert gs[j] in multiset(sorted);
    }
  }

  /** Items of equal count appear in the order their values first appear
      among the hits, and the counts add up to the hits with a value. */
  lemma FacetOrderAndTotal(hits: seq<Faceted>, f: FacetField, c: nat)
    ensures var gs := Grouped(hits, f);
      && Values(gs) == FirstAppearance(hits, f)
      && WithCount(SortByCount(gs), c) == WithCount(gs, c)
      && Total(SortByCount(gs)) == CountWith(hits, f)
  {
    GroupedSpec(hits, f);
    SortByCountSpec(Grouped(hits, f));
  }

  /** The facets of a scene search: exactly the three keys. */
  datatype SceneFacets = SceneFacets(category: seq<FacetItem>, createdDate: seq<FacetItem>, author: seq<FacetItem>)

  /** The facets of a content search: `category` and `author`. */
  datatype ContentFacets = ContentFacets(category: seq<FacetItem>, author: seq<FacetItem>)

  function SceneFacetsOf(hits: seq<Faceted>): SceneFacets {
    SceneFacets(FacetOf(hits, Category), FacetOf(hits, CreatedDate), FacetOf(hits, Author))
  }

  function ContentFacetsOf(hits: seq<Faceted>): ContentFacets {
    ContentFacets(FacetOf(hits, Category), FacetOf(hits, Author))
  }

  /** No hits, no facet items. */
  lemma NoHitsNoFacets()
    ensures SceneFacetsOf([]) == SceneFacets([], [], [])
    ensures ContentFacetsOf([]) == ContentFacets([], [])
  {
  }

  /** `build_scene_facets`: one pass over the hits filling the three
      groupings, then each sorted by count. */
  method BuildSceneFacets(hits: seq<Faceted>) returns (facets: SceneFacets)
    ensures facets == SceneFacetsOf(hits)
  {
    var category, createdDate, author: seq<Group> := [], [], [];
    var i := 0;
    while i < |hits|
      invariant 0 <= i <= |hits|
      invariant category == Grouped(hits[..i], Category)
      invariant createdDate == Grouped(hits[..i], CreatedDate)
      invariant author == Grouped(hits[..i], Author)
    {
      var hit := hits[i];
      assert hits[..i + 1][..i] == hits[..i];
      var v := Get(hit, Category);
      if v != "" {
        category := AddTo(category, v, hit.id);
      }
      v := Get(hit, CreatedDate);
      if v != "" {
        createdDate := AddTo(createdDate, v, hit.id);
      }
      v := Get(hit, Author);
      if v != "" {
        author := AddTo(author, v, hit.id);
      }
      i := i + 1;
    }
    assert hits[..|hits|] == hits;
    facets := SceneFacets(
      ItemsOf(SortByCount(category)), ItemsOf(SortByCount(createdDate)), ItemsOf(SortByCount(author)));
  }

  /** `build_content_facets`: the same over `category` and `author`. */
  method BuildContentFacets(hits: seq<Faceted>) returns (facets: ContentFacets)
    ensures facets == ContentFacetsOf(hits)
  {
    var category, author: seq<Group> := [], [];
    var i := 0;
    while i < |hits|
      invariant 0 <= i <= |hits|
      invariant category == Grouped(hits[..i], Category)
      invariant author == Grouped(hits[..i], Author)
    {
      var hit := hits[i];
      assert hits[..i + 1][..i] == hits[..i];
      var v := Get(hit, Category);
      if v != "" {
        category := AddTo(category, v, hit.id);
      }
      v := Get(hit, Author);
      if v != "" {
        author := AddTo(author, v, hit.id);
      }
      i := i + 1;
    }
    assert hits[..|hits|] == hits;
    facets := ContentFacets(ItemsOf(SortByCount(category)), ItemsOf(SortByCount(author)));
  }

  // ---------------------------------------------------------------------
  // The search functions
  // ---------------------------------------------------------------------

  datatype SearchKind = Semantic | Fulltext | Hybrid

  /** What a search sends to the client, apart from the query vectors and
      the search parameters: the kind of search, `limit`, and `filter` when
      it was added. */
  datatype SearchCall = SearchCall(kind: SearchKind, limit: int, filter: Option<string>)

  /** `if filter_expr: kwargs["filter"] = filter_expr`. */
  function FilterArg(filterExpr: Option<string>): (r: Option<string>)
    ensures r.Some? <==> filterExpr.Some? && filterExpr.value != ""
    ensures r.Some? ==> r == filterExpr
  {
    if filterExpr.Some? && filterExpr.value != "" then filterExpr else None
  }

  datatype SceneSearch = SceneSearch(total: int, hits: seq<SceneHitDict>, facets: SceneFacets)

  datatype ContentSearch = ContentSearch(total: int, hits: seq<ContentHitDict>, facets: ContentFacets)

  /** The result a scene search shapes from the client's answer: one
      parsed hit per answer in order, and the facets counted over them. */
  function SceneSearchOf(found: seq<Found<SceneEntity>>): (r: SceneSearch)
    ensures r.total == |r.hits| == |found|
    ensures forall i :: 0 <= i < |found| ==> r.hits[i] == ParseSceneHit(found[i])
    ensures r.facets == SceneFacetsOf(FacetedScenes(r.hits))
  {
    var hits := seq(|found|, i requires 0 <= i < |found| => ParseSceneHit(found[i]));
    SceneSearch(|hits|, hits, SceneFacetsOf(FacetedScenes(hits)))
  }

  /** The result a content search shapes from the client's answer. */
  function ContentSearchOf(found: seq<Found<ContentEntity>>): (r: ContentSearch)
    ensures r.total == |r.hits| == |found|
    ensures forall i :: 0 <= i < |found| ==> r.hits[i] == ParseContentHit(found[i])
    ensures r.facets == ContentFacetsOf(FacetedContents(r.hits))
  {
    var hits := seq(|found|, i requires 0 <= i < |found| => ParseContentHit(found[i]));
    ContentSearch(|hits|, hits, ContentFacetsOf(FacetedContents(hits)))
  }

  /** `search_scene_semantic`, `search_scene_fulltext` and
      `search_scene_hybrid`: `found` is what the client answers. */
  method SearchScenes(kind: SearchKind, k: int, filterExpr: Option<string>, found: seq<Found<SceneEntity>>)
    returns (call: SearchCall, r: SceneSearch)
    ensures call.kind == kind && call.limit == k
    ensures call.filter.Some? <==> filterExpr.Some? && filterExpr.value != ""
    ensures call.filter.Some? ==> call.filter == filterExpr
    ensures r.total == |r.hits| == |found|
    ensures forall i :: 0 <= i < |found| ==> r.hits[i] == ParseSceneHit(found[i])
    ensures r.facets == SceneFacetsOf(FacetedScenes(r.hits))
    ensures r == SceneSearchOf(found)
  {
    call := SearchCall(kind, k, None);
    if filterExpr.Some? && filterExpr.value != "" {
      call := call.(filter := filterExpr);
    }
    var hits := seq(|found|, i requires 0 <= i < |found| => ParseSceneHit(found[i]));
    var facets := BuildSceneFacets(FacetedScenes(hits));
    r := SceneSearch(|hits|, hits, facets);
  }

  /** `search_scene_fulltext_with_filter` is the full-text search. */
  method SearchScenesFulltextWithFilter(k: int, filterExpr: Option<string>, found: seq<Found<SceneEntity>>)
    returns (call: SearchCall, r: SceneSearch)
    ensures call.kind == Fulltext && call.limit == k && call.filter == FilterArg(filterExpr)
    ensures r.total == |r.hits| == |found|
    ensures r == SceneSearchOf(found)
  {
    call, r := SearchScenes(Fulltext, k, filterExpr, found);
  }

  /** `search_content_semantic`, `search_content_fulltext` and
      `search_content_hybrid`. */
  method SearchContents(kind: SearchKind, k: int, filterExpr: Option<string>, found: seq<Found<ContentEntity>>)
    returns (call: SearchCall, r: ContentSearch)
    ensures call.kind == kind && call.limit == k
    ensures call.filter.Some? <==> filterExpr.Some? && filterExpr.value != ""
    ensures call.filter.Some? ==> call.filter == filterExpr
    ensures r.total == |r.hits| == |found|
    ensures forall i :: 0 <= i < |found| ==> r.hits[i] == ParseContentHit(found[i])
    ensures r.facets == ContentFacetsOf(FacetedContents(r.hits))
    ensures r == ContentSearchOf(found)
  {
    call := SearchCall(kind, k, None);
    if filterExpr.Some? && filterExpr.value != "" {
      call := call.(filter := filterExpr);
    }
    var hits := seq(|found|, i requires 0 <= i < |found| => ParseContentHit(found[i]));
    var facets := BuildContentFacets(FacetedContents(hits));
    r := ContentSearch(|hits|, hits, facets);
  }
}
