/** The pieces of Milvus boolean filter expressions that the routes and the
    sync code write: double-quoted string literals (escaped or not) and
    `field in [...]` lists. A reader for the same pieces states what the
    writers mean: it recovers the values that were written. */
module MilvusFilter {
  import opened Wrappers
  import opened Text

  // ---------------------------------------------------------------------
  // Escaping: value.replace("\\", "\\\\").replace('"', '\\"')
  // ---------------------------------------------------------------------

  /** `s.replace(c, r)` for a one-character pattern. */
  function ReplaceChar(s: string, c: char, r: string): (t: string)
    ensures c !in s ==> t == s
  {
    if s == [] then [] else (if s[0] == c then r else [s[0]]) + ReplaceChar(s[1..], c, r)
  }

  lemma {:induction false} ReplaceCharConcat(a: string, b: string, c: char, r: string)
    ensures ReplaceChar(a + b, c, r) == ReplaceChar(a, c, r) + ReplaceChar(b, c, r)
  {
    if a != [] {
      assert (a + b)[1..] == a[1..] + b;
      ReplaceCharConcat(a[1..], b, c, r);
    } else {
      assert a + b == b;
    }
  }

  /** Backslashes are doubled first, then every double quote gets a
      backslash in front. */
  function Escape(v: string): string {
    ReplaceChar(ReplaceChar(v, '\\', "\\\\"), '"', "\\\"")
  }

  /** What the two passes do to one character. */
  function EscapeChar(c: char): string {
    if c == '\\' then "\\\\" else if c == '"' then "\\\"" else [c]
  }

  /** The two passes act character by character: the second pass never
      touches a backslash the first one wrote. */
  lemma EscapeCons(c: char, v: string)
    ensures Escape([c] + v) == EscapeChar(c) + Escape(v)
  {
    var b := ReplaceChar(v, '\\', "\\\\");
    ReplaceCharConcat([c], v, '\\', "\\\\");
    var head := ReplaceChar([c], '\\', "\\\\");
    ReplaceCharConcat(head, b, '"', "\\\"");
    if c == '\\' {
      assert head == "\\\\";
      assert ReplaceChar(head, '"', "\\\"") == "\\\\";
    } else if c == '"' {
      assert head == "\"";
    } else {
      assert head == [c];
    }
  }

  /** Escaping works piece by piece. */
  lemma EscapeConcat(a: string, b: string)
    ensures Escape(a + b) == Escape(a) + Escape(b)
  {
    ReplaceCharConcat(a, b, '\\', "\\\\");
    ReplaceCharConcat(ReplaceChar(a, '\\', "\\\\"), ReplaceChar(b, '\\', "\\\\"), '"', "\\\"");
  }

  /** A value without backslashes or double quotes is written as it is. */
  lemma EscapeClean(v: string)
    requires '\\' !in v && '"' !in v
    ensures Escape(v) == v
  {
  }

  // ---------------------------------------------------------------------
  // Reading a double-quoted literal back
  // ---------------------------------------------------------------------

  /** Reads the inside of a literal up to its closing quote; a backslash
      makes the next character literal. Gives the value and what follows. */
  function ReadBody(s: string): Option<(string, string)>
    decreases |s|
  {
    if s == [] then None
    else if s[0] == '"' then Some(([], s[1..]))
    else if s[0] == '\\' then
      if |s| < 2 then None
      else match ReadBody(s[2..])
        case None => None
        case Some(p) => Some(([s[1]] + p.0, p.1))
    else match ReadBody(s[1..])
      case None => None
      case Some(p) => Some(([s[0]] + p.0, p.1))
  }

  function ReadLiteral(s: string): Option<(string, string)> {
    if s != [] && s[0] == '"' then ReadBody(s[1..]) else None
  }

  /** `f'"{escaped}"'`. */
  function Quote(v: string): string {
    "\"" + Escape(v) + "\""
  }

  /** The escaped text, character by character. */
  function EscapeEach(v: string): string {
    if v == [] then [] else EscapeChar(v[0]) + EscapeEach(v[1..])
  }

  lemma {:induction false} EscapeIsEach(v: string)
    ensures Escape(v) == EscapeEach(v)
  {
    if v != [] {
      EscapeIsEach(v[1..]);
      assert [v[0]] + v[1..] == v;
      EscapeCons(v[0], v[1..]);
    }
  }

  lemma {:induction false} ReadBodyEscape(v: string, rest: string)
    ensures ReadBody(Escape(v) + "\"" + rest) == Some((v, rest))
  {
    var tail := "\"" + rest;
    EscapeIsEach(v);
    ReadBodyEach(v, tail);
    assert tail[1..] == rest;
    assert Escape(v) + "\"" + rest == EscapeEach(v) + tail;
  }

  lemma {:induction false} ReadBodyEach(v: string, tail: string)
    requires tail != [] && tail[0] == '"'
    ensures ReadBody(EscapeEach(v) + tail) == Some((v, tail[1..]))
  {
    if v == [] {
      assert EscapeEach(v) + tail == tail;
    } else {
      ReadBodyEach(v[1..], tail);
      assert EscapeEach(v) + tail == EscapeChar(v[0]) + (EscapeEach(v[1..]) + tail);
      ReadBodyStep(v[0], EscapeEach(v[1..]) + tail);
      assert [v[0]] + v[1..] == v;
    }
  }

  /** One escaped character in front of a literal body is read back as
      that character. */
  lemma ReadBodyStep(c: char, tail: string)
    ensures ReadBody(EscapeChar(c) + tail) ==
      match ReadBody(tail) case None => None case Some(p) => Some(([c] + p.0, p.1))
  {
    var s := EscapeChar(c) + tail;
    if c == '\\' || c == '"' {
      assert s == ['\\', c] + tail;
      assert s[2..] == tail;
    } else {
      assert s == [c] + tail;
      assert s[1..] == tail;
    }
  }

  /** Reading a quoted literal gives back the value that was escaped and
      quoted, and leaves what follows it. */
  lemma ReadQuote(v: string, rest: string)
    ensures ReadLiteral(Quote(v) + rest) == Some((v, rest))
  {
    var s := Quote(v) + rest;
    assert s[1..] == Escape(v) + "\"" + rest;
    ReadBodyEscape(v, rest);
  }

  // ---------------------------------------------------------------------
  // Lists of literals: `field in ["a", "b"]`
  // ---------------------------------------------------------------------

  function QuoteAll(vs: seq<string>): (qs: seq<string>)
    ensures |qs| == |vs|
  {
    if vs == [] then [] else [Quote(vs[0])] + QuoteAll(vs[1..])
  }

  /** `", ".join(f'"{escaped}"' for v in values)`. */
  function QuotedList(vs: seq<string>): string {
    Join(", ", QuoteAll(vs))
  }

  /** `f"{field} in [{quoted}]"`. */
  function InList(field: string, vs: seq<string>): string {
    field + " in [" + QuotedList(vs) + "]"
  }

  /** Reads `"a", "b"]` (at least one literal, then the closing bracket). */
  function ReadItems(s: string): Option<(seq<string>, string)>
    decreases |s|
  {
    match ReadLiteral(s)
    case None => None
    case Some(p) =>
      var (v, rest) := p;
      if |rest| < |s| && |rest| >= 2 && rest[..2] == ", " then
        match ReadItems(rest[2..])
        case None => None
        case Some(q) => Some(([v] + q.0, q.1))
      else if rest != [] && rest[0] == ']' then Some(([v], rest[1..]))
      else None
  }

  /** Reads the inside of a list after its opening bracket. */
  function ReadList(s: string): Option<(seq<string>, string)> {
    if s != [] && s[0] == ']' then Some(([], s[1..])) else ReadItems(s)
  }

  /** How the list reader proceeds past one written literal. */
  lemma ReadItemsStep(v: string, after: string)
    ensures ReadItems(Quote(v) + after) ==
      if |after| >= 2 && after[..2] == ", " then
        match ReadItems(after[2..])
        case None => None
        case Some(q) => Some(([v] + q.0, q.1))
      else if after != [] && after[0] == ']' then Some(([v], after[1..]))
      else None
  {
    ReadQuote(v, after);
  }

  lemma ReadItemsOne(v: string, rest: string)
    ensures ReadItems(QuotedList([v]) + "]" + rest) == Some(([v], rest))
  {
    assert QuoteAll([v]) == [Quote(v)];
    assert QuotedList([v]) == Quote(v);
    var after := "]" + rest;
    assert QuotedList([v]) + "]" + rest == Quote(v) + after;
    ReadItemsStep(v, after);
    assert after[0] == ']' && after[1..] == rest;
  }

  lemma ReadItemsMore(vs: seq<string>, rest: string)
    requires |vs| >= 2
    requires ReadItems(QuotedList(vs[1..]) + "]" + rest) == Some((vs[1..], rest))
    ensures ReadItems(QuotedList(vs) + "]" + rest) == Some((vs, rest))
  {
    var after := ", " + (QuotedList(vs[1..]) + "]" + rest);
    QuotedListCons(vs, rest);
    ReadItemsStep(vs[0], after);
    CommaSlices(QuotedList(vs[1..]) + "]" + rest);
    assert [vs[0]] + vs[1..] == vs;
  }

  /** A list of two or more literals is the first, a comma, and the rest. */
  lemma QuotedListCons(vs: seq<string>, rest: string)
    requires |vs| >= 2
    ensures QuotedList(vs) + "]" + rest == Quote(vs[0]) + (", " + (QuotedList(vs[1..]) + "]" + rest))
  {
    var qs := QuoteAll(vs);
    assert qs[1..] == QuoteAll(vs[1..]);
    assert QuotedList(vs) == Quote(vs[0]) + ", " + QuotedList(vs[1..]);
  }

  lemma CommaSlices(x: string)
    ensures (", " + x)[..2] == ", " && (", " + x)[2..] == x
  {
  }

  lemma {:induction false} ReadItemsQuoted(vs: seq<string>, rest: string)
    requires vs != []
    ensures ReadItems(QuotedList(vs) + "]" + rest) == Some((vs, rest))
  {
    if |vs| == 1 {
      ReadItemsOne(vs[0], rest);
      assert [vs[0]] == vs;
    } else {
      ReadItemsQuoted(vs[1..], rest);
      ReadItemsMore(vs, rest);
    }
  }

  /** The list written by `InList` reads back as the values, in order. */
  lemma ReadInList(field: string, vs: seq<string>, rest: string)
    ensures var prefix := field + " in [";
      var s := InList(field, vs) + rest;
      && s[..|prefix|] == prefix
      && ReadList(s[|prefix|..]) == Some((vs, rest))
  {
    var prefix := field + " in [";
    var s := InList(field, vs) + rest;
    assert s == prefix + (QuotedList(vs) + "]" + rest);
    assert s[|prefix|..] == QuotedList(vs) + "]" + rest;
    if vs == [] {
      assert QuotedList(vs) == [];
    } else {
      var q := Quote(vs[0]);
      assert QuotedList(vs) == q || QuotedList(vs) == q + ", " + QuotedList(vs[1..]);
      assert QuotedList(vs)[0] == '"';
      ReadItemsQuoted(vs, rest);
    }
  }

  // ---------------------------------------------------------------------
  // The id list without escaping
  // ---------------------------------------------------------------------

  function RawQuoteAll(ids: seq<string>): (qs: seq<string>)
    ensures |qs| == |ids|
  {
    if ids == [] then [] else ["\"" + ids[0] + "\""] + RawQuoteAll(ids[1..])
  }

  /** `f"{field} in [{', '.join(f'\"{i}\"' for i in ids)}]"`: the ids are
      quoted but not escaped. */
  function IdListFilter(field: string, ids: seq<string>): string {
    field + " in [" + Join(", ", RawQuoteAll(ids)) + "]"
  }

  predicate Clean(v: string) {
    '\\' !in v && '"' !in v
  }

  /** For ids without backslashes or double quotes the unescaped list is
      the escaped one, so it reads back as the ids in order. */
  lemma {:induction false} IdListFilterClean(field: string, ids: seq<string>)
    requires forall i :: 0 <= i < |ids| ==> Clean(ids[i])
    ensures IdListFilter(field, ids) == InList(field, ids)
  {
    assert RawQuoteAll(ids) == QuoteAll(ids) by {
      RawQuoteAllClean(ids);
    }
  }

  lemma {:induction false} RawQuoteAllClean(ids: seq<string>)
    requires forall i :: 0 <= i < |ids| ==> Clean(ids[i])
    ensures RawQuoteAll(ids) == QuoteAll(ids)
  {
    if ids != [] {
      EscapeClean(ids[0]);
      RawQuoteAllClean(ids[1..]);
    }
  }

  // ---------------------------------------------------------------------
  // What an id-list filter selects
  // ---------------------------------------------------------------------

  /** The values a `field in [...]` expression lists, read with the literal
      syntax above, or None when the text is not such an expression. */
  function InListValues(field: string, expr: string): Option<seq<string>> {
    var prefix := field + " in [";
    if |expr| < |prefix| || expr[..|prefix|] != prefix then None
    else match ReadList(expr[|prefix|..])
      case Some((vs, rest)) => if rest == [] then Some(vs) else None
      case None => None
  }

  /** The `field` values whose rows an expression selects: the listed ones;
      none when the expression does not read as a list. */
  function Selected(field: string, expr: string): (r: set<string>)
    ensures InListValues(field, expr).Some? ==>
      forall v :: v in r <==> v in InListValues(field, expr).value
    ensures InListValues(field, expr).None? ==> r == {}
  {
    match InListValues(field, expr)
    case Some(vs) => set v | v in vs
    case None => {}
  }

  /** An escaped list selects exactly its values. */
  lemma InListSelects(field: string, vs: seq<string>)
    ensures InListValues(field, InList(field, vs)) == Some(vs)
    ensures forall v :: v in Selected(field, InList(field, vs)) <==> v in vs
  {
    ReadInList(field, vs, []);
    assert InList(field, vs) + [] == InList(field, vs);
  }

  /** Without escaping, a list of ids free of backslashes and double quotes
      still selects exactly those ids. */
  lemma IdListSelectsClean(field: string, ids: seq<string>)
    requires forall i :: 0 <= i < |ids| ==> Clean(ids[i])
    ensures forall v :: v in Selected(field, IdListFilter(field, ids)) <==> v in ids
  {
    IdListFilterClean(field, ids);
    InListSelects(field, ids);
  }

  /** Without escaping, one id that holds `", "` selects two other ids:
      `x", "y` gives `scene_id in ["x", "y"]`. */
  lemma IdListWidens()
    ensures var id := "x\", \"y";
      IdListFilter("scene_id", [id]) == "scene_id in [\"x\", \"y\"]"
      && Selected("scene_id", IdListFilter("scene_id", [id])) == {"x", "y"}
  {
    WidenedFilter();
    InListSelects("scene_id", ["x", "y"]);
  }

  lemma WidenedFilter()
    ensures IdListFilter("scene_id", ["x\", \"y"]) == "scene_id in [\"x\", \"y\"]"
    ensures IdListFilter("scene_id", ["x\", \"y"]) == InList("scene_id", ["x", "y"])
  {
    var id := "x\", \"y";
    var a := "\"" + id + "\"";
    assert RawQuoteAll([id]) == [a];
    assert Join(", ", [a]) == a;
    assert QuotedList(["x", "y"]) == a by {
      WidenedQuotes();
    }
  }

  lemma WidenedQuotes()
    ensures QuotedList(["x", "y"]) == "\"x\", \"y\""
  {
    var qx, qy := "\"x\"", "\"y\"";
    assert Quote("x") == qx by { EscapeClean("x"); }
    assert Quote("y") == qy by { EscapeClean("y"); }
    var qs := QuoteAll(["x", "y"]);
    assert qs == [qx, qy] by {
      assert ["x", "y"][1..] == ["y"];
    }
    assert Join(", ", qs) == qx + ", " + qy by {
      assert qs[1..] == [qy];
    }
  }
}
