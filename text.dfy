/** String helpers with Python's semantics: str.strip, str.split on one
    character, str.join, str(n) for naturals, int() and float() on decimal
    text, and the colon-delimited time parser shared by the sync utilities
    and the ingest script. */
module Text {
  import opened Wrappers

  /** The Python exception classes the modelled code can raise. */
  datatype Raised = ValueError | IndexError | TypeError | AttributeError | KeyError(key: string)

  // ---------------------------------------------------------------------
  // str.strip()
  // ---------------------------------------------------------------------

  /** The characters for which str.isspace() holds, which are the ones
      str.strip() removes: ASCII tab to carriage return, the four ASCII
      separators, space, and the Unicode whitespace (NEL, no-break space,
      the Ogham space mark, the en quad to hair space range, the line and
      paragraph separators, the narrow no-break space, the medium
      mathematical space and the ideographic space). */
  predicate IsSpace(c: char) {
    OneOf(c, "\t\n\U{0B}\U{0C}\r\U{1C}\U{1D}\U{1E}\U{1F} \U{85}\U{A0}\U{1680}"
      + "\U{2000}\U{2001}\U{2002}\U{2003}\U{2004}\U{2005}\U{2006}\U{2007}\U{2008}\U{2009}\U{200A}"
      + "\U{2028}\U{2029}\U{202F}\U{205F}\U{3000}")
  }

  /** `c` is one of the characters of `cs`. */
  predicate OneOf(c: char, cs: string) {
    cs != [] && (c == cs[0] || OneOf(c, cs[1..]))
  }

  function TrimStart(s: string): (r: string)
    ensures |r| <= |s| && r == s[|s| - |r|..]
    ensures r != [] ==> !IsSpace(r[0])
    ensures forall i :: 0 <= i < |s| - |r| ==> IsSpace(s[i])
  {
    if s != [] && IsSpace(s[0]) then TrimStart(s[1..]) else s
  }

  function TrimEnd(s: string): (r: string)
    ensures |r| <= |s| && r == s[..|r|]
    ensures r != [] ==> !IsSpace(r[|r| - 1])
    ensures forall i :: |r| <= i < |s| ==> IsSpace(s[i])
  {
    if s != [] && IsSpace(s[|s| - 1]) then TrimEnd(s[..|s| - 1]) else s
  }

  function Strip(s: string): string {
    TrimEnd(TrimStart(s))
  }

  /** The stripped text is the slice of the input after its leading
      whitespace. */
  lemma StripSlice(s: string)
    ensures var i, r := |s| - |TrimStart(s)|, TrimEnd(TrimStart(s));
      i + |r| <= |s| && r == s[i..i + |r|]
  {
    var t := TrimStart(s);
    var r := TrimEnd(t);
    var i := |s| - |t|;
    calc {
      r;
      t[..|r|];
      s[i..][..|r|];
      s[i..i + |r|];
    }
  }

  /** What TrimEnd cuts from the text TrimStart leaves is whitespace of
      the input. */
  lemma StripTail(s: string)
    ensures var i, r := |s| - |TrimStart(s)|, TrimEnd(TrimStart(s));
      forall k :: i + |r| <= k < |s| ==> IsSpace(s[k])
  {
    var t := TrimStart(s);
    var r := TrimEnd(t);
    var i := |s| - |t|;
    forall k | i + |r| <= k < |s| ensures IsSpace(s[k]) {
      assert s[k] == t[k - i];
      assert |r| <= k - i < |t|;
    }
  }

  /** The stripped text neither starts nor ends with whitespace. */
  lemma StripEnds(s: string)
    ensures var r := TrimEnd(TrimStart(s));
      r != [] ==> !IsSpace(r[0]) && !IsSpace(r[|r| - 1])
  {
    var t := TrimStart(s);
    var r := TrimEnd(t);
    if r != [] {
      assert r[0] == t[0];
    }
  }

  /** str.strip() removes exactly the surrounding whitespace: the result is
      the piece of the input that starts after the leading whitespace, it
      neither starts nor ends with whitespace, and everything cut off on
      either side is whitespace. */
  lemma StripSpec(s: string)
    ensures var i, r := |s| - |TrimStart(s)|, Strip(s);
      && i + |r| <= |s| && r == s[i..i + |r|]
      && (forall k :: 0 <= k < i ==> IsSpace(s[k]))
      && (forall k :: i + |r| <= k < |s| ==> IsSpace(s[k]))
      && (r != [] ==> !IsSpace(r[0]) && !IsSpace(r[|r| - 1]))
  {
    StripSlice(s);
    StripTail(s);
    StripEnds(s);
  }

  lemma {:induction false} TrimStartNoLeadingSpace(s: string)
    requires s == [] || !IsSpace(s[0])
    ensures TrimStart(s) == s
  {
  }

  lemma StripIdempotent(s: string)
    ensures Strip(Strip(s)) == Strip(s)
  {
    var r := Strip(s);
    assert TrimStart(r) == r;
    if r != [] {
      assert !IsSpace(r[|r| - 1]);
    }
  }

  // ---------------------------------------------------------------------
  // str.split(sep) on a one-character separator, and str.join
  // ---------------------------------------------------------------------

  /** `s.split(sep)`: the pieces between separators, including empty ones. */
  function Split(s: string, sep: char): (parts: seq<string>)
    ensures |parts| >= 1
  {
    if s == [] then [[]]
    else
      var rest := Split(s[1..], sep);
      if s[0] == sep then [[]] + rest else [[s[0]] + rest[0]] + rest[1..]
  }

  /** `sep.join(parts)`. */
  function Join(sep: string, parts: seq<string>): string {
    if parts == [] then []
    else if |parts| == 1 then parts[0]
    else parts[0] + sep + Join(sep, parts[1..])
  }

  /** No piece of a split contains the separator. */
  lemma {:induction false} SplitPiecesLackSeparator(s: string, sep: char)
    ensures forall k :: 0 <= k < |Split(s, sep)| ==> sep !in Split(s, sep)[k]
  {
    if s != [] {
      SplitPiecesLackSeparator(s[1..], sep);
    }
  }

  /** Joining the pieces with the separator gives the string back. */
  lemma {:induction false} JoinSplit(s: string, sep: char)
    ensures Join([sep], Split(s, sep)) == s
  {
    if s != [] {
      var rest := Split(s[1..], sep);
      JoinSplit(s[1..], sep);
      if s[0] == sep {
        assert Split(s, sep) == [[]] + rest;
        assert Join([sep], [[]] + rest) == [] + [sep] + Join([sep], rest);
      } else {
        var parts := Split(s, sep);
        assert parts == [[s[0]] + rest[0]] + rest[1..];
        if |rest| == 1 {
          assert Join([sep], parts) == [s[0]] + rest[0];
        } else {
          assert Join([sep], rest) == rest[0] + [sep] + Join([sep], rest[1..]);
          assert parts[1..] == rest[1..];
        }
      }
    }
  }

  /** A string without the separator is a single piece. */
  lemma {:induction false} SplitWithoutSeparator(s: string, sep: char)
    requires sep !in s
    ensures Split(s, sep) == [s]
  {
    if s != [] {
      assert sep !in s[1..] by {
        assert forall c :: c in s[1..] ==> c in s;
      }
      SplitWithoutSeparator(s[1..], sep);
      assert s[0] != sep;
      assert [s[0]] + s[1..] == s;
    }
  }

  /** Splitting at a separator that sits between a and b splits a and b
      independently. */
  lemma {:induction false} SplitConcat(a: string, b: string, sep: char)
    ensures Split(a + [sep] + b, sep) == Split(a, sep) + Split(b, sep)
  {
    if a == [] {
      assert [sep] + b == a + [sep] + b;
      assert ([sep] + b)[1..] == b;
    } else {
      assert (a + [sep] + b)[0] == a[0];
      assert (a + [sep] + b)[1..] == a[1..] + [sep] + b;
      SplitConcat(a[1..], b, sep);
    }
  }

  // ---------------------------------------------------------------------
  // Decimal digits: str(n), int(text), float(text)
  // ---------------------------------------------------------------------

  predicate IsDigit(c: char) {
    '0' <= c <= '9'
  }

  predicate AllDigits(s: string) {
    forall i :: 0 <= i < |s| ==> IsDigit(s[i])
  }

  function DigitChar(d: nat): char
    requires d < 10
  {
    ['0', '1', '2', '3', '4', '5', '6', '7', '8', '9'][d]
  }

  function DigitValue(c: char): nat
    requires IsDigit(c)
  {
    (c as int - '0' as int) as nat
  }

  /** The value of a decimal digit string, most significant digit first. */
  function DigitsValue(s: string): nat
    requires AllDigits(s)
  {
    if s == [] then 0 else DigitsValue(s[..|s| - 1]) * 10 + DigitValue(s[|s| - 1])
  }

  /** `str(n)` for a natural number. */
  function NatToString(n: nat): (s: string)
    ensures |s| >= 1 && AllDigits(s)
  {
    if n < 10 then [DigitChar(n)] else NatToString(n / 10) + [DigitChar(n % 10)]
  }

  /** `int(str(n)) == n`. */
  lemma {:induction false} NatToStringRoundTrip(n: nat)
    ensures DigitsValue(NatToString(n)) == n
  {
    var s := NatToString(n);
    if n >= 10 {
      NatToStringRoundTrip(n / 10);
      assert s[..|s| - 1] == NatToString(n / 10);
    }
  }

  /** `str(n)` is injective, so distinct indices give distinct keys. */
  lemma NatToStringInjective(a: nat, b: nat)
    requires NatToString(a) == NatToString(b)
    ensures a == b
  {
    NatToStringRoundTrip(a);
    NatToStringRoundTrip(b);
  }

  function Pow10(n: nat): (p: nat)
    ensures p >= 1
  {
    if n == 0 then 1 else 10 * Pow10(n - 1)
  }

  /** Splits an optional leading sign off: (negative, rest). */
  function SignOf(s: string): (bool, string) {
    if s != [] && (s[0] == '-' || s[0] == '+') then (s[0] == '-', s[1..]) else (false, s)
  }

  /** `int(text)` on an optionally signed ASCII decimal numeral; any other
      text raises ValueError. */
  function ParseInt(s: string): Result<int, Raised> {
    var (negative, body) := SignOf(s);
    if body == [] || !AllDigits(body) then Err(ValueError)
    else if negative then Ok(-(DigitsValue(body) as int))
    else Ok(DigitsValue(body))
  }

  /** `float(text)` on an optionally signed decimal numeral with an optional
      fractional part ("5", "05.500", ".5", "5."); any other text raises
      ValueError. */
  function ParseFloat(s: string): Result<real, Raised> {
    var (negative, body) := SignOf(s);
    var pieces := Split(body, '.');
    if |pieces| > 2 then Err(ValueError)
    else
      var whole := pieces[0];
      var fraction := if |pieces| == 2 then pieces[1] else [];
      if !AllDigits(whole) || !AllDigits(fraction) || |whole| + |fraction| == 0 then Err(ValueError)
      else
        var magnitude := DigitsValue(whole) as real + DigitsValue(fraction) as real / Pow10(|fraction|) as real;
        Ok(if negative then -magnitude else magnitude)
  }

  // ---------------------------------------------------------------------
  // parse_time_to_sec
  // ---------------------------------------------------------------------

  /** `parse_time_to_sec`: split on ':', read hours and minutes with int() and
      seconds with float() from the first three pieces, ignore any further
      pieces. A missing piece raises IndexError, a bad number ValueError;
      Python evaluates `int(parts[0])` before indexing `parts[1]`, and so on. */
  function ParseTimeToSec(text: string): Result<real, Raised> {
    var parts := Split(text, ':');
    var h :- ParseInt(parts[0]);
    if |parts| < 2 then Err(IndexError)
    else
      var m :- ParseInt(parts[1]);
      if |parts| < 3 then Err(IndexError)
      else
        var s :- ParseFloat(parts[2]);
        Ok(h as real * 3600.0 + m as real * 60.0 + s)
  }

  lemma ParseIntOfNat(n: nat)
    ensures ParseInt(NatToString(n)) == Ok(n as int)
  {
    var t := NatToString(n);
    NatToStringRoundTrip(n);
    assert SignOf(t) == (false, t);
  }

  lemma ParseFloatOfNat(n: nat)
    ensures ParseFloat(NatToString(n)) == Ok(n as real)
  {
    var t := NatToString(n);
    NatToStringRoundTrip(n);
    assert SignOf(t) == (false, t);
    assert '.' !in t by {
      assert forall c :: c in t ==> IsDigit(c);
    }
    SplitWithoutSeparator(t, '.');
    var pieces := Split(t, '.');
    assert |pieces| == 1 && pieces[0] == t;
    assert DigitsValue([]) == 0 && Pow10(0) == 1;
    assert AllDigits([]);
  }

  lemma SplitThree(a: string, b: string, c: string, sep: char)
    requires sep !in a && sep !in b && sep !in c
    ensures Split(a + [sep] + b + [sep] + c, sep) == [a, b, c]
  {
    SplitWithoutSeparator(a, sep);
    SplitWithoutSeparator(b, sep);
    SplitWithoutSeparator(c, sep);
    SplitConcat(b, c, sep);
    SplitConcat(a, b + [sep] + c, sep);
    assert a + [sep] + b + [sep] + c == a + [sep] + (b + [sep] + c);
  }

  lemma DigitsLackColon(s: string)
    requires AllDigits(s)
    ensures ':' !in s
  {
  }

  /** When the first three pieces are well-formed numbers, the result is
      h*3600 + m*60 + s. */
  lemma ParseTimeOfPieces(hs: string, ms: string, ss: string, h: int, m: int, s: real)
    requires ':' !in hs && ':' !in ms && ':' !in ss
    requires ParseInt(hs) == Ok(h) && ParseInt(ms) == Ok(m) && ParseFloat(ss) == Ok(s)
    ensures ParseTimeToSec(hs + ":" + ms + ":" + ss) == Ok(h as real * 3600.0 + m as real * 60.0 + s)
  {
    SplitThree(hs, ms, ss, ':');
    assert hs + ":" + ms + ":" + ss == hs + [':'] + ms + [':'] + ss;
  }

  /** `f"{h}:{m}:{s}"` for whole numbers. */
  function ClockText(h: nat, m: nat, s: nat): string {
    NatToString(h) + ":" + NatToString(m) + ":" + NatToString(s)
  }

  /** Hours, minutes and whole seconds written with str() and joined with
      ':' parse back to h*3600 + m*60 + s. */
  lemma {:induction false} ParseTimeOfFields(h: nat, m: nat, s: nat)
    ensures ':' in ClockText(h, m, s)
    ensures ParseTimeToSec(ClockText(h, m, s)) == Ok(h as real * 3600.0 + m as real * 60.0 + s as real)
  {
    var hs, ms, ss := NatToString(h), NatToString(m), NatToString(s);
    assert ClockText(h, m, s)[|hs|] == ':';
    assert ':' !in hs && ':' !in ms && ':' !in ss by {
      DigitsLackColon(hs);
      DigitsLackColon(ms);
      DigitsLackColon(ss);
    }
    assert ParseInt(hs) == Ok(h) && ParseInt(ms) == Ok(m) && ParseFloat(ss) == Ok(s as real) by {
      ParseIntOfNat(h);
      ParseIntOfNat(m);
      ParseFloatOfNat(s);
    }
    ParseTimeOfPieces(hs, ms, ss, h, m, s as real);
  }

  /** The parse reads the first three pieces only. */
  lemma ParseTimeOfFirstPieces(t1: string, t2: string)
    requires |Split(t1, ':')| >= 3 && |Split(t2, ':')| >= 3
    requires Split(t1, ':')[..3] == Split(t2, ':')[..3]
    ensures ParseTimeToSec(t1) == ParseTimeToSec(t2)
  {
    var p, q := Split(t1, ':'), Split(t2, ':');
    assert p[0] == p[..3][0] == q[0];
    assert p[1] == p[..3][1] == q[1];
    assert p[2] == p[..3][2] == q[2];
  }

  /** Pieces beyond the third are ignored. */
  lemma ParseTimeIgnoresExtraPieces(text: string, extra: string)
    requires |Split(text, ':')| >= 3
    ensures ParseTimeToSec(text + ":" + extra) == ParseTimeToSec(text)
  {
    var longer := text + [':'] + extra;
    assert longer == text + ":" + extra;
    SplitConcat(text, extra, ':');
    var p := Split(text, ':');
    assert (p + Split(extra, ':'))[..3] == p[..3];
    ParseTimeOfFirstPieces(longer, text);
  }

  /** Text without at least two ':' never parses. */
  lemma ParseTimeNeedsThreePieces(text: string)
    requires |Split(text, ':')| < 3
    ensures ParseTimeToSec(text).Err?
  {
  }
}
