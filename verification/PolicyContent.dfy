/**
 * Comparing policy documents: the spec's content compacted, against the stored one as it is marshalled.
 * Whitespace is insignificant outside string literals (section 2 of RFC 8259).
 */
module PolicyContent {

  predicate IsWhitespace(c: char) {
    c == ' ' || c == '\t' || c == '\n' || c == '\r'
  }

  /** Where a scan of the text stands: outside strings, inside one, or after a backslash inside one. */
  datatype Place = Outside | InString | Escaped

  function Next(p: Place, c: char): Place {
    match p
    case Outside => if c == '"' then InString else Outside
    case InString => if c == '\\' then Escaped else if c == '"' then Outside else InString
    case Escaped => InString
  }

  function PlaceAfter(p: Place, s: string): Place
    decreases |s|
  {
    if s == [] then p else PlaceAfter(Next(p, s[0]), s[1..])
  }

  function CompactFrom(p: Place, s: string): string
    decreases |s|
  {
    if s == [] then []
    else if p == Outside && IsWhitespace(s[0]) then CompactFrom(p, s[1..])
    else [s[0]] + CompactFrom(Next(p, s[0]), s[1..])
  }

  /** json.Compact on a valid document. */
  function Compact(s: string): string {
    CompactFrom(Outside, s)
  }

  // ---------- the reference: insignificant whitespace, one character at a time ----------

  /** `b` is `a` with one more whitespace character, outside every string literal. */
  ghost predicate Inserted(a: string, b: string) {
    exists i, c ::
      0 <= i <= |a| && IsWhitespace(c) && PlaceAfter(Outside, a[..i]) == Outside && b == a[..i] + [c] + a[i..]
  }

  /** One such insertion, made or taken back. */
  ghost predicate Step(a: string, b: string) {
    Inserted(a, b) || Inserted(b, a)
  }

  ghost predicate Related(a: string, b: string, n: nat)
    decreases n
  {
    if n == 0 then a == b else exists m :: Step(a, m) && Related(m, b, n - 1)
  }

  /** The texts differ by insertions and removals of insignificant whitespace. */
  ghost predicate SameUpToWhitespace(a: string, b: string) {
    exists n: nat :: Related(a, b, n)
  }

  lemma {:induction false} PlaceAfterAppend(p: Place, a: string, b: string)
    ensures PlaceAfter(p, a + b) == PlaceAfter(PlaceAfter(p, a), b)
    decreases |a|
  {
    if a == [] {
      assert a + b == b;
    } else {
      assert (a + b)[1..] == a[1..] + b;
      PlaceAfterAppend(Next(p, a[0]), a[1..], b);
    }
  }

  lemma {:induction false} CompactAppend(p: Place, a: string, b: string)
    ensures CompactFrom(p, a + b) == CompactFrom(p, a) + CompactFrom(PlaceAfter(p, a), b)
    decreases |a|
  {
    if a == [] {
      assert a + b == b;
    } else {
      assert (a + b)[1..] == a[1..] + b;
      CompactAppend(Next(p, a[0]), a[1..], b);
      assert p == Outside && IsWhitespace(a[0]) ==> Next(p, a[0]) == p;
    }
  }

  lemma InsertionKeepsCompact(a: string, b: string)
    requires Inserted(a, b)
    ensures Compact(a) == Compact(b)
  {
    var i, c :| 0 <= i <= |a| && IsWhitespace(c) && PlaceAfter(Outside, a[..i]) == Outside
      && b == a[..i] + [c] + a[i..];
    assert a == a[..i] + a[i..];
    CompactAppend(Outside, a[..i], a[i..]);
    CompactAppend(Outside, a[..i], [c] + a[i..]);
    assert b == a[..i] + ([c] + a[i..]);
    assert ([c] + a[i..])[1..] == a[i..];
  }

  lemma {:induction false} RelatedKeepsCompact(a: string, b: string, n: nat)
    requires Related(a, b, n)
    ensures Compact(a) == Compact(b)
    decreases n
  {
    if n > 0 {
      var m :| Step(a, m) && Related(m, b, n - 1);
      if Inserted(a, m) { InsertionKeepsCompact(a, m); } else { InsertionKeepsCompact(m, a); }
      RelatedKeepsCompact(m, b, n - 1);
    }
  }

  lemma {:induction false} RelatedThen(a: string, b: string, c: string, n: nat, k: nat)
    requires Related(a, b, n) && Related(b, c, k)
    ensures Related(a, c, n + k)
    decreases n
  {
    if n > 0 {
      var m :| Step(a, m) && Related(m, b, n - 1);
      RelatedThen(m, b, c, n - 1, k);
      OneStepThen(a, m, c, n - 1 + k);
    }
  }

  lemma OneStepThen(a: string, m: string, c: string, n: nat)
    requires Step(a, m) && Related(m, c, n)
    ensures Related(a, c, n + 1)
  {
  }

  lemma RelatedOnce(a: string, m: string)
    requires Step(a, m)
    ensures Related(a, m, 1)
  {
    assert Related(m, m, 0);
  }

  lemma {:induction false} RelatedBack(a: string, b: string, n: nat)
    requires Related(a, b, n)
    ensures Related(b, a, n)
    decreases n
  {
    if n > 0 {
      var m :| Step(a, m) && Related(m, b, n - 1);
      RelatedBack(m, b, n - 1);
      RelatedOnce(m, a);
      RelatedThen(b, m, a, n - 1, 1);
    }
  }

  /** Any text, behind a prefix left alone, is reduced to its compact form by removing insignificant whitespace. */
  lemma {:induction false} ReducesToCompact(prefix: string, s: string) returns (n: nat)
    ensures Related(prefix + s, prefix + CompactFrom(PlaceAfter(Outside, prefix), s), n)
    decreases |s|
  {
    var p := PlaceAfter(Outside, prefix);
    if s == [] {
      n := 0;
    } else if p == Outside && IsWhitespace(s[0]) {
      var m := ReducesToCompact(prefix, s[1..]);
      n := m + 1;
      var shorter := prefix + s[1..];
      assert prefix + s == prefix + [s[0]] + s[1..];
      assert shorter[..|prefix|] == prefix && shorter[|prefix|..] == s[1..];
      assert Inserted(shorter, prefix + s);
      OneStepThen(prefix + s, shorter, prefix + CompactFrom(p, s), m);
    } else {
      n := ReducesToCompact(prefix + [s[0]], s[1..]);
      PlaceAfterAppend(Outside, prefix, [s[0]]);
      assert PlaceAfter(p, [s[0]]) == Next(p, s[0]);
      assert prefix + [s[0]] + s[1..] == prefix + s;
      assert prefix + [s[0]] + CompactFrom(Next(p, s[0]), s[1..]) == prefix + CompactFrom(p, s);
    }
  }

  /** Compact forms are equal exactly when the texts agree up to insignificant whitespace. */
  lemma CompactExactly(a: string, b: string)
    ensures Compact(a) == Compact(b) <==> SameUpToWhitespace(a, b)
  {
    if SameUpToWhitespace(a, b) {
      var n: nat :| Related(a, b, n);
      RelatedKeepsCompact(a, b, n);
    }
    if Compact(a) == Compact(b) {
      var n := ReducesToCompact([], a);
      var k := ReducesToCompact([], b);
      assert [] + a == a && [] + b == b && [] + Compact(a) == Compact(a);
      RelatedBack(b, Compact(b), k);
      RelatedThen(a, Compact(a), b, n, k);
    }
  }

  // ---------- marshalling ----------

  /** The characters json.Marshal writes as an escape. */
  predicate IsEscaped(c: char) {
    c == '<' || c == '>' || c == '&' || c == '\U{2028}' || c == '\U{2029}'
  }

  function EscapeOf(c: char): (r: string)
    requires IsEscaped(c)
    ensures |r| == 6
  {
    if c == '<' then "\\u003c"
    else if c == '>' then "\\u003e"
    else if c == '&' then "\\u0026"
    else if c == '\U{2028}' then "\\u2028"
    else "\\u2029"
  }

  function Escape(s: string): string {
    if s == [] then []
    else (if IsEscaped(s[0]) then EscapeOf(s[0]) else [s[0]]) + Escape(s[1..])
  }

  predicate Unescaped(s: string) {
    forall i :: 0 <= i < |s| ==> !IsEscaped(s[i])
  }

  lemma {:induction false} EscapeLength(s: string)
    ensures |Escape(s)| >= |s|
    ensures |Escape(s)| == |s| <==> Unescaped(s)
    ensures Unescaped(s) ==> Escape(s) == s
  {
    if s != [] {
      EscapeLength(s[1..]);
      assert s == [s[0]] + s[1..];
      assert Unescaped(s) <==> !IsEscaped(s[0]) && Unescaped(s[1..]);
    }
  }

  /** Compacting drops no character that would be escaped. */
  lemma {:induction false} CompactKeepsPlain(p: Place, s: string)
    ensures Unescaped(CompactFrom(p, s)) <==> Unescaped(s)
    decreases |s|
  {
    if s != [] {
      assert s == [s[0]] + s[1..];
      assert Unescaped(s) <==> !IsEscaped(s[0]) && Unescaped(s[1..]);
      var q := if p == Outside && IsWhitespace(s[0]) then p else Next(p, s[0]);
      CompactKeepsPlain(q, s[1..]);
      var rest := CompactFrom(q, s[1..]);
      assert Unescaped([s[0]] + rest) <==> !IsEscaped(s[0]) && Unescaped(rest) by {
        assert ([s[0]] + rest)[1..] == rest;
        assert forall i :: 0 <= i < |rest| ==> ([s[0]] + rest)[i + 1] == rest[i];
      }
    }
  }

  // ---------- the comparison ----------

  /** isPolicyMatchingWithCustomResource, on valid documents. */
  predicate Matching(content: string, stored: string) {
    Compact(content) == Escape(Compact(stored))
  }

  /** For a stored document free of escaped characters the comparison is equality up to insignificant whitespace. */
  lemma MatchingExactly(content: string, stored: string)
    requires Unescaped(stored)
    ensures Matching(content, stored) <==> SameUpToWhitespace(content, stored)
  {
    CompactKeepsPlain(Outside, stored);
    EscapeLength(Compact(stored));
    CompactExactly(content, stored);
  }

  /** A document equal up to whitespace to what is stored matches it exactly when it is free of escaped characters. */
  lemma SameMatchesExactly(content: string, stored: string)
    requires SameUpToWhitespace(content, stored)
    ensures Matching(content, stored) <==> Unescaped(content)
  {
    CompactExactly(content, stored);
    CompactKeepsPlain(Outside, content);
    EscapeLength(Compact(content));
  }

  /** A stored document that matches is equal up to whitespace exactly when it is free of escaped characters. */
  lemma MatchingSameExactly(content: string, stored: string)
    requires Matching(content, stored)
    ensures SameUpToWhitespace(content, stored) <==> Unescaped(stored)
  {
    CompactExactly(content, stored);
    CompactKeepsPlain(Outside, stored);
    EscapeLength(Compact(stored));
  }

  // ---------- what the characters mean ----------

  /** The whitespace of section 2 of RFC 8259: space, tab, line feed and carriage return. */
  lemma WhitespaceExactly(c: char)
    ensures IsWhitespace(c) <==> c as int == 0x20 || c as int == 0x09 || c as int == 0x0A || c as int == 0x0D
  {
  }

  /** The characters of a string literal between its quotes: none is a quote, but after a backslash any may be. */
  predicate LiteralBody(s: string) {
    s == [] || (s[0] == '\\' && |s| > 1 && LiteralBody(s[2..])) || (s[0] != '\\' && s[0] != '"' && LiteralBody(s[1..]))
  }

  lemma {:induction false} BodyStays(s: string)
    requires LiteralBody(s)
    ensures PlaceAfter(InString, s) == InString && CompactFrom(InString, s) == s
    decreases |s|
  {
    if s != [] {
      if s[0] == '\\' {
        BodyStays(s[2..]);
        assert s == [s[0], s[1]] + s[2..];
        assert s[1..][1..] == s[2..];
      } else {
        BodyStays(s[1..]);
      }
    }
  }

  /** A string literal outside any other is kept, character by character, and what follows is outside again. */
  lemma LiteralIsKept(body: string)
    requires LiteralBody(body)
    ensures Compact("\"" + body + "\"") == "\"" + body + "\""
    ensures PlaceAfter(Outside, "\"" + body + "\"") == Outside
  {
    var s := "\"" + body + "\"";
    BodyStays(body);
    assert s[1..] == body + "\"";
    CompactAppend(InString, body, "\"");
    PlaceAfterAppend(InString, body, "\"");
  }

  function WithoutWhitespace(s: string): string {
    if s == [] then []
    else (if IsWhitespace(s[0]) then [] else [s[0]]) + WithoutWhitespace(s[1..])
  }

  /** A text without quotes loses its whitespace and nothing else. */
  lemma {:induction false} QuoteFreeExactly(s: string)
    requires '"' !in s
    ensures Compact(s) == WithoutWhitespace(s) && PlaceAfter(Outside, s) == Outside
  {
    if s != [] {
      QuoteFreeExactly(s[1..]);
    }
  }

  /** What json.Marshal makes of the five characters it escapes, and of any other. */
  lemma EscapesExactly(c: char)
    ensures Escape("<") == "\\u003c" && Escape(">") == "\\u003e" && Escape("&") == "\\u0026"
    ensures Escape(['\U{2028}']) == "\\u2028" && Escape(['\U{2029}']) == "\\u2029"
    ensures c !in ['<', '>', '&', '\U{2028}', '\U{2029}'] ==> Escape([c]) == [c]
  {
    assert Escape([]) == [];
  }

  /** Characters are escaped one by one. */
  lemma {:induction false} EscapeAppend(a: string, b: string)
    ensures Escape(a + b) == Escape(a) + Escape(b)
  {
    if a == [] {
      assert a + b == b;
    } else {
      assert (a + b)[1..] == a[1..] + b;
      EscapeAppend(a[1..], b);
    }
  }
}
