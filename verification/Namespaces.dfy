/**
 * Which namespaces an S3Instance admits, and how its wildcard patterns relate to glob matching,
 * where a star stands for any string.
 */
module Namespaces {
  import opened Text

  predicate MatchesPattern(pattern: string, namespace: string) {
    if HasPrefix(pattern, "*") && HasSuffix(pattern, "*")
       && Contains(namespace, TrimSuffixStar(TrimPrefixStar(pattern))) then true
    else if HasPrefix(pattern, "*") && HasSuffix(namespace, TrimPrefixStar(pattern)) then true
    else if HasSuffix(pattern, "*") && HasPrefix(namespace, TrimSuffixStar(pattern)) then true
    else namespace == pattern
  }

  /** No list admits the instance's own namespace alone; a list admits what some entry matches. */
  predicate Allowed(namespace: string, patterns: seq<string>, own: string) {
    if |patterns| > 0 then exists p :: p in patterns && MatchesPattern(p, namespace) else namespace == own
  }

  method IsAllowedNamespaces(namespace: string, patterns: seq<string>, own: string) returns (allowed: bool)
    ensures allowed == Allowed(namespace, patterns, own)
  {
    if |patterns| > 0 {
      for i := 0 to |patterns|
        invariant forall j :: 0 <= j < i ==> !MatchesPattern(patterns[j], namespace)
      {
        if MatchesPattern(patterns[i], namespace) {
          return true;
        }
      }
      return false;
    } else {
      return namespace == own;
    }
  }

  /** The reference: glob matching over whole strings. */
  predicate Glob(pattern: string, s: string)
    decreases |pattern| + |s|
  {
    if pattern == [] then s == []
    else if pattern[0] == '*' then Glob(pattern[1..], s) || (s != [] && Glob(pattern, s[1..]))
    else s != [] && s[0] == pattern[0] && Glob(pattern[1..], s[1..])
  }

  lemma {:induction false} StarMatchesAnything(s: string)
    ensures Glob("*", s)
    decreases |s|
  {
    if s != [] { StarMatchesAnything(s[1..]); }
  }

  lemma {:induction false} GlobOfItself(s: string)
    ensures Glob(s, s)
    decreases |s|
  {
    if s != [] {
      GlobOfItself(s[1..]);
      if s[0] == '*' { StarAbsorbs(s[1..], [s[0]], s[1..]); assert [s[0]] + s[1..] == s; assert ['*'] + s[1..] == s; }
    }
  }

  /** A leading star absorbs any text in front of what the rest matches. */
  lemma {:induction false} StarAbsorbs(pattern: string, text: string, s: string)
    requires Glob(pattern, s)
    ensures Glob(['*'] + pattern, text + s)
    decreases |text|
  {
    assert (['*'] + pattern)[1..] == pattern;
    if text == [] {
      assert text + s == s;
    } else {
      StarAbsorbs(pattern, text[1..], s);
      assert (text + s)[1..] == text[1..] + s;
    }
  }

  /** A literal in front of a pattern matches itself in front of the text. */
  lemma {:induction false} LiteralThen(literal: string, pattern: string, s: string)
    requires Glob(pattern, s)
    ensures Glob(literal + pattern, literal + s)
    decreases |literal|
  {
    if literal == [] {
      assert literal + pattern == pattern && literal + s == s;
    } else {
      LiteralThen(literal[1..], pattern, s);
      assert (literal + pattern)[1..] == literal[1..] + pattern;
      assert (literal + s)[1..] == literal[1..] + s;
      if literal[0] == '*' {
        StarAbsorbs(literal[1..] + pattern, ['*'], literal[1..] + s);
        assert ['*'] + (literal[1..] + pattern) == literal + pattern;
        assert ['*'] + (literal[1..] + s) == literal + s;
      }
    }
  }

  lemma InfixIsGlob(needle: string, namespace: string)
    requires Contains(namespace, needle)
    ensures Glob(['*'] + (needle + "*"), namespace)
  {
    var before, after := ContainsSplits(namespace, needle);
    StarMatchesAnything(after);
    LiteralThen(needle, "*", after);
    StarAbsorbs(needle + "*", before, needle + after);
    assert namespace == before + (needle + after);
  }

  lemma SuffixIsGlob(tail: string, namespace: string)
    requires HasSuffix(namespace, tail)
    ensures Glob(['*'] + tail, namespace)
  {
    GlobOfItself(tail);
    StarAbsorbs(tail, namespace[..|namespace| - |tail|], tail);
    assert namespace == namespace[..|namespace| - |tail|] + tail;
  }

  lemma PrefixIsGlob(head: string, namespace: string)
    requires HasPrefix(namespace, head)
    ensures Glob(head + "*", namespace)
  {
    StarMatchesAnything(namespace[|head|..]);
    LiteralThen(head, "*", namespace[|head|..]);
    assert namespace == head + namespace[|head|..];
  }

  /** Sound: whatever the operator admits, glob matching admits, for every pattern and every name. */
  lemma MatchIsGlob(pattern: string, namespace: string)
    requires MatchesPattern(pattern, namespace)
    ensures Glob(pattern, namespace)
  {
    if HasPrefix(pattern, "*") && HasSuffix(pattern, "*")
       && Contains(namespace, TrimSuffixStar(TrimPrefixStar(pattern))) {
      if |pattern| == 1 {
        StarMatchesAnything(namespace);
        assert pattern == "*";
      } else {
        InfixIsGlob(TrimSuffixStar(TrimPrefixStar(pattern)), namespace);
        assert pattern == ['*'] + (TrimSuffixStar(TrimPrefixStar(pattern)) + "*");
      }
    } else if HasPrefix(pattern, "*") && HasSuffix(namespace, TrimPrefixStar(pattern)) {
      SuffixIsGlob(TrimPrefixStar(pattern), namespace);
      assert pattern == ['*'] + TrimPrefixStar(pattern);
    } else if HasSuffix(pattern, "*") && HasPrefix(namespace, TrimSuffixStar(pattern)) {
      PrefixIsGlob(TrimSuffixStar(pattern), namespace);
      assert pattern == TrimSuffixStar(pattern) + "*";
    } else {
      GlobOfItself(pattern);
    }
  }

  /** At most one star at each end, none in between: the patterns the documentation describes. */
  predicate Simple(pattern: string) {
    '*' !in TrimSuffixStar(TrimPrefixStar(pattern))
  }

  /** A star-free literal followed by a pattern matches only itself followed by a match. */
  lemma {:induction false} LiteralMatch(literal: string, pattern: string, s: string)
    requires '*' !in literal && Glob(literal + pattern, s)
    ensures HasPrefix(s, literal) && Glob(pattern, s[|literal|..])
    decreases |literal|
  {
    if literal == [] {
      assert literal + pattern == pattern;
      assert s[0..] == s;
    } else {
      assert (literal + pattern)[1..] == literal[1..] + pattern;
      LiteralMatch(literal[1..], pattern, s[1..]);
      assert s[1..][..|literal| - 1] == literal[1..];
      assert s[..|literal|] == [s[0]] + s[1..][..|literal| - 1];
      assert s[1..][|literal| - 1..] == s[|literal|..];
    }
  }

  /** A leading star matches some prefix, and the rest of the pattern the rest of the text. */
  lemma {:induction false} StarMatch(pattern: string, s: string) returns (n: nat)
    requires Glob(['*'] + pattern, s)
    ensures n <= |s| && Glob(pattern, s[n..])
    decreases |s|
  {
    assert (['*'] + pattern)[1..] == pattern;
    if Glob(pattern, s) {
      n := 0;
      assert s[0..] == s;
    } else {
      var m := StarMatch(pattern, s[1..]);
      n := m + 1;
      assert s[1..][m..] == s[n..];
    }
  }

  lemma InfixMatches(literal: string, namespace: string)
    requires '*' !in literal && Glob(['*'] + (literal + "*"), namespace)
    ensures Contains(namespace, literal)
  {
    var n := StarMatch(literal + "*", namespace);
    LiteralMatch(literal, "*", namespace[n..]);
    SplitsContains(namespace[..n], literal, namespace[n + |literal|..]);
    assert namespace == namespace[..n] + literal + namespace[n + |literal|..];
  }

  lemma SuffixMatches(literal: string, namespace: string)
    requires '*' !in literal && Glob(['*'] + literal, namespace)
    ensures HasSuffix(namespace, literal)
  {
    var n := StarMatch(literal, namespace);
    assert literal + [] == literal;
    LiteralMatch(literal, [], namespace[n..]);
    assert namespace[n..] == literal;
  }

  lemma WordMatches(literal: string, namespace: string)
    requires '*' !in literal && Glob(literal, namespace)
    ensures namespace == literal
  {
    assert literal + [] == literal;
    LiteralMatch(literal, [], namespace);
  }

  /** Complete on simple patterns and star-free names. */
  lemma GlobIsMatch(pattern: string, namespace: string)
    requires Simple(pattern) && '*' !in namespace && Glob(pattern, namespace)
    ensures MatchesPattern(pattern, namespace)
  {
    var literal := TrimSuffixStar(TrimPrefixStar(pattern));
    if pattern == "*" {
      SplitsContains([], [], namespace);
      assert [] + [] + namespace == namespace;
    } else if HasPrefix(pattern, "*") && HasSuffix(pattern, "*") {
      assert pattern == ['*'] + (literal + "*");
      InfixMatches(literal, namespace);
    } else if HasPrefix(pattern, "*") {
      assert pattern == ['*'] + literal;
      SuffixMatches(literal, namespace);
    } else if HasSuffix(pattern, "*") {
      assert pattern == literal + "*";
      LiteralMatch(literal, "*", namespace);
    } else {
      assert pattern == literal;
      WordMatches(literal, namespace);
    }
  }

  lemma NeedleInside(s: string, p: string)
    requires Contains(s, p) && '*' !in s
    ensures '*' !in p
  {
    var before, after := ContainsSplits(s, p);
    assert forall c :: c in p ==> c in before + p + after;
  }

  /** What a star-free name matches has no star but at its ends. */
  lemma MatchIsSimple(pattern: string, namespace: string)
    requires '*' !in namespace && MatchesPattern(pattern, namespace)
    ensures Simple(pattern)
  {
    var tail, head := TrimPrefixStar(pattern), TrimSuffixStar(pattern);
    if HasPrefix(pattern, "*") && HasSuffix(pattern, "*") && Contains(namespace, TrimSuffixStar(tail)) {
      NeedleInside(namespace, TrimSuffixStar(tail));
    } else if HasPrefix(pattern, "*") && HasSuffix(namespace, tail) {
      assert forall c :: c in tail ==> c in namespace;
    } else if HasSuffix(pattern, "*") && HasPrefix(namespace, head) {
      assert forall c :: c in head ==> c in namespace;
      assert forall c :: c in TrimSuffixStar(tail) ==> c in head;
    }
  }

  /** Exact on star-free names: a pattern is matched when it is simple and globs, and in no other case. */
  lemma MatchExactly(pattern: string, namespace: string)
    requires '*' !in namespace
    ensures MatchesPattern(pattern, namespace) <==> Simple(pattern) && Glob(pattern, namespace)
  {
    if MatchesPattern(pattern, namespace) {
      MatchIsGlob(pattern, namespace);
      MatchIsSimple(pattern, namespace);
    } else if Simple(pattern) && Glob(pattern, namespace) {
      GlobIsMatch(pattern, namespace);
    }
  }

  /** A non-empty list, on star-free names: admitted exactly by the simple patterns that glob. */
  lemma AllowedExactly(namespace: string, patterns: seq<string>, own: string)
    requires |patterns| > 0 && '*' !in namespace
    ensures Allowed(namespace, patterns, own) <==>
            exists p :: p in patterns && Simple(p) && Glob(p, namespace)
  {
    forall p | p in patterns
      ensures MatchesPattern(p, namespace) <==> Simple(p) && Glob(p, namespace)
    {
      MatchExactly(p, namespace);
    }
  }
}
