/** Strings as the operator's code cuts and joins them. */
module Text {

  predicate HasPrefix(s: string, p: string) {
    p <= s
  }

  predicate HasSuffix(s: string, p: string) {
    |p| <= |s| && s[|s| - |p|..] == p
  }

  /** strings.Contains: `p` occurs in `s` at some offset. */
  predicate Contains(s: string, p: string) {
    HasPrefix(s, p) || (s != [] && Contains(s[1..], p))
  }

  lemma {:induction false} ContainsSplits(s: string, p: string) returns (before: string, after: string)
    requires Contains(s, p)
    ensures s == before + p + after
  {
    if HasPrefix(s, p) {
      before, after := [], s[|p|..];
    } else {
      before, after := ContainsSplits(s[1..], p);
      before := [s[0]] + before;
    }
  }

  lemma {:induction false} SplitsContains(before: string, p: string, after: string)
    ensures Contains(before + p + after, p)
    decreases |before|
  {
    if before != [] {
      SplitsContains(before[1..], p, after);
      assert (before + p + after)[1..] == before[1..] + p + after;
    } else {
      assert before + p + after == p + after;
    }
  }

  function TrimPrefixStar(s: string): string {
    if s != [] && s[0] == '*' then s[1..] else s
  }

  function TrimSuffixStar(s: string): string {
    if s != [] && s[|s| - 1] == '*' then s[..|s| - 1] else s
  }

  /** strings.Split on a one-character separator: always at least one part. */
  function Split(s: string, sep: char): (parts: seq<string>)
    ensures parts != [] && (|parts| == 1 <==> sep !in s)
    ensures forall i :: 0 <= i < |parts| ==> sep !in parts[i]
  {
    if s == [] then [[]]
    else
      var rest := Split(s[1..], sep);
      if s[0] == sep then [[]] + rest
      else [[s[0]] + rest[0]] + rest[1..]
  }

  function Join(parts: seq<string>, sep: char): string {
    if parts == [] then []
    else if |parts| == 1 then parts[0]
    else parts[0] + [sep] + Join(parts[1..], sep)
  }

  /** Splitting undoes joining, for at least one separator-free part. */
  lemma {:induction false} SplitUndoesJoin(parts: seq<string>, sep: char)
    requires parts != []
    requires forall i :: 0 <= i < |parts| ==> sep !in parts[i]
    ensures Split(Join(parts, sep), sep) == parts
  {
    var first := parts[0];
    if |parts| == 1 {
      SplitWord(first, sep);
    } else {
      SplitUndoesJoin(parts[1..], sep);
      SplitAfterWord(first, Join(parts[1..], sep), sep);
      assert Join(parts, sep) == first + [sep] + Join(parts[1..], sep);
      assert [first] + parts[1..] == parts;
    }
  }

  lemma {:induction false} SplitWord(word: string, sep: char)
    requires sep !in word
    ensures Split(word, sep) == [word]
  {
    if word != [] {
      SplitWord(word[1..], sep);
      assert [word[0]] + word[1..] == word;
    }
  }

  lemma {:induction false} SplitAfterWord(word: string, rest: string, sep: char)
    requires sep !in word
    ensures Split(word + [sep] + rest, sep) == [word] + Split(rest, sep)
  {
    var s := word + [sep] + rest;
    if word == [] {
      assert s[1..] == rest;
    } else {
      SplitAfterWord(word[1..], rest, sep);
      assert s[1..] == word[1..] + [sep] + rest;
      assert [word[0]] + word[1..] == word;
      assert ([word[1..]] + Split(rest, sep))[1..] == Split(rest, sep);
    }
  }

  /** Joining undoes splitting, for every string. */
  lemma {:induction false} JoinUndoesSplit(s: string, sep: char)
    ensures Join(Split(s, sep), sep) == s
  {
    if s != [] {
      JoinUndoesSplit(s[1..], sep);
      var rest := Split(s[1..], sep);
      if s[0] == sep {
        assert ([[]] + rest)[1..] == rest;
      } else {
        assert ([[s[0]] + rest[0]] + rest[1..])[1..] == rest[1..];
      }
    }
  }

  predicate IsSpace(c: char) {
    c == ' ' || c == '\t' || c == '\n' || c == '\r'
  }

  /** strings.TrimSpace. */
  function TrimSpace(s: string): string {
    if s != [] && IsSpace(s[0]) then TrimSpace(s[1..])
    else if s != [] && IsSpace(s[|s| - 1]) then TrimSpace(s[..|s| - 1])
    else s
  }
}
