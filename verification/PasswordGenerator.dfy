/**
 * The password generator: characters are drawn one by one and each is inserted at a random place.
 * A tape is what the random source delivers: one character and one position a round.
 */
module PasswordGenerator {
  import opened Collections

  const LOWER_LETTERS := "abcdefghijklmnopqrstuvwxyz"
  const UPPER_LETTERS := "ABCDEFGHIJKLMNOPQRSTUVWXYZ"
  const DIGITS := "0123456789"
  const SYMBOLS := "~!@#$%^&*()_+`-={}|[]\\:\"<>?,./"

  /** Round i may insert at any of the i + 1 places of an i-character string. */
  predicate PositionTape(positions: seq<nat>) {
    forall i :: 0 <= i < |positions| ==> positions[i] <= i
  }

  function Insert(s: string, c: char, at: nat): (r: string)
    requires at <= |s|
    ensures |r| == |s| + 1
  {
    s[..at] + [c] + s[at..]
  }

  /** The string the tapes lead to. */
  function Build(drawn: string, positions: seq<nat>): (r: string)
    requires |drawn| == |positions| && PositionTape(positions)
    ensures |r| == |drawn|
  {
    if drawn == [] then []
    else
      var n := |drawn| - 1;
      Insert(Build(drawn[..n], positions[..n]), drawn[n], positions[n])
  }

  /** The characters that must have been drawn for `positions` to lead to `out`. */
  function Unbuild(out: string, positions: seq<nat>): (drawn: string)
    requires |out| == |positions| && PositionTape(positions)
    ensures |drawn| == |out|
  {
    if out == [] then []
    else
      var n := |out| - 1;
      var at := positions[n];
      Unbuild(out[..at] + out[at + 1..], positions[..n]) + [out[at]]
  }

  lemma InsertPutsBack(s: string, at: nat)
    requires at < |s|
    ensures Insert(s[..at] + s[at + 1..], s[at], at) == s
  {
  }

  lemma InsertIsTakenBack(s: string, c: char, at: nat)
    requires at <= |s|
    ensures Insert(s, c, at)[at] == c
    ensures Insert(s, c, at)[..at] + Insert(s, c, at)[at + 1..] == s
  {
    assert s == s[..at] + s[at..];
  }

  /** For fixed positions every output is reached by the characters `Unbuild` computes ... */
  lemma {:induction false} BuildUndoesUnbuild(out: string, positions: seq<nat>)
    requires |out| == |positions| && PositionTape(positions)
    ensures Build(Unbuild(out, positions), positions) == out
    decreases |out|
  {
    if out != [] {
      var n := |out| - 1;
      var rest := out[..positions[n]] + out[positions[n] + 1..];
      BuildUndoesUnbuild(rest, positions[..n]);
      PutBack(out, Unbuild(rest, positions[..n]), positions, n);
    }
  }

  /** What leads to all but one character leads, with that character drawn last, to all of them. */
  lemma PutBack(out: string, shorter: string, positions: seq<nat>, n: nat)
    requires |out| == |positions| == n + 1 && |shorter| == n && PositionTape(positions)
    requires Build(shorter, positions[..n]) == out[..positions[n]] + out[positions[n] + 1..]
    ensures Build(shorter + [out[positions[n]]], positions) == out
  {
    assert (shorter + [out[positions[n]]])[..n] == shorter;
    InsertPutsBack(out, positions[n]);
  }

  /** ... and by no others: drawing is a bijection onto outputs, whatever the positions. */
  lemma {:induction false} UnbuildUndoesBuild(drawn: string, positions: seq<nat>)
    requires |drawn| == |positions| && PositionTape(positions)
    ensures Unbuild(Build(drawn, positions), positions) == drawn
    decreases |drawn|
  {
    if drawn != [] {
      var n := |drawn| - 1;
      var at := positions[n];
      var shorter := Build(drawn[..n], positions[..n]);
      UnbuildUndoesBuild(drawn[..n], positions[..n]);
      InsertIsTakenBack(shorter, drawn[n], at);
      assert drawn == drawn[..n] + [drawn[n]];
    }
  }

  /** Nothing drawn is lost, doubled or replaced. */
  lemma {:induction false} BuildKeepsCharacters(drawn: string, positions: seq<nat>)
    requires |drawn| == |positions| && PositionTape(positions)
    ensures multiset(Build(drawn, positions)) == multiset(drawn)
    decreases |drawn|
  {
    if drawn != [] {
      var n := |drawn| - 1;
      var shorter := Build(drawn[..n], positions[..n]);
      BuildKeepsCharacters(drawn[..n], positions[..n]);
      InsertAddsOne(shorter, drawn[n], positions[n]);
      assert drawn == drawn[..n] + [drawn[n]];
      assert multiset(drawn) == multiset(drawn[..n]) + multiset{drawn[n]};
    }
  }

  lemma InsertAddsOne(s: string, c: char, at: nat)
    requires at <= |s|
    ensures multiset(Insert(s, c, at)) == multiset(s) + multiset{c}
  {
    assert s == s[..at] + s[at..];
  }

  // ---------- how many tapes lead to one output ----------

  function Factorial(n: nat): nat {
    if n == 0 then 1 else n * Factorial(n - 1)
  }

  /** Every tape of `ps` followed by every position below `m`. */
  ghost function Extended(ps: set<seq<nat>>, m: nat): set<seq<nat>> {
    set p, i | p in ps && 0 <= i < m :: p + [i]
  }

  ghost function PositionTapes(n: nat): set<seq<nat>> {
    if n == 0 then {[]} else Extended(PositionTapes(n - 1), n)
  }

  lemma {:induction false} PositionTapesAreAll(n: nat, p: seq<nat>)
    ensures p in PositionTapes(n) <==> |p| == n && PositionTape(p)
    decreases n
  {
    if n > 0 {
      if p in PositionTapes(n) {
        var q, i :| q in PositionTapes(n - 1) && 0 <= i < n && p == q + [i];
        PositionTapesAreAll(n - 1, q);
      }
      if |p| == n && PositionTape(p) {
        PositionTapesAreAll(n - 1, p[..n - 1]);
        assert p == p[..n - 1] + [p[n - 1]];
      }
    }
  }

  ghost function Appended(ps: set<seq<nat>>, i: nat): set<seq<nat>> {
    set p | p in ps :: p + [i]
  }

  lemma {:induction false} AppendedSize(ps: set<seq<nat>>, i: nat)
    ensures |Appended(ps, i)| == |ps|
    decreases ps
  {
    var image := Appended(ps, i);
    if ps == {} {
      assert image == {};
    } else {
      var q :| q in ps;
      var rest := ps - {q};
      AppendedSize(rest, i);
      var smaller := Appended(rest, i);
      assert image == smaller + {q + [i]};
      assert q + [i] !in smaller by {
        forall p | p in rest ensures p + [i] != q + [i] {
          assert (p + [i])[..|p|] == p && (q + [i])[..|q|] == q;
        }
      }
    }
  }

  lemma {:induction false} ExtendedSize(ps: set<seq<nat>>, m: nat)
    ensures |Extended(ps, m)| == m * |ps|
    decreases m
  {
    if m == 0 {
      assert Extended(ps, 0) == {};
    } else {
      ExtendedSize(ps, m - 1);
      AppendedSize(ps, m - 1);
      ExtendedByOne(ps, m - 1);
      OneMoreTime(m - 1, |ps|);
    }
  }

  /** The last position on its own: those tapes are new. */
  lemma ExtendedByOne(ps: set<seq<nat>>, n: nat)
    ensures |Extended(ps, n + 1)| == |Extended(ps, n)| + |Appended(ps, n)|
  {
    var last := Appended(ps, n);
    assert Extended(ps, n + 1) == Extended(ps, n) + last;
    forall t | t in last ensures t !in Extended(ps, n) {
      assert t[|t| - 1] == n;
    }
    assert Extended(ps, n) !! last;
  }

  lemma OneMoreTime(n: nat, k: nat)
    ensures n * k + k == (n + 1) * k
  {
  }

  lemma {:induction false} PositionTapesSize(n: nat)
    ensures |PositionTapes(n)| == Factorial(n)
    decreases n
  {
    if n > 0 {
      PositionTapesSize(n - 1);
      ExtendedSize(PositionTapes(n - 1), n);
    }
  }

  /** The one pair of tapes with these positions that leads to `out`. */
  ghost function TapePair(out: string, positions: seq<nat>): (string, seq<nat>) {
    (if |positions| == |out| && PositionTape(positions) then Unbuild(out, positions) else [], positions)
  }

  /** The pairs of tapes that lead to `out`. */
  ghost function TapesTo(out: string, ps: set<seq<nat>>): set<(string, seq<nat>)> {
    set p | p in ps :: TapePair(out, p)
  }

  lemma {:induction false} PairedSize(ps: set<seq<nat>>, out: string)
    ensures |TapesTo(out, ps)| == |ps|
    decreases ps
  {
    if ps == {} {
      assert TapesTo(out, ps) == {};
    } else {
      var q :| q in ps;
      PairedSize(ps - {q}, out);
      assert TapesTo(out, ps) == TapesTo(out, ps - {q}) + {TapePair(out, q)};
      assert forall p :: TapePair(out, p).1 == p;
      assert TapePair(out, q) !in TapesTo(out, ps - {q});
    }
  }

  /** A pair of tapes leads to `out` exactly when it is the pair its positions determine. */
  lemma LeadsTo(out: string, drawn: string, positions: seq<nat>)
    requires |positions| == |drawn| && PositionTape(positions)
    ensures Build(drawn, positions) == out <==> |out| == |drawn| && TapePair(out, positions) == (drawn, positions)
  {
    if |out| == |drawn| {
      BuildUndoesUnbuild(out, positions);
      UnbuildUndoesBuild(drawn, positions);
    }
  }

  /** Uniform: each output of length n comes from exactly n! of the equally likely pairs of tapes. */
  lemma TapesPerOutput(out: string)
    ensures |TapesTo(out, PositionTapes(|out|))| == Factorial(|out|)
    ensures forall drawn, positions | |positions| == |drawn| && PositionTape(positions) ::
      (drawn, positions) in TapesTo(out, PositionTapes(|out|)) <==> Build(drawn, positions) == out
  {
    PositionTapesSize(|out|);
    PairedSize(PositionTapes(|out|), out);
    forall drawn: string, positions: seq<nat> | |positions| == |drawn| && PositionTape(positions)
      ensures (drawn, positions) in TapesTo(out, PositionTapes(|out|)) <==> Build(drawn, positions) == out
    {
      LeadsTo(out, drawn, positions);
      PositionTapesAreAll(|out|, positions);
      assert TapePair(out, positions).1 == positions;
    }
  }

  /** Outputs over an alphabet come from drawings over that alphabet, and from those only. */
  lemma AlphabetIsKept(out: string, drawn: string, positions: seq<nat>, alphabet: string)
    requires |positions| == |out| && (drawn, positions) in TapesTo(out, PositionTapes(|out|))
    ensures (forall c :: c in drawn ==> c in alphabet) <==> (forall c :: c in out ==> c in alphabet)
  {
    PositionTapesAreAll(|out|, positions);
    var p :| p in PositionTapes(|out|) && TapePair(out, p) == (drawn, positions);
    assert TapePair(out, p).1 == p;
    BuildUndoesUnbuild(out, positions);
    BuildKeepsCharacters(drawn, positions);
    assert forall c :: c in drawn <==> c in multiset(drawn);
    assert forall c :: c in out <==> c in multiset(out);
  }

  // ---------- the generator ----------

  function Choices(useDigit: bool, useSymbol: bool, useUpper: bool, useLower: bool): (r: string)
    ensures r != []
  {
    var choices :=
      (if useDigit then DIGITS else []) + (if useSymbol then SYMBOLS else []) +
      (if useUpper then UPPER_LETTERS else []) + (if useLower then LOWER_LETTERS else []);
    if choices == [] then LOWER_LETTERS else choices
  }

  predicate Ascending(s: string) {
    forall i :: 0 <= i < |s| - 1 ==> s[i] < s[i + 1]
  }

  lemma {:induction false} AscendingIsDistinct(s: string, i: nat, j: nat)
    requires Ascending(s) && i < j < |s|
    ensures s[i] < s[j]
  {
    if i + 1 < j { AscendingIsDistinct(s, i, j - 1); }
    assert s[j - 1] < s[j - 1 + 1];
  }

  /** The operator's alphabet repeats no character, so that drawing a position draws each character alike. */
  lemma AlphabetIsDistinct()
    ensures NoDuplicates(Choices(true, false, true, true))
  {
    var s := Choices(true, false, true, true);
    assert s == (DIGITS + UPPER_LETTERS) + LOWER_LETTERS;
    LettersAscend();
    AscendingJoin(DIGITS, UPPER_LETTERS);
    AscendingJoin(DIGITS + UPPER_LETTERS, LOWER_LETTERS);
    forall i, j | 0 <= i < j < |s| ensures s[i] != s[j] {
      AscendingIsDistinct(s, i, j);
    }
  }

  lemma LettersAscend()
    ensures Ascending(DIGITS) && DIGITS[0] == '0' && DIGITS[|DIGITS| - 1] == '9'
    ensures Ascending(UPPER_LETTERS) && UPPER_LETTERS[0] == 'A' && UPPER_LETTERS[|UPPER_LETTERS| - 1] == 'Z'
    ensures Ascending(LOWER_LETTERS) && LOWER_LETTERS[0] == 'a'
  {
  }

  lemma AscendingJoin(a: string, b: string)
    requires Ascending(a) && Ascending(b) && a != [] && b != [] && a[|a| - 1] < b[0]
    ensures Ascending(a + b)
  {
    var s := a + b;
    forall i | 0 <= i < |s| - 1 ensures s[i] < s[i + 1] {
      if i < |a| - 1 {
        assert s[i] == a[i] && s[i + 1] == a[i + 1];
      } else if i >= |a| {
        assert s[i] == b[i - |a|] && s[i + 1] == b[i - |a| + 1];
      }
    }
  }

  /** The draws the random source delivers; reading past the last one fails. A draw below a bound is taken modulo it. */
  type Tape = seq<nat>

  /** crypto/rand.Int: what the k-th draw comes to below `max`. */
  method RandInt(tape: Tape, k: nat, max: nat) returns (n: Option<nat>)
    requires max > 0
    ensures n == if k < |tape| then Some(tape[k] % max) else None
  {
    return if k < |tape| then Some(tape[k] % max) else None;
  }

  method RandomInsert(tape: Tape, k: nat, s: string, val: char) returns (r: Option<string>)
    ensures r.Some? <==> s == "" || k < |tape|
    ensures r.Some? ==> r.value == Insert(s, val, if s == "" then 0 else tape[k] % (|s| + 1))
  {
    if s == "" {
      return Some([val]);
    }
    var n := RandInt(tape, k, |s| + 1);
    match n {
      case None => return None;
      case Some(i) => return Some(s[..i] + [val] + s[i..]);
    }
  }

  method RandomElement(tape: Tape, k: nat, s: string) returns (r: Option<char>)
    requires s != []
    ensures r.Some? <==> k < |tape|
    ensures r.Some? ==> r.value == s[tape[k] % |s|]
  {
    var n := RandInt(tape, k, |s|);
    match n {
      case None => return None;
      case Some(i) => return Some(s[i]);
    }
  }

  /** What the generator has built when it stops, and whether it stopped because the source failed. */
  datatype Progress = Progress(password: string, next: nat, failed: bool)

  /** One turn of the loop: draw a character; skip it if it may not repeat; else draw its place and insert it. */
  function Turn(tape: Tape, choices: string, allowRepeat: bool, p: Progress): Progress
    requires choices != []
  {
    if p.next >= |tape| then p.(failed := true)
    else
      var c := choices[tape[p.next] % |choices|];
      if !allowRepeat && c in p.password then p.(next := p.next + 1)
      else if p.password == "" then Progress([c], p.next + 1, p.failed)
      else if p.next + 1 >= |tape| then p.(next := p.next + 1, failed := true)
      else Progress(Insert(p.password, c, tape[p.next + 1] % (|p.password| + 1)), p.next + 2, p.failed)
  }

  /** The turns until the password has its length or the source fails. */
  function Fill(tape: Tape, choices: string, length: nat, allowRepeat: bool, p: Progress): Progress
    requires choices != [] && p.next <= |tape|
    decreases |tape| - p.next, !p.failed
  {
    if p.failed || |p.password| >= length then p
    else Fill(tape, choices, length, allowRepeat, Turn(tape, choices, allowRepeat, p))
  }

  method DrawAndInsert(tape: Tape, choices: string, allowRepeat: bool, password: string, next: nat)
    returns (password': string, next': nat, failed: bool)
    requires choices != []
    ensures Progress(password', next', failed) == Turn(tape, choices, allowRepeat, Progress(password, next, false))
  {
    password', next', failed := password, next, false;
    var ch := RandomElement(tape, next, choices);
    if ch.None? {
      failed := true;
      return;
    }
    next' := next + 1;
    if !allowRepeat && ch.value in password {
      return;
    }
    var inserted := RandomInsert(tape, next', password, ch.value);
    if inserted.None? {
      failed := true;
      return;
    }
    next' := if password == "" then next' else next' + 1;
    password' := inserted.value;
  }

  method DrawFrom(tape: Tape, length: nat, choices: string, allowRepeat: bool) returns (result: Option<string>)
    requires choices != []
    ensures
      var p := Fill(tape, choices, length, allowRepeat, Progress("", 0, false));
      result == if p.failed then None else Some(p.password)
  {
    var password, next, failed := "", 0, false;
    while |password| < length
      invariant next <= |tape| && !failed
      invariant Fill(tape, choices, length, allowRepeat, Progress("", 0, false))
             == Fill(tape, choices, length, allowRepeat, Progress(password, next, failed))
      decreases |tape| - next
    {
      password, next, failed := DrawAndInsert(tape, choices, allowRepeat, password, next);
      if failed {
        return None;
      }
    }
    return Some(password);
  }

  method Generate(
    tape: Tape, length: nat, useDigit: bool, useSymbol: bool, useUpper: bool, useLower: bool, allowRepeat: bool)
    returns (result: Option<string>)
    ensures
      var choices := Choices(useDigit, useSymbol, useUpper, useLower);
      var p := Fill(tape, choices, length, allowRepeat, Progress("", 0, false));
      result == if p.failed then None else Some(p.password)
  {
    result := DrawFrom(tape, length, Choices(useDigit, useSymbol, useUpper, useLower), allowRepeat);
  }

  // ---------- with repeats ----------

  /** The draws of the first `rounds` rounds: one in the first, two in each of the others. */
  function DrawsOf(rounds: nat): nat {
    if rounds == 0 then 0 else 2 * rounds - 1
  }

  /** The characters drawn in the first `rounds` rounds. */
  function Drawn(tape: Tape, choices: string, rounds: nat): (drawn: string)
    requires choices != [] && DrawsOf(rounds) <= |tape|
    ensures |drawn| == rounds && forall c :: c in drawn ==> c in choices
  {
    if rounds == 0 then []
    else Drawn(tape, choices, rounds - 1) + [choices[tape[DrawsOf(rounds - 1)] % |choices|]]
  }

  /** The positions drawn: the first character needs none, character i goes to one of i + 1 places. */
  function Positions(tape: Tape, rounds: nat): (positions: seq<nat>)
    requires DrawsOf(rounds) <= |tape|
    ensures |positions| == rounds && PositionTape(positions)
  {
    if rounds == 0 then []
    else
      var i := rounds - 1;
      Positions(tape, i) + [if i == 0 then 0 else tape[2 * i] % (i + 1)]
  }

  /** One round: both lists grow by what the round draws, and so does the string they lead to. */
  lemma BuildStep(tape: Tape, choices: string, i: nat)
    requires choices != [] && DrawsOf(i + 1) <= |tape|
    ensures
      Build(Drawn(tape, choices, i + 1), Positions(tape, i + 1)) ==
        Insert(Build(Drawn(tape, choices, i), Positions(tape, i)), choices[tape[DrawsOf(i)] % |choices|],
               if i == 0 then 0 else tape[2 * i] % (i + 1))
  {
    assert Drawn(tape, choices, i + 1)[..i] == Drawn(tape, choices, i);
    assert Positions(tape, i + 1)[..i] == Positions(tape, i);
  }

  function Rounds(tape: Tape, choices: string, i: nat): Progress
    requires choices != [] && DrawsOf(i) <= |tape|
  {
    Progress(Build(Drawn(tape, choices, i), Positions(tape, i)), DrawsOf(i), false)
  }

  lemma RoundStep(tape: Tape, choices: string, i: nat)
    requires choices != [] && DrawsOf(i) <= |tape|
    ensures
      var p := Turn(tape, choices, true, Rounds(tape, choices, i));
      if DrawsOf(i + 1) <= |tape| then p == Rounds(tape, choices, i + 1) else p.failed && p.next <= |tape|
  {
    TurnFrom(tape, choices, i, Build(Drawn(tape, choices, i), Positions(tape, i)));
    if DrawsOf(i + 1) <= |tape| { BuildStep(tape, choices, i); }
  }

  /** A turn from a string of i characters, after the draws of i rounds. */
  lemma TurnFrom(tape: Tape, choices: string, i: nat, s: string)
    requires choices != [] && DrawsOf(i) <= |tape| && |s| == i
    ensures
      var p := Turn(tape, choices, true, Progress(s, DrawsOf(i), false));
      if DrawsOf(i + 1) <= |tape| then
        p == Progress(
          Insert(s, choices[tape[DrawsOf(i)] % |choices|], if i == 0 then 0 else tape[2 * i] % (i + 1)),
          DrawsOf(i + 1), false)
      else p.failed && p.next <= |tape|
  {
    if i == 0 && DrawsOf(1) <= |tape| {
      var c := choices[tape[0] % |choices|];
      assert Insert(s, c, 0) == [c];
    }
  }

  lemma {:induction false} FillRounds(tape: Tape, choices: string, length: nat, i: nat)
    requires choices != [] && DrawsOf(i) <= |tape| && i <= length
    ensures
      var p := Fill(tape, choices, length, true, Rounds(tape, choices, i));
      if DrawsOf(length) <= |tape| then p == Rounds(tape, choices, length) else p.failed
    decreases length - i
  {
    if i < length {
      RoundStep(tape, choices, i);
      if DrawsOf(i + 1) <= |tape| {
        FillRounds(tape, choices, length, i + 1);
      }
    }
  }

  /** With repeats the password is what the characters drawn lead to at the positions drawn. */
  lemma WithRepeats(tape: Tape, choices: string, length: nat)
    requires choices != []
    ensures
      var p := Fill(tape, choices, length, true, Progress("", 0, false));
      if DrawsOf(length) <= |tape| then
        !p.failed && p.password == Build(Drawn(tape, choices, length), Positions(tape, length))
      else p.failed
  {
    FillRounds(tape, choices, length, 0);
  }

  // ---------- without repeats ----------

  ghost predicate FromAlphabet(s: string, choices: string) {
    NoDuplicates(s) && forall c :: c in s ==> c in choices
  }

  lemma InsertNew(s: string, c: char, at: nat, choices: string)
    requires FromAlphabet(s, choices) && c !in s && c in choices && at <= |s|
    ensures FromAlphabet(Insert(s, c, at), choices)
  {
    assert s == s[..at] + s[at..];
  }

  lemma {:induction false} FillDistinct(tape: Tape, choices: string, length: nat, p: Progress)
    requires choices != [] && p.next <= |tape| && FromAlphabet(p.password, choices) && |p.password| <= length
    ensures
      var q := Fill(tape, choices, length, false, p);
      FromAlphabet(q.password, choices) && |q.password| <= length && (q.failed || |q.password| == length)
    decreases |tape| - p.next, !p.failed
  {
    if !p.failed && |p.password| < length {
      var q := Turn(tape, choices, false, p);
      if q.password != p.password && p.password != "" {
        var c := choices[tape[p.next] % |choices|];
        InsertNew(p.password, c, tape[p.next + 1] % (|p.password| + 1), choices);
      }
      FillDistinct(tape, choices, length, q);
    }
  }

  /** Without repeats the password has its length, its characters come from the alphabet, and none comes twice. */
  lemma WithoutRepeats(tape: Tape, choices: string, length: nat)
    requires choices != []
    ensures
      var p := Fill(tape, choices, length, false, Progress("", 0, false));
      p.failed || (|p.password| == length && FromAlphabet(p.password, choices))
  {
    FillDistinct(tape, choices, length, Progress("", 0, false));
  }

  lemma {:induction false} DistinctIsShort(s: string, choices: set<char>)
    requires NoDuplicates(s) && forall c :: c in s ==> c in choices
    ensures |s| <= |choices|
  {
    if s != [] {
      var rest := s[1..];
      assert s == [s[0]] + rest;
      forall c | c in rest ensures c in choices - {s[0]} {
        assert c in s;
      }
      DistinctIsShort(rest, choices - {s[0]});
    }
  }

  // ---------- every list can be drawn ----------

  /** The characters with these indices. */
  function Picked(choices: string, indices: seq<nat>): (r: string)
    requires forall i :: 0 <= i < |indices| ==> indices[i] < |choices|
    ensures |r| == |indices|
  {
    seq(|indices|, i requires 0 <= i < |indices| => choices[indices[i]])
  }

  /** A source that delivers these indices and positions. */
  function TapeOf(indices: seq<nat>, positions: seq<nat>): (tape: Tape)
    requires |indices| == |positions|
    ensures |tape| == DrawsOf(|indices|)
  {
    if indices == [] then []
    else
      var n := |indices| - 1;
      TapeOf(indices[..n], positions[..n]) + if n == 0 then [indices[n]] else [indices[n], positions[n]]
  }

  lemma {:induction false} SameStart(tape: Tape, longer: Tape, choices: string, n: nat)
    requires choices != [] && DrawsOf(n) <= |tape| && tape <= longer
    ensures Drawn(tape, choices, n) == Drawn(longer, choices, n) && Positions(tape, n) == Positions(longer, n)
    decreases n
  {
    if n > 0 { SameStart(tape, longer, choices, n - 1); }
  }

  lemma SmallRemainder(v: nat, m: nat)
    requires v < m
    ensures v % m == v
  {
  }

  lemma EndsWith(shorter: Tape, index: nat, position: nat, n: nat)
    requires |shorter| == DrawsOf(n)
    ensures
      var tape := shorter + if n == 0 then [index] else [index, position];
      shorter <= tape && tape[DrawsOf(n)] == index && (n > 0 ==> tape[2 * n] == position)
  {
  }

  /** Every choice of characters and every choice of positions is what some source delivers, round by round. */
  lemma {:induction false} EveryTapeIsDrawn(choices: string, indices: seq<nat>, positions: seq<nat>)
    requires choices != [] && |indices| == |positions| && PositionTape(positions)
    requires forall i :: 0 <= i < |indices| ==> indices[i] < |choices|
    ensures Drawn(TapeOf(indices, positions), choices, |indices|) == Picked(choices, indices)
    ensures Positions(TapeOf(indices, positions), |indices|) == positions
    decreases |indices|
  {
    if indices != [] {
      var n := |indices| - 1;
      EveryTapeIsDrawn(choices, indices[..n], positions[..n]);
      var shorter := TapeOf(indices[..n], positions[..n]);
      EndsWith(shorter, indices[n], positions[n], n);
      RoundAdds(shorter, TapeOf(indices, positions), choices, n, indices[n], positions[n]);
      PickedSnoc(choices, indices);
      assert positions == positions[..n] + [positions[n]];
    }
  }

  lemma RoundAdds(shorter: Tape, tape: Tape, choices: string, n: nat, index: nat, position: nat)
    requires choices != [] && |shorter| == DrawsOf(n) && shorter <= tape && DrawsOf(n + 1) <= |tape|
    requires tape[DrawsOf(n)] == index < |choices| && position <= n && (n > 0 ==> tape[2 * n] == position)
    ensures Drawn(tape, choices, n + 1) == Drawn(shorter, choices, n) + [choices[index]]
    ensures Positions(tape, n + 1) == Positions(shorter, n) + [position]
  {
    SameStart(shorter, tape, choices, n);
    SmallRemainder(index, |choices|);
    SmallRemainder(position, n + 1);
  }

  lemma PickedSnoc(choices: string, indices: seq<nat>)
    requires indices != [] && forall i :: 0 <= i < |indices| ==> indices[i] < |choices|
    ensures
      var n := |indices| - 1;
      Picked(choices, indices) == Picked(choices, indices[..n]) + [choices[indices[n]]]
  {
  }

  // ---------- when the generator without repeats can end ----------

  /** Asked for more characters than the alphabet has, it never ends but by a failing source. */
  lemma TooLongNeverEnds(tape: Tape, choices: string, length: nat)
    requires choices != [] && length > |SetOf(choices)|
    ensures Fill(tape, choices, length, false, Progress("", 0, false)).failed
  {
    var p := Fill(tape, choices, length, false, Progress("", 0, false));
    WithoutRepeats(tape, choices, length);
    if !p.failed {
      DistinctIsShort(p.password, SetOf(choices));
    }
  }

  /** Where the characters drawn are all different, nothing is skipped: a turn does what it does with repeats. */
  lemma NothingSkipped(tape: Tape, choices: string, i: nat)
    requires choices != [] && DrawsOf(i + 1) <= |tape| && NoDuplicates(Drawn(tape, choices, i + 1))
    ensures Turn(tape, choices, false, Rounds(tape, choices, i)) == Rounds(tape, choices, i + 1)
  {
    var drawn, c := Drawn(tape, choices, i), choices[tape[DrawsOf(i)] % |choices|];
    assert Drawn(tape, choices, i + 1) == drawn + [c];
    assert (drawn + [c])[i] == c;
    assert forall j :: 0 <= j < i ==> drawn[j] == (drawn + [c])[j];
    assert c !in drawn;
    BuildKeepsCharacters(drawn, Positions(tape, i));
    SameCharacters(Build(drawn, Positions(tape, i)), drawn);
    RoundStep(tape, choices, i);
  }

  lemma SameCharacters(a: string, b: string)
    requires multiset(a) == multiset(b)
    ensures forall c :: c in a <==> c in b
  {
    forall c ensures c in a <==> c in b {
      assert c in a <==> c in multiset(a);
      assert c in b <==> c in multiset(b);
    }
  }

  lemma {:induction false} DistinctRounds(tape: Tape, choices: string, length: nat, i: nat)
    requires choices != [] && DrawsOf(length) <= |tape| && i <= length
    requires NoDuplicates(Drawn(tape, choices, length))
    ensures Fill(tape, choices, length, false, Rounds(tape, choices, i)) == Rounds(tape, choices, length)
    decreases length - i
  {
    if i < length {
      DrawnStarts(tape, choices, i + 1, length);
      NothingSkipped(tape, choices, i);
      DistinctRounds(tape, choices, length, i + 1);
    }
  }

  lemma {:induction false} DrawnStarts(tape: Tape, choices: string, i: nat, n: nat)
    requires choices != [] && DrawsOf(n) <= |tape| && i <= n
    ensures Drawn(tape, choices, i) == Drawn(tape, choices, n)[..i]
    ensures NoDuplicates(Drawn(tape, choices, n)) ==> NoDuplicates(Drawn(tape, choices, i))
    decreases n
  {
    if i < n {
      DrawnStarts(tape, choices, i, n - 1);
    }
  }

  /** As many different characters as the alphabet has can be picked from it. */
  lemma {:induction false} DistinctIndices(choices: string, n: nat) returns (indices: seq<nat>)
    requires n <= |SetOf(choices)|
    ensures |indices| == n && forall i :: 0 <= i < n ==> indices[i] < |choices|
    ensures NoDuplicates(Picked(choices, indices))
    decreases n
  {
    if n == 0 {
      indices := [];
    } else {
      var fewer := DistinctIndices(choices, n - 1);
      var k := UnusedIndex(choices, Picked(choices, fewer));
      indices := fewer + [k];
      assert indices[..n - 1] == fewer;
      PickedSnoc(choices, indices);
    }
  }

  /** A string shorter than the alphabet leaves one of its characters out. */
  lemma UnusedIndex(choices: string, used: string) returns (k: nat)
    requires |used| < |SetOf(choices)|
    ensures k < |choices| && choices[k] !in used
  {
    SetOfSize(used);
    if SetOf(choices) <= SetOf(used) {
      SubsetSize(SetOf(choices), SetOf(used));
      assert false;
    }
    var c :| c in SetOf(choices) && c !in SetOf(used);
    k :| 0 <= k < |choices| && choices[k] == c;
    assert c !in used;
  }

  lemma {:induction false} SetOfSize(s: string)
    ensures |SetOf(s)| <= |s|
  {
    if s != [] {
      SetOfSize(s[1..]);
      assert s == [s[0]] + s[1..];
      assert SetOf(s) == {s[0]} + SetOf(s[1..]);
    }
  }

  lemma {:induction false} SubsetSize(a: set<char>, b: set<char>)
    requires a <= b
    ensures |a| <= |b|
    decreases a
  {
    if a != {} {
      var x :| x in a;
      SubsetSize(a - {x}, b - {x});
    }
  }

  /** Every repeat-free choice of characters can be delivered, one round for each. */
  lemma DistinctFill(choices: string, length: nat) returns (tape: Tape)
    requires choices != [] && length <= |SetOf(choices)|
    ensures !Fill(tape, choices, length, false, Progress("", 0, false)).failed
  {
    var indices := DistinctIndices(choices, length);
    var positions := seq(length, _ => 0);
    tape := TapeOf(indices, positions);
    EveryTapeIsDrawn(choices, indices, positions);
    DistinctRounds(tape, choices, length, 0);
  }

  /** Without repeats some source lets the generator end exactly when the alphabet has as many characters. */
  lemma EndsExactly(choices: string, length: nat)
    requires choices != []
    ensures (exists tape: Tape :: !Fill(tape, choices, length, false, Progress("", 0, false)).failed)
            <==> length <= |SetOf(choices)|
  {
    if length <= |SetOf(choices)| {
      var tape := DistinctFill(choices, length);
    } else {
      forall tape: Tape ensures Fill(tape, choices, length, false, Progress("", 0, false)).failed {
        TooLongNeverEnds(tape, choices, length);
      }
    }
  }

  // ---------- the keys the operator generates ----------

  predicate Alphanumeric(c: char) {
    '0' <= c <= '9' || 'A' <= c <= 'Z' || 'a' <= c <= 'z'
  }

  /** What the operator asks for: twenty digits and letters. */
  predicate IsPassword(s: string) {
    |s| == 20 && forall c :: c in s ==> Alphanumeric(c)
  }

  function Alphabet(): (r: string)
    ensures r != []
  {
    Choices(true, false, true, true)
  }

  /** The key a source leads to; any other when it fails too early. */
  function KeyOf(tape: Tape): string {
    if DrawsOf(20) <= |tape| then Build(Drawn(tape, Alphabet(), 20), Positions(tape, 20)) else seq(20, _ => 'a')
  }

  lemma {:induction false} AscendingLeavesRoom(s: string, i: nat)
    requires Ascending(s) && i < |s|
    ensures s[i] as int >= s[0] as int + i
  {
    if i > 0 {
      AscendingLeavesRoom(s, i - 1);
      assert s[i - 1] < s[i - 1 + 1];
    }
  }

  lemma {:induction false} AscendingLeavesRoomBehind(s: string, i: nat)
    requires Ascending(s) && i < |s|
    ensures s[|s| - 1] as int >= s[i] as int + (|s| - 1 - i)
    decreases |s| - i
  {
    if i < |s| - 1 {
      AscendingLeavesRoomBehind(s, i + 1);
      assert s[i] < s[i + 1];
    }
  }

  /** An ascending string as long as its range holds every character of it. */
  lemma RangeIsFull(s: string, first: char, last: char)
    requires Ascending(s) && s != [] && s[0] == first && s[|s| - 1] == last
    requires last as int - first as int == |s| - 1
    ensures forall c :: c in s <==> first <= c <= last
  {
    forall i | 0 <= i < |s| ensures s[i] as int == first as int + i {
      AscendingLeavesRoom(s, i);
      AscendingLeavesRoomBehind(s, i);
    }
    forall c: char | first <= c <= last ensures c in s {
      assert s[c as int - first as int] == c;
    }
  }

  lemma LettersEnd()
    ensures |DIGITS| == 10 && |UPPER_LETTERS| == 26 && |LOWER_LETTERS| == 26
    ensures LOWER_LETTERS[|LOWER_LETTERS| - 1] == 'z'
  {
  }

  /** The operator draws from the digits and the letters, all of them and nothing else. */
  lemma AlphabetExactly()
    ensures forall c :: c in Alphabet() <==> Alphanumeric(c)
  {
    LettersAscend();
    LettersEnd();
    RangeIsFull(DIGITS, '0', '9');
    RangeIsFull(UPPER_LETTERS, 'A', 'Z');
    RangeIsFull(LOWER_LETTERS, 'a', 'z');
    assert Alphabet() == DIGITS + UPPER_LETTERS + LOWER_LETTERS;
  }

  /** Every key is a password. */
  lemma KeyIsPassword(tape: Tape)
    ensures IsPassword(KeyOf(tape))
  {
    if DrawsOf(20) <= |tape| {
      var drawn := Drawn(tape, Alphabet(), 20);
      AlphabetExactly();
      BuildKeepsCharacters(drawn, Positions(tape, 20));
      SameCharacters(KeyOf(tape), drawn);
    }
  }

  /** The generator, as the operator calls it, delivers the key, and fails exactly when the source does before it. */
  lemma GeneratedIsKey(tape: Tape)
    ensures
      var p := Fill(tape, Alphabet(), 20, true, Progress("", 0, false));
      if DrawsOf(20) <= |tape| then !p.failed && p.password == KeyOf(tape) else p.failed
  {
    WithRepeats(tape, Alphabet(), 20);
  }

  lemma {:induction false} IndicesOf(choices: string, s: string) returns (indices: seq<nat>)
    requires forall c :: c in s ==> c in choices
    ensures |indices| == |s| && (forall i :: 0 <= i < |indices| ==> indices[i] < |choices|)
    ensures Picked(choices, indices) == s
  {
    if s == [] {
      indices := [];
    } else {
      var n := |s| - 1;
      indices := IndicesOf(choices, s[..n]);
      assert s[n] in s && s[n] in choices;
      var k: nat :| k < |choices| && choices[k] == s[n];
      indices := indices + [k];
      assert s == s[..n] + [s[n]];
    }
  }

  /** Every password is the key of some source: none is out of reach. */
  lemma EveryPasswordIsDrawn(s: string) returns (tape: Tape)
    requires IsPassword(s)
    ensures DrawsOf(20) <= |tape| && KeyOf(tape) == s
  {
    var positions := seq(20, _ => 0);
    var drawn := Unbuild(s, positions);
    BuildUndoesUnbuild(s, positions);
    BuildKeepsCharacters(drawn, positions);
    SameCharacters(s, drawn);
    AlphabetExactly();
    var indices := IndicesOf(Alphabet(), drawn);
    tape := TapeOf(indices, positions);
    EveryTapeIsDrawn(Alphabet(), indices, positions);
  }
}
