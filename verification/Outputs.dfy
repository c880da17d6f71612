// internal/judge/output.go: which outputs count as the expected one.
module Outputs {
  /** bytes.ReplaceAll of "\r\n" by "\n". */
  function ReplaceCrLf(s: string): string {
    if |s| < 2 then s
    else if s[0] == '\r' && s[1] == '\n' then ['\n'] + ReplaceCrLf(s[2..])
    else [s[0]] + ReplaceCrLf(s[1..])
  }

  function NormalizeOutput(s: string): string {
    var t := ReplaceCrLf(s);
    if t != "" && t[|t| - 1] == '\n' then t[..|t| - 1] else t
  }

  predicate OutputMatches(actual: string, expected: string) {
    NormalizeOutput(actual) == NormalizeOutput(expected)
  }

  // ------------------------------------------------------------------- replacement

  ghost predicate HasCrLf(s: string) {
    exists i :: 0 <= i < |s| - 1 && s[i] == '\r' && s[i + 1] == '\n'
  }

  lemma ReplaceFront(s: string)
    ensures s == "" ==> ReplaceCrLf(s) == ""
    ensures |s| >= 2 && s[0] == '\r' && s[1] == '\n' ==> ReplaceCrLf(s) == "\n" + ReplaceCrLf(s[2..])
    ensures s != "" && !(|s| >= 2 && s[0] == '\r' && s[1] == '\n') ==> ReplaceCrLf(s) == [s[0]] + ReplaceCrLf(s[1..])
  {
  }

  /** Texts are replaced piece by piece, unless a piece ends in the middle of a "\r\n". */
  lemma {:induction false} ReplaceConcat(x: string, t: string)
    requires !(x != "" && x[|x| - 1] == '\r' && t != "" && t[0] == '\n')
    ensures ReplaceCrLf(x + t) == ReplaceCrLf(x) + ReplaceCrLf(t)
    decreases |x|
  {
    hide ReplaceCrLf;
    var s := x + t;
    ReplaceFront(x);
    ReplaceFront(s);
    if x == "" {
      assert s == t;
    } else if |x| >= 2 && x[0] == '\r' && x[1] == '\n' {
      assert s[2..] == x[2..] + t;
      ReplaceConcat(x[2..], t);
      var rest := ReplaceCrLf(x[2..]);
      assert "\n" + (rest + ReplaceCrLf(t)) == ("\n" + rest) + ReplaceCrLf(t);
    } else {
      assert s[1..] == x[1..] + t;
      ReplaceConcat(x[1..], t);
      var rest := ReplaceCrLf(x[1..]);
      assert [x[0]] + (rest + ReplaceCrLf(t)) == ([x[0]] + rest) + ReplaceCrLf(t);
    }
  }

  /** Every "\r\n" becomes a "\n" where it stands. With `ReplaceLeaves` this fixes the
      replacement on all texts. */
  lemma ReplaceSplits(x: string, y: string)
    ensures ReplaceCrLf(x + "\r\n" + y) == ReplaceCrLf(x) + "\n" + ReplaceCrLf(y)
  {
    hide ReplaceCrLf;
    var t := "\r\n" + y;
    assert t[2..] == y && x + "\r\n" + y == x + t;
    ReplaceConcat(x, t);
    ReplaceFront(t);
    assert ReplaceCrLf(x) + ("\n" + ReplaceCrLf(y)) == ReplaceCrLf(x) + "\n" + ReplaceCrLf(y);
  }

  /** Nothing else changes. */
  lemma {:induction false} ReplaceLeaves(s: string)
    requires !HasCrLf(s)
    ensures ReplaceCrLf(s) == s
    decreases |s|
  {
    if |s| >= 2 {
      assert !(s[0] == '\r' && s[0 + 1] == '\n');
      forall i | 0 <= i < |s[1..]| - 1 ensures !(s[1..][i] == '\r' && s[1..][i + 1] == '\n') {
        assert !(s[i + 1] == '\r' && s[i + 1 + 1] == '\n');
      }
      ReplaceLeaves(s[1..]);
    }
  }

  // --------------------------------------------------------------------- comparison

  predicate EndsLine(s: string) {
    s != "" && s[|s| - 1] == '\n'
  }

  /** Equal, up to one final "\n" that only one of them has. */
  predicate SameLines(a: string, b: string) {
    a == b || (a == b + "\n" && !EndsLine(b)) || (b == a + "\n" && !EndsLine(a))
  }

  /** Outputs are compared after the replacement, up to one final "\n". */
  lemma MatchesIff(actual: string, expected: string)
    ensures OutputMatches(actual, expected) <==> SameLines(ReplaceCrLf(actual), ReplaceCrLf(expected))
  {
    var a, b := ReplaceCrLf(actual), ReplaceCrLf(expected);
    assert EndsLine(a) ==> a == a[..|a| - 1] + "\n";
    assert EndsLine(b) ==> b == b[..|b| - 1] + "\n";
    hide ReplaceCrLf;
    if a == b + "\n" { assert a[..|a| - 1] == b; }
    if b == a + "\n" { assert b[..|b| - 1] == a; }
  }

  /** Without any "\r\n": equal, or equal but for one final "\n" that one of them has
      and the other does not. */
  lemma PlainMatchesIff(actual: string, expected: string)
    requires !HasCrLf(actual) && !HasCrLf(expected)
    ensures OutputMatches(actual, expected)
      <==> || actual == expected
           || (actual == expected + "\n" && !(expected != "" && expected[|expected| - 1] == '\n'))
           || (expected == actual + "\n" && !(actual != "" && actual[|actual| - 1] == '\n'))
  {
    MatchesIff(actual, expected);
    ReplaceLeaves(actual);
    ReplaceLeaves(expected);
    hide ReplaceCrLf, OutputMatches;
  }

  /** A "\r\n" may be written as "\n" anywhere except behind another '\r'. */
  lemma LineEndsEquivalent(x: string, y: string, expected: string)
    requires x == "" || x[|x| - 1] != '\r'
    ensures OutputMatches(x + "\r\n" + y, expected) <==> OutputMatches(x + "\n" + y, expected)
    ensures OutputMatches(expected, x + "\r\n" + y) <==> OutputMatches(expected, x + "\n" + y)
  {
    hide ReplaceCrLf;
    ReplaceSplits(x, y);
    NewlineSplits(x, y);
  }

  lemma NewlineSplits(x: string, y: string)
    requires x == "" || x[|x| - 1] != '\r'
    ensures ReplaceCrLf(x + "\n" + y) == ReplaceCrLf(x) + "\n" + ReplaceCrLf(y)
  {
    hide ReplaceCrLf;
    var t := "\n" + y;
    assert t[1..] == y && x + "\n" + y == x + t;
    ReplaceConcat(x, t);
    ReplaceFront(t);
    assert ReplaceCrLf(x) + ("\n" + ReplaceCrLf(y)) == ReplaceCrLf(x) + "\n" + ReplaceCrLf(y);
  }

  // -------------------------------------------------------------- replacing beforehand

  lemma {:induction false} ReplaceShorter(s: string)
    ensures |ReplaceCrLf(s)| <= |s|
    ensures HasCrLf(s) ==> |ReplaceCrLf(s)| < |s|
    ensures EndsLine(ReplaceCrLf(s)) <==> EndsLine(s)
    decreases |s|
  {
    if |s| < 2 {
    } else if s[0] == '\r' && s[1] == '\n' {
      ReplaceShorter(s[2..]);
    } else {
      ReplaceShorter(s[1..]);
      if HasCrLf(s) {
        var i :| 0 <= i < |s| - 1 && s[i] == '\r' && s[i + 1] == '\n';
        assert i > 0 && s[1..][i - 1] == '\r' && s[1..][i - 1 + 1] == '\n';
      }
    }
  }

  /** "\r\r\n" stands at `i`. */
  predicate DoubledAt(s: string, i: int) {
    0 <= i < |s| - 2 && s[i] == '\r' && s[i + 1] == '\r' && s[i + 2] == '\n'
  }

  /** The replacement leaves a "\r\n" exactly if the text has two '\r' and a '\n' in a row. */
  lemma {:induction false} LeftOverIff(s: string)
    ensures HasCrLf(ReplaceCrLf(s)) <==> exists i :: DoubledAt(s, i)
    decreases |s|
  {
    if |s| < 2 {
    } else if s[0] == '\r' && s[1] == '\n' {
      LeftOverIff(s[2..]);
      ConsCrLf('\n', ReplaceCrLf(s[2..]));
      DoubledAfter(s, 2);
    } else {
      LeftOverIff(s[1..]);
      ConsCrLf(s[0], ReplaceCrLf(s[1..]));
      DoubledAfter(s, 1);
      FrontOf(s[1..]);
    }
  }

  lemma ConsCrLf(c: char, t: string)
    ensures HasCrLf([c] + t) <==> HasCrLf(t) || (c == '\r' && t != "" && t[0] == '\n')
  {
    var s := [c] + t;
    if HasCrLf(s) {
      var i :| 0 <= i < |s| - 1 && s[i] == '\r' && s[i + 1] == '\n';
      if i > 0 { assert t[i - 1] == '\r' && t[i - 1 + 1] == '\n'; }
    }
    if HasCrLf(t) {
      var i :| 0 <= i < |t| - 1 && t[i] == '\r' && t[i + 1] == '\n';
      assert s[i + 1] == '\r' && s[i + 1 + 1] == '\n';
    }
    if c == '\r' && t != "" && t[0] == '\n' { assert s[0] == '\r' && s[0 + 1] == '\n'; }
  }

  /** The first character of a replaced text. */
  lemma FrontOf(s: string)
    requires s != ""
    ensures var r := ReplaceCrLf(s);
      r != "" && (r[0] == '\n' <==> s[0] == '\n' || (|s| >= 2 && s[0] == '\r' && s[1] == '\n'))
  {
  }

  /** It stands at the front of a text or further on. */
  lemma DoubledAfter(s: string, k: nat)
    requires 1 <= k <= 2 <= |s| && (k == 2 ==> s[1] == '\n')
    ensures (exists i :: DoubledAt(s, i)) <==> DoubledAt(s, 0) || exists i :: DoubledAt(s[k..], i)
  {
    if i :| DoubledAt(s, i) {
      if i >= k { assert DoubledAt(s[k..], i - k); }
    }
    if i :| DoubledAt(s[k..], i) {
      assert DoubledAt(s, i + k);
    }
  }

  /** Replacing "\r\n" by "\n" in an output beforehand never changes the answer, exactly
      if it nowhere has two '\r' and a '\n' in a row. */
  lemma ReplacedBeforehandIff(actual: string)
    ensures (forall expected :: OutputMatches(ReplaceCrLf(actual), expected) <==> OutputMatches(actual, expected))
      <==> !exists i :: DoubledAt(actual, i)
  {
    var once := ReplaceCrLf(actual);
    LeftOverIff(actual);
    if !HasCrLf(once) {
      ReplaceLeaves(once);
    } else {
      ReplaceShorter(once);
      assert OutputMatches(once, once);
      assert |NormalizeOutput(once)| < |NormalizeOutput(actual)| by { hide ReplaceCrLf; }
      assert !OutputMatches(actual, once);
    }
  }
}
