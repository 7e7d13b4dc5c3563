/**
 * The JavaScript string operations the analyzer relies on, over `seq<char>`:
 * `startsWith`, `endsWith`, `includes`, `indexOf`, `lastIndexOf`, `replace` with a
 * string pattern, `join`, ASCII `toLowerCase`, and the decimal rendering of a number
 * inside a template literal.
 */
module Strings {

  /** `s.startsWith(p)` */
  predicate StartsWith(s: string, p: string) {
    |p| <= |s| && s[..|p|] == p
  }

  /** `s.endsWith(p)` */
  predicate EndsWith(s: string, p: string) {
    |p| <= |s| && s[|s| - |p|..] == p
  }

  /** p occurs in s starting at index i. */
  predicate OccursAt(s: string, p: string, i: nat) {
    i + |p| <= |s| && s[i..i + |p|] == p
  }

  /** `s.includes(p)` */
  predicate Contains(s: string, p: string)
    decreases |s|
  {
    StartsWith(s, p) || (s != [] && Contains(s[1..], p))
  }

  /** Dropping the first character shifts every occurrence left by one. */
  lemma OccursAtTail(s: string, p: string, j: nat)
    requires s != []
    ensures OccursAt(s[1..], p, j) <==> OccursAt(s, p, j + 1)
  {
    if j + 1 + |p| <= |s| {
      assert s[1..][j..j + |p|] == s[j + 1..j + 1 + |p|];
    }
  }

  /** `includes` holds exactly when there is an index where p occurs. */
  lemma {:induction false} ContainsOccurs(s: string, p: string)
    ensures Contains(s, p) <==> exists i: nat :: OccursAt(s, p, i)
    decreases |s|
  {
    assert StartsWith(s, p) <==> OccursAt(s, p, 0);
    if s != [] {
      ContainsOccurs(s[1..], p);
      if exists i: nat :: OccursAt(s, p, i) {
        var i: nat :| OccursAt(s, p, i);
        if i > 0 {
          OccursAtTail(s, p, i - 1);
        }
      }
      if exists j: nat :: OccursAt(s[1..], p, j) {
        var j: nat :| OccursAt(s[1..], p, j);
        OccursAtTail(s, p, j);
      }
    } else {
      if exists i: nat :: OccursAt(s, p, i) {
        var i: nat :| OccursAt(s, p, i);
        assert i == 0;
      }
    }
  }

  /** A substring of a substring is a substring: `s.includes(q) && q.includes(p)` gives `s.includes(p)`. */
  lemma ContainsTransitive(s: string, q: string, p: string)
    requires Contains(s, q) && Contains(q, p)
    ensures Contains(s, p)
  {
    ContainsOccurs(s, q);
    ContainsOccurs(q, p);
    var i: nat :| OccursAt(s, q, i);
    var j: nat :| OccursAt(q, p, j);
    forall k | 0 <= k < |p| ensures s[i + j..i + j + |p|][k] == p[k] {
      assert s[i + j..i + j + |p|][k] == s[i..i + |q|][j + k] == q[j..j + |p|][k];
    }
    assert s[i + j..i + j + |p|] == p;
    assert OccursAt(s, p, i + j);
    ContainsOccurs(s, p);
  }

  /**
   * `s.indexOf(p)`: the first index at which p occurs, or -1 when it does not occur.
   */
  function IndexOf(s: string, p: string): (r: int)
    ensures -1 <= r <= |s|
    ensures r >= 0 <==> Contains(s, p)
    ensures r >= 0 ==> OccursAt(s, p, r)
    ensures forall j: nat :: j < r || (r < 0 && j <= |s|) ==> !OccursAt(s, p, j)
    decreases |s|
  {
    if StartsWith(s, p) then 0
    else if s == [] then -1
    else
      var k := IndexOf(s[1..], p);
      assert forall j: nat :: OccursAt(s[1..], p, j) <==> OccursAt(s, p, j + 1) by {
        forall j: nat ensures OccursAt(s[1..], p, j) <==> OccursAt(s, p, j + 1) {
          OccursAtTail(s, p, j);
        }
      }
      assert forall j: nat :: j > 0 ==> (OccursAt(s, p, j) <==> OccursAt(s[1..], p, j - 1));
      if k < 0 then -1 else k + 1
  }

  /**
   * `s.replace(p, x)` with a string pattern: only the FIRST occurrence of p is replaced
   * (replacement text is taken literally; JavaScript's `$` patterns are not modelled).
   */
  function ReplaceFirst(s: string, p: string, x: string): (r: string)
    ensures !Contains(s, p) ==> r == s
    ensures Contains(s, p) ==> |r| == |s| - |p| + |x|
  {
    var i := IndexOf(s, p);
    if i < 0 then s else s[..i] + x + s[i + |p|..]
  }

  /**
   * When the first character of p does not occur in a, the first occurrence of p in
   * a + p + b is the one right after a, so exactly that one is replaced.
   */
  lemma ReplaceFirstAfter(a: string, p: string, b: string, x: string)
    requires p != [] && p[0] !in a
    ensures ReplaceFirst(a + p + b, p, x) == a + x + b
  {
    var s := a + p + b;
    assert s[|a|..|a| + |p|] == p;
    assert OccursAt(s, p, |a|);
    ContainsOccurs(s, p);
    var i := IndexOf(s, p);
    assert i == |a|;
    assert s[..i] == a;
    assert s[i + |p|..] == b;
  }

  /** `s.lastIndexOf([c])`: the last index holding c, or -1. */
  function LastIndexOf(s: string, c: char): (r: int)
    ensures -1 <= r < |s|
    ensures r >= 0 ==> s[r] == c
    ensures forall j :: r < j < |s| ==> s[j] != c
  {
    if s == [] then -1
    else if s[|s| - 1] == c then |s| - 1
    else LastIndexOf(s[..|s| - 1], c)
  }

  /** `parts.join(sep)` */
  function Join(parts: seq<string>, sep: string): string
    decreases |parts|
  {
    if |parts| == 0 then ""
    else if |parts| == 1 then parts[0]
    else parts[0] + sep + Join(parts[1..], sep)
  }

  /** How many times c occurs in s. */
  function Count(s: string, c: char): nat {
    if s == [] then 0
    else (if s[0] == c then 1 else 0) + Count(s[1..], c)
  }

  /** Count is additive over concatenation. */
  lemma {:induction false} CountAppend(a: string, b: string, c: char)
    ensures Count(a + b, c) == Count(a, c) + Count(b, c)
  {
    if a == [] {
      assert a + b == b;
    } else {
      assert (a + b)[1..] == a[1..] + b;
      CountAppend(a[1..], b, c);
    }
  }

  /** A string counts no c exactly when c is not in it. */
  lemma {:induction false} CountZero(s: string, c: char)
    ensures Count(s, c) == 0 <==> c !in s
  {
    if s != [] {
      CountZero(s[1..], c);
      assert s == [s[0]] + s[1..];
    }
  }

  /** ASCII lower-casing of one character. */
  function LowerChar(c: char): char {
    if 'A' <= c <= 'Z' then (c as int + 32) as char else c
  }

  /** `s.toLowerCase()`, restricted to ASCII letters. */
  function ToLower(s: string): (r: string)
    ensures |r| == |s|
    ensures forall i :: 0 <= i < |s| ==> r[i] == LowerChar(s[i])
  {
    seq(|s|, i requires 0 <= i < |s| => LowerChar(s[i]))
  }

  predicate IsDigit(c: char) {
    '0' as int <= c as int <= '9' as int
  }

  function DigitChar(d: nat): (c: char)
    requires d < 10
    ensures IsDigit(c) && c as int - '0' as int == d
  {
    ('0' as int + d) as char
  }

  /** The decimal rendering of n, as `${n}` gives it for a non-negative integer. */
  function NatToString(n: nat): (r: string)
    ensures r != []
    ensures forall i :: 0 <= i < |r| ==> IsDigit(r[i])
    ensures |r| > 1 ==> r[0] != '0'
    decreases n
  {
    if n < 10 then [DigitChar(n)] else NatToString(n / 10) + [DigitChar(n % 10)]
  }

  /** The number a string of decimal digits denotes. */
  function DigitsValue(s: string): nat
    requires forall i :: 0 <= i < |s| ==> IsDigit(s[i])
  {
    if s == [] then 0
    else
      assert IsDigit(s[|s| - 1]);
      DigitsValue(s[..|s| - 1]) * 10 + (s[|s| - 1] as int - '0' as int)
  }

  /** Reading back the rendering of n gives n. */
  lemma {:induction false} NatToStringRoundTrip(n: nat)
    ensures DigitsValue(NatToString(n)) == n
    decreases n
  {
    if n >= 10 {
      var s := NatToString(n);
      assert s[..|s| - 1] == NatToString(n / 10);
      NatToStringRoundTrip(n / 10);
    }
  }
}
