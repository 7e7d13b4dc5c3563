/** Sequence helpers standing for JavaScript's `Array.prototype.filter`, `slice` and friends. */
module Seqs {

  /** `s.slice(0, k)`: the first k elements, or all of them when there are fewer. */
  function Take<T>(s: seq<T>, k: nat): (r: seq<T>)
    ensures |r| == if k <= |s| then k else |s|
    ensures r <= s
  {
    if k <= |s| then s[..k] else s
  }

  /** No element occurs twice. */
  predicate NoDuplicates<T(==)>(s: seq<T>) {
    forall i, j :: 0 <= i < j < |s| ==> s[i] != s[j]
  }

  /** `s.filter(p)`: the elements satisfying p, in their original order. */
  function Filter<T(==,!new)>(s: seq<T>, p: T -> bool): (r: seq<T>)
    ensures |r| <= |s|
    ensures forall x :: x in r <==> x in s && p(x)
  {
    if s == [] then []
    else if p(s[0]) then [s[0]] + Filter(s[1..], p)
    else Filter(s[1..], p)
  }

  /** Filtering distributes over concatenation, so it keeps the input order. */
  lemma {:induction false} FilterAppend<T(!new)>(a: seq<T>, b: seq<T>, p: T -> bool)
    ensures Filter(a + b, p) == Filter(a, p) + Filter(b, p)
  {
    if a == [] {
      assert a + b == b;
    } else {
      assert (a + b)[1..] == a[1..] + b;
      FilterAppend(a[1..], b, p);
    }
  }

  /** A filter of a duplicate-free sequence is duplicate-free. */
  lemma {:induction false} FilterNoDuplicates<T(!new)>(s: seq<T>, p: T -> bool)
    requires NoDuplicates(s)
    ensures NoDuplicates(Filter(s, p))
  {
    if s != [] {
      assert NoDuplicates(s[1..]) by {
        forall i, j | 0 <= i < j < |s[1..]| ensures s[1..][i] != s[1..][j] {
          assert s[1..][i] == s[i + 1] && s[1..][j] == s[j + 1];
        }
      }
      FilterNoDuplicates(s[1..], p);
      assert s[0] !in s[1..] by {
        forall k | 0 <= k < |s[1..]| ensures s[1..][k] != s[0] {
          assert s[1..][k] == s[k + 1];
        }
      }
    }
  }

  /** r is obtained from s by deleting elements, so r keeps the order of s. */
  predicate IsSubsequence<T(==)>(r: seq<T>, s: seq<T>)
    decreases |s|
  {
    r == [] ||
    (s != [] && ((r[0] == s[0] && IsSubsequence(r[1..], s[1..])) || IsSubsequence(r, s[1..])))
  }

  /** A filter keeps the order of its input. */
  lemma {:induction false} FilterSubsequence<T(!new)>(s: seq<T>, p: T -> bool)
    ensures IsSubsequence(Filter(s, p), s)
  {
    if s != [] {
      FilterSubsequence(s[1..], p);
      if p(s[0]) {
        var r := Filter(s, p);
        assert r[0] == s[0] && r[1..] == Filter(s[1..], p);
      }
    }
  }

  /** A prefix of a subsequence is a subsequence. */
  lemma {:induction false} SubsequencePrefix<T>(r: seq<T>, s: seq<T>, k: nat)
    requires IsSubsequence(r, s) && k <= |r|
    ensures IsSubsequence(r[..k], s)
    decreases |s|
  {
    if k > 0 {
      if r[0] == s[0] && IsSubsequence(r[1..], s[1..]) {
        SubsequencePrefix(r[1..], s[1..], k - 1);
        assert r[..k][1..] == r[1..][..k - 1];
      } else {
        SubsequencePrefix(r, s[1..], k);
      }
    }
  }

  /** A prefix of a duplicate-free sequence is duplicate-free. */
  lemma NoDuplicatesPrefix<T>(s: seq<T>, k: nat)
    requires NoDuplicates(s) && k <= |s|
    ensures NoDuplicates(s[..k])
  {
    forall i, j | 0 <= i < j < k ensures s[..k][i] != s[..k][j] {
      assert s[..k][i] == s[i] && s[..k][j] == s[j];
    }
  }

  /** Appending duplicate-free elements none of which is already present keeps a sequence duplicate-free. */
  lemma NoDuplicatesAppend<T>(a: seq<T>, b: seq<T>)
    requires NoDuplicates(a) && NoDuplicates(b)
    requires forall x :: x in b ==> x !in a
    ensures NoDuplicates(a + b)
  {
    forall i, j | 0 <= i < j < |a + b| ensures (a + b)[i] != (a + b)[j] {
      if j >= |a| && i < |a| {
        assert (a + b)[j] == b[j - |a|];
        assert b[j - |a|] in b;
      } else if i >= |a| {
        assert (a + b)[i] == b[i - |a|] && (a + b)[j] == b[j - |a|];
      }
    }
  }

  /** `s.find(p)` from index k on: the first element there satisfying p, or `none` when there is none. */
  function FindFrom<T>(s: seq<T>, p: T -> bool, k: nat, none: T): T
    requires k <= |s|
    decreases |s| - k
  {
    if k == |s| then none else if p(s[k]) then s[k] else FindFrom(s, p, k + 1, none)
  }

  /**
   * A found element is the earliest one from index k on that satisfies p, and when `none`
   * is not itself an element, `none` comes back exactly when nothing from k on satisfies p.
   */
  lemma {:induction false} FindFromIsFirst<T>(s: seq<T>, p: T -> bool, k: nat, none: T)
    requires k <= |s|
    ensures var r := FindFrom(s, p, k, none);
      && (r != none ==> exists i :: k <= i < |s| && s[i] == r && p(r) && forall j :: k <= j < i ==> !p(s[j]))
      && (none !in s ==> (r == none <==> forall j :: k <= j < |s| ==> !p(s[j])))
    decreases |s| - k
  {
    if k < |s| && !p(s[k]) {
      FindFromIsFirst(s, p, k + 1, none);
      var r := FindFrom(s, p, k + 1, none);
      if r != none {
        var i :| k + 1 <= i < |s| && s[i] == r && p(r) && forall j :: k + 1 <= j < i ==> !p(s[j]);
        assert forall j :: k <= j < i ==> !p(s[j]);
      }
    }
  }

  /** Taking the first k matches is filtering some prefix of s. */
  lemma {:induction false} TakeFilterPrefix<T(!new)>(s: seq<T>, p: T -> bool, k: nat)
    ensures exists n :: 0 <= n <= |s| && Take(Filter(s, p), k) == Filter(s[..n], p)
  {
    if k == 0 || s == [] {
      assert Take(Filter(s, p), k) == Filter(s[..0], p);
    } else {
      var k' := if p(s[0]) then k - 1 else k;
      TakeFilterPrefix(s[1..], p, k');
      var n :| 0 <= n <= |s[1..]| && Take(Filter(s[1..], p), k') == Filter(s[1..][..n], p);
      assert s[..n + 1][1..] == s[1..][..n];
      assert Take(Filter(s, p), k) == Filter(s[..n + 1], p);
    }
  }

  /**
   * `s.filter(p).slice(0, k)`: elements of s satisfying p, in order, each once when s has
   * no duplicates; fewer than k only when every element satisfying p was taken.
   */
  lemma TakeFilter<T(!new)>(s: seq<T>, p: T -> bool, k: nat)
    ensures var r := Take(Filter(s, p), k);
      && (forall x :: x in r ==> x in s && p(x))
      && (|r| < k ==> forall x :: x in s && p(x) ==> x in r)
      && IsSubsequence(r, s)
      && (NoDuplicates(s) ==> NoDuplicates(r))
      && (exists n :: 0 <= n <= |s| && r == Filter(s[..n], p))
  {
    TakeFilterPrefix(s, p, k);
    var all := Filter(s, p);
    var r := Take(all, k);
    assert forall x :: x in r ==> x in all;
    FilterSubsequence(s, p);
    SubsequencePrefix(all, s, |r|);
    assert all[..|r|] == r;
    if NoDuplicates(s) {
      FilterNoDuplicates(s, p);
      NoDuplicatesPrefix(all, |r|);
    }
  }
}
