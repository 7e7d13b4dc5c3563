/**
 * `parseGitHubUrl` from src/lib/github.ts: the first match of the unanchored regular
 * expression `github\.com\/([^\/]+)\/([^\/]+)`, with the first ".git" of the second
 * group removed. The Octokit calls of that file are not part of this model.
 */
module GitHub {
  import opened Wrappers
  import opened Strings

  datatype RepoRef = RepoRef(owner: string, repo: string)

  /** The literal part of the pattern, `github\.com\/`. */
  const Host: string := "github.com/"

  /** The end of the run of non-'/' characters that starts at i: what `[^\/]+` consumes greedily. */
  function SegmentEnd(s: string, i: nat): (e: nat)
    requires i <= |s|
    ensures i <= e <= |s|
    ensures forall k :: i <= k < e ==> s[k] != '/'
    ensures e < |s| ==> s[e] == '/'
    decreases |s| - i
  {
    if i == |s| || s[i] == '/' then i else SegmentEnd(s, i + 1)
  }

  /**
   * The pattern matches at index i: "github.com/", a non-empty run without '/', a '/',
   * and another non-empty run without '/'. Backtracking cannot help a greedy `[^\/]+`
   * that must be followed by '/', so the runs are the maximal ones.
   */
  predicate MatchesAt(s: string, i: nat) {
    OccursAt(s, Host, i) &&
    var e1 := SegmentEnd(s, i + |Host|);
    e1 > i + |Host| && e1 < |s| && SegmentEnd(s, e1 + 1) > e1 + 1
  }

  /** Capture group 1: the owner segment of a match at i. */
  function OwnerGroup(s: string, i: nat): string
    requires MatchesAt(s, i)
  {
    s[i + |Host|..SegmentEnd(s, i + |Host|)]
  }

  /** Capture group 2: the repository segment of a match at i. */
  function RepoGroup(s: string, i: nat): string
    requires MatchesAt(s, i)
  {
    var e1 := SegmentEnd(s, i + |Host|);
    s[e1 + 1..SegmentEnd(s, e1 + 1)]
  }

  /** The leftmost index at or after i where the pattern matches. */
  function FirstMatch(s: string, i: nat): (r: Option<nat>)
    requires i <= |s|
    ensures r.Some? ==> i <= r.value <= |s| && MatchesAt(s, r.value)
    ensures forall k :: i <= k <= |s| && (r.None? || k < r.value) ==> !MatchesAt(s, k)
    decreases |s| - i
  {
    if MatchesAt(s, i) then Some(i)
    else if i == |s| then None
    else FirstMatch(s, i + 1)
  }

  /**
   * `parseGitHubUrl(url)`: null when the pattern matches nowhere; otherwise the owner
   * group and the repository group with its first ".git" removed, taken from the
   * leftmost match.
   */
  function ParseGitHubUrl(url: string): (r: Option<RepoRef>)
    ensures r.None? <==> forall k :: 0 <= k <= |url| ==> !MatchesAt(url, k)
    ensures r.Some? ==> r.value.owner != [] && '/' !in r.value.owner
    ensures r.Some? ==>
      (exists k :: 0 <= k <= |url| && MatchesAt(url, k) &&
        (forall j :: 0 <= j < k ==> !MatchesAt(url, j)) &&
        r.value.owner == OwnerGroup(url, k) &&
        r.value.repo == ReplaceFirst(RepoGroup(url, k), ".git", ""))
  {
    match FirstMatch(url, 0)
    case None => None
    case Some(k) => Some(RepoRef(OwnerGroup(url, k), ReplaceFirst(RepoGroup(url, k), ".git", "")))
  }

  /** A greedy `[^\/]+` run from i stops exactly at the first '/' or at the end. */
  lemma SegmentEndOfRun(s: string, i: nat, e: nat)
    requires i <= e <= |s|
    requires forall k :: i <= k < e ==> s[k] != '/'
    requires e == |s| || s[e] == '/'
    ensures SegmentEnd(s, i) == e
  {
  }

  /** No match can start inside a prefix that holds no 'g'. */
  lemma NoMatchInside(s: string, lead: string)
    requires lead <= s && 'g' !in lead
    ensures forall k :: 0 <= k < |lead| ==> !MatchesAt(s, k)
  {
    forall k | 0 <= k < |lead| ensures !MatchesAt(s, k) {
      assert s[k] == lead[k];
    }
  }

  /** A segment without '/' at `start`, followed by the end or by '/', is exactly one greedy run. */
  lemma SegmentAt(s: string, start: nat, seg: string)
    requires start + |seg| <= |s| && s[start..start + |seg|] == seg
    requires '/' !in seg && (start + |seg| == |s| || s[start + |seg|] == '/')
    ensures SegmentEnd(s, start) == start + |seg|
  {
    forall j | start <= j < start + |seg| ensures s[j] != '/' {
      assert s[j] == seg[j - start];
    }
    SegmentEndOfRun(s, start, start + |seg|);
  }

  /** The parse is read off the leftmost match. */
  lemma ParseAtFirstMatch(s: string, k: nat)
    requires k <= |s| && MatchesAt(s, k)
    requires forall j :: 0 <= j < k ==> !MatchesAt(s, j)
    ensures ParseGitHubUrl(s) == Some(RepoRef(OwnerGroup(s, k), ReplaceFirst(RepoGroup(s, k), ".git", "")))
  {
    assert FirstMatch(s, 0) == Some(k);
  }

  /** Where the pieces of lead + "github.com/" + owner + "/" + repo + tail sit. */
  lemma EmbeddedPieces(s: string, lead: string, owner: string, repo: string, tail: string)
    requires s == lead + Host + owner + "/" + repo + tail
    requires tail == [] || tail[0] == '/'
    ensures var k1 := |lead| + |Host|; var e1 := k1 + |owner|; var e2 := e1 + 1 + |repo|;
      OccursAt(s, Host, |lead|) && s[k1..e1] == owner && s[e1] == '/' &&
      e2 <= |s| && s[e1 + 1..e2] == repo && (e2 == |s| || s[e2] == '/')
  {
    assert s == lead + Host + owner + ("/" + repo + tail);
    assert s == (lead + Host + owner + "/") + repo + tail;
  }

  /** "github.com/owner/repo" after a lead and before a tail is a match with those two groups. */
  lemma MatchEmbedded(s: string, lead: string, owner: string, repo: string, tail: string)
    requires s == lead + Host + owner + "/" + repo + tail
    requires owner != [] && '/' !in owner
    requires repo != [] && '/' !in repo
    requires tail == [] || tail[0] == '/'
    ensures MatchesAt(s, |lead|) && OwnerGroup(s, |lead|) == owner && RepoGroup(s, |lead|) == repo
  {
    EmbeddedPieces(s, lead, owner, repo, tail);
    var k1 := |lead| + |Host|;
    var e1 := k1 + |owner|;
    SegmentAt(s, k1, owner);
    SegmentAt(s, e1 + 1, repo);
  }

  /**
   * The match is unanchored and ignores what follows the repository segment: any text
   * without a 'g' may come before "github.com/", and anything starting with '/' after it.
   */
  lemma ParseEmbedded(lead: string, owner: string, repo: string, tail: string)
    requires 'g' !in lead
    requires owner != [] && '/' !in owner
    requires repo != [] && '/' !in repo
    requires tail == [] || tail[0] == '/'
    ensures ParseGitHubUrl(lead + Host + owner + "/" + repo + tail)
         == Some(RepoRef(owner, ReplaceFirst(repo, ".git", "")))
  {
    var s := lead + Host + owner + "/" + repo + tail;
    MatchEmbedded(s, lead, owner, repo, tail);
    assert s == lead + (Host + owner + "/" + repo + tail);
    NoMatchInside(s, lead);
    ParseAtFirstMatch(s, |lead|);
  }

  lemma SchemeHasNoG()
    ensures 'g' !in "https://"
  {
  }

  /** Round trip: the canonical URL of an owner and a repository name parses back to them. */
  lemma ParseRoundTrip(owner: string, repo: string)
    requires owner != [] && '/' !in owner
    requires repo != [] && '/' !in repo && !Contains(repo, ".git")
    ensures ParseGitHubUrl("https://" + Host + owner + "/" + repo) == Some(RepoRef(owner, repo))
  {
    SchemeHasNoG();
    ParseEmbedded("https://", owner, repo, "");
    assert "https://" + Host + owner + "/" + repo + "" == "https://" + Host + owner + "/" + repo;
  }

  /**
   * Only the first ".git" of the repository segment is removed, wherever it stands:
   * "x.git.git" names the repository "x.git", and ".git" alone names "".
   */
  lemma RepoStripsFirstGitOnly(name: string, rest: string)
    requires '.' !in name
    ensures ReplaceFirst(name + ".git" + rest, ".git", "") == name + rest
  {
    ReplaceFirstAfter(name, ".git", rest, "");
    assert name + "" + rest == name + rest;
  }
}
