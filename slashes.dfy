/**
 * The slash normaliser used for `location` and the three error-page paths:
 * an absent, falsy or exactly "/" value becomes "/"; any other string loses its
 * maximal run of leading '/' and then its maximal run of trailing '/'.
 */
module Slashes {
  import opened Utils

  /** All characters of `s` in `[lo, hi)` are '/'. */
  predicate AllSlashes(s: string, lo: int, hi: int)
    requires 0 <= lo <= hi <= |s|
  {
    forall k :: lo <= k < hi ==> s[k] == '/'
  }

  /** Drops a leading '/' as long as there is one. */
  function StripLeading(s: string): string
    decreases |s|
  {
    if |s| > 0 && s[0] == '/' then StripLeading(s[1..]) else s
  }

  /** Drops a trailing '/' as long as there is one. */
  function StripTrailing(s: string): string
    decreases |s|
  {
    if |s| > 0 && s[|s| - 1] == '/' then StripTrailing(s[..|s| - 1]) else s
  }

  /** Length of the leading run of '/' in `s`. */
  function LeadingRun(s: string): int
  {
    |s| - |StripLeading(s)|
  }

  /**
   * The first loop removes exactly the maximal leading run of '/': what is
   * left is the suffix after a run of '/', and it does not start with '/'.
   */
  lemma {:induction false} StripLeadingSpec(s: string)
    ensures var r := StripLeading(s); var i := LeadingRun(s);
      && 0 <= i <= |s| && r == s[i..] && AllSlashes(s, 0, i)
      && (i < |s| ==> s[i] != '/')
    decreases |s|
  {
    if |s| > 0 && s[0] == '/' {
      var t := s[1..];
      StripLeadingSpec(t);
      var i := LeadingRun(t);
      assert StripLeading(s) == StripLeading(t) && LeadingRun(s) == i + 1;
      assert t[i..] == s[i + 1..];
      forall k | 0 <= k < i + 1 ensures s[k] == '/' {
        if k > 0 {
          assert s[k] == t[k - 1];
        }
      }
    }
  }

  /**
   * The second loop removes exactly the maximal trailing run of '/': what is
   * left is the prefix before a run of '/', and it does not end with '/'.
   */
  lemma {:induction false} StripTrailingSpec(s: string)
    ensures var r := StripTrailing(s);
      && |r| <= |s| && r == s[..|r|] && AllSlashes(s, |r|, |s|)
      && (|r| > 0 ==> s[|r| - 1] != '/')
    decreases |s|
  {
    if |s| > 0 && s[|s| - 1] == '/' {
      var t := s[..|s| - 1];
      StripTrailingSpec(t);
      var r := StripTrailing(t);
      assert StripTrailing(s) == r;
      assert t[..|r|] == s[..|r|];
      forall k | |r| <= k < |s| ensures s[k] == '/' {
        if k < |t| {
          assert s[k] == t[k];
        }
      }
    }
  }

  /** `s` with its maximal leading, then its maximal trailing, run of '/' removed. */
  function StripOuter(s: string): (r: string)
    ensures r == "" || (r[0] != '/' && r[|r| - 1] != '/')
  {
    var t := StripLeading(s);
    var r := StripTrailing(t);
    StripLeadingSpec(s);
    StripTrailingSpec(t);
    assert r != [] ==> r[0] == t[0] && r[|r| - 1] == t[|r| - 1];
    r
  }

  /** The value `removeOuterSlashes` returns for `url`. */
  function OuterSlashesRemoved(url: Value): (r: string)
    requires StringOrFalsy(url)
    ensures r == "/" || r == "" || (r[0] != '/' && r[|r| - 1] != '/')
  {
    if url == Str("/") || !Truthy(url) then "/" else StripOuter(url.s)
  }

  /**
   * For a string other than "" and "/", the result is a contiguous piece of
   * the input: only '/' precede it and only '/' follow it.
   */
  lemma OuterSlashesRemovedIsInfix(s: string)
    requires s != "" && s != "/"
    ensures var r := OuterSlashesRemoved(Str(s)); var i := LeadingRun(s);
      0 <= i && i + |r| <= |s| && r == s[i..i + |r|] && AllSlashes(s, 0, i) && AllSlashes(s, i + |r|, |s|)
  {
    assert OuterSlashesRemoved(Str(s)) == StripOuter(s);
    StripOuterIsInfix(s);
  }

  /** The same for the two loops alone, on every string. */
  lemma StripOuterIsInfix(s: string)
    ensures var r := StripOuter(s); var i := LeadingRun(s);
      0 <= i && i + |r| <= |s| && r == s[i..i + |r|] && AllSlashes(s, 0, i) && AllSlashes(s, i + |r|, |s|)
  {
    StripLeadingSpec(s);
    var t := StripLeading(s);
    var i := LeadingRun(s);
    StripTrailingSpec(t);
    var r := StripTrailing(t);
    assert r == s[i..i + |r|];
    forall k | i + |r| <= k < |s| ensures s[k] == '/' {
      assert s[k] == t[k - i];
    }
  }

  /**
   * The result is THE piece left between a leading and a trailing run of '/':
   * any split of `s` into slashes, a middle that neither starts nor ends with
   * '/', and slashes, has the result as its middle.
   */
  lemma OuterSlashesRemovedUnique(s: string, i: nat, j: nat)
    requires s != "" && s != "/"
    requires i <= j <= |s| && AllSlashes(s, 0, i) && AllSlashes(s, j, |s|)
    requires i == j || (s[i] != '/' && s[j - 1] != '/')
    ensures OuterSlashesRemoved(Str(s)) == s[i..j]
  {
    assert OuterSlashesRemoved(Str(s)) == StripOuter(s);
    StripOuterUnique(s, i, j);
  }

  /** The same uniqueness for the two loops alone, on every string. */
  lemma StripOuterUnique(s: string, i: nat, j: nat)
    requires i <= j <= |s| && AllSlashes(s, 0, i) && AllSlashes(s, j, |s|)
    requires i == j || (s[i] != '/' && s[j - 1] != '/')
    ensures StripOuter(s) == s[i..j]
  {
    StripLeadingSpec(s);
    var t := StripLeading(s);
    var m := LeadingRun(s);
    if i == j {
      // every character is '/', so the leading run covers the whole string
      assert AllSlashes(s, 0, |s|);
      RunsMeet(s, m, |s|);
      assert t == [];
    } else {
      RunsMeet(s, m, i);
      assert t == s[i..];
      StripTrailingSpec(t);
      var r := StripTrailing(t);
      TrailingRunOfSuffix(s, i, j);
      assert t[j - i - 1] == s[j - 1];
      TailRunsMeet(t, |r|, j - i);
      assert r == t[..j - i];
    }
  }

  /** A trailing run of '/' in `s` is one in every suffix `s[i..]` that contains it. */
  lemma TrailingRunOfSuffix(s: string, i: nat, j: nat)
    requires i <= j <= |s| && AllSlashes(s, j, |s|)
    ensures AllSlashes(s[i..], j - i, |s| - i)
  {
    var t := s[i..];
    forall k | j - i <= k < |t| ensures t[k] == '/' {
      assert t[k] == s[k + i];
    }
  }

  /** Two ends of a leading run of '/' that stop at a non-'/' (or the end) coincide. */
  lemma RunsMeet(s: string, a: nat, b: nat)
    requires a <= |s| && b <= |s| && AllSlashes(s, 0, a) && AllSlashes(s, 0, b)
    requires a < |s| ==> s[a] != '/'
    requires b < |s| ==> s[b] != '/'
    ensures a == b
  {
  }

  /** Two starts of a trailing run of '/' that stop at a non-'/' (or the start) coincide. */
  lemma TailRunsMeet(s: string, a: nat, b: nat)
    requires a <= |s| && b <= |s| && AllSlashes(s, a, |s|) && AllSlashes(s, b, |s|)
    requires a > 0 ==> s[a - 1] != '/'
    requires b > 0 ==> s[b - 1] != '/'
    ensures a == b
  {
  }

  /** Normalising a non-empty result again gives it back. */
  lemma IdempotentOnNonEmpty(url: Value)
    requires StringOrFalsy(url)
    requires OuterSlashesRemoved(url) != ""
    ensures OuterSlashesRemoved(Str(OuterSlashesRemoved(url))) == OuterSlashesRemoved(url)
  {
    var r := OuterSlashesRemoved(url);
    if r != "/" {
      assert r[0] != '/' && r[|r| - 1] != '/';
      assert AllSlashes(r, 0, 0) && AllSlashes(r, |r|, |r|);
      StripOuterUnique(r, 0, |r|);
      assert r[0..|r|] == r;
      assert Truthy(Str(r));
    }
  }

  /** A string of two or more '/' normalises to the empty string. */
  lemma AllSlashesBecomeEmpty(s: string)
    requires |s| >= 2 && AllSlashes(s, 0, |s|)
    ensures OuterSlashesRemoved(Str(s)) == ""
  {
    assert s != "/" by { assert |"/"| == 1; }
    OuterSlashesRemovedUnique(s, 0, 0);
  }

  /** So normalisation is not idempotent: "//" gives "", and "" gives "/". */
  lemma NotIdempotentOnAllSlashes()
    ensures OuterSlashesRemoved(Str("//")) == ""
    ensures OuterSlashesRemoved(Str("")) == "/"
    ensures OuterSlashesRemoved(Str(OuterSlashesRemoved(Str("//")))) != OuterSlashesRemoved(Str("//"))
  {
    AllSlashesBecomeEmpty("//");
  }

  /** Worked values: an absent value and "/" both give "/". */
  lemma Examples()
    ensures OuterSlashesRemoved(Undefined) == "/"
    ensures OuterSlashesRemoved(Str("/")) == "/"
  {
  }

  /** Interior slashes survive: "//foo/bar//" gives "foo/bar". */
  lemma InteriorSlashesKept(s: string)
    requires s == "//foo/bar//"
    ensures OuterSlashesRemoved(Str(s)) == "foo/bar"
  {
    assert |s| == 11 && s[0] == '/' && s[1] == '/' && s[9] == '/' && s[10] == '/';
    assert s[2] == 'f' && s[8] == 'r';
    assert AllSlashes(s, 0, 2) && AllSlashes(s, 9, 11);
    OuterSlashesRemovedUnique(s, 2, 9);
    assert s[2..9] == "foo/bar";
  }
}
