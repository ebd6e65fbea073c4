/**
  The SSO challenge resolver: `SSOURL` applies the regular expression
  `\burl=([^;]+)` (RE2 semantics, ASCII `\b`) to the captured `X-GitHub-SSO`
  header value and returns the first capture group of the leftmost match,
  or "" when the header is empty or nothing matches.
 */
module Sso {
  import opened Wrappers

  /** The literal text the pattern needs in front of its capture group. */
  const Key := "url="

  /** `\w` in RE2: an ASCII letter, digit or underscore. */
  predicate IsWordChar(ch: char)
  {
    ('a' <= ch <= 'z') || ('A' <= ch <= 'Z') || ('0' <= ch <= '9') || ch == '_'
  }

  /** Position `i` of `s` holds a word character; positions outside `s` do not. */
  predicate WordAt(s: string, i: int)
  {
    0 <= i < |s| && IsWordChar(s[i])
  }

  /** `\b` holds between `s[i-1]` and `s[i]`: a word character on exactly one side. */
  predicate WordBoundary(s: string, i: int)
  {
    WordAt(s, i - 1) != WordAt(s, i)
  }

  /** The pattern matches starting at `i`: `\b`, then `url=`, then at least
      one character other than `;`. */
  predicate MatchAt(s: string, i: int)
  {
    0 <= i && i + |Key| < |s| && WordBoundary(s, i) && s[i..i + |Key|] == Key && s[i + |Key|] != ';'
  }

  /** `i` is where the leftmost match starts. */
  ghost predicate Leftmost(s: string, i: int)
  {
    MatchAt(s, i) && forall k :: 0 <= k < i ==> !MatchAt(s, k)
  }

  /** `r` occurs verbatim in `s` at `k`, holds no `;`, and cannot be extended:
      it stops at a `;` or at the end of `s` (greedy `[^;]+`). */
  ghost predicate MaximalRun(s: string, k: int, r: string)
  {
    && 0 <= k && k + |r| <= |s|
    && s[k..k + |r|] == r
    && (forall m :: 0 <= m < |r| ==> r[m] != ';')
    && (k + |r| == |s| || s[k + |r|] == ';')
  }

  /** `r` is the first capture group that `FindStringSubmatch` reports for `s`,
      with "" standing for "no match". */
  ghost predicate IsCapture(s: string, r: string)
  {
    || (r == "" && forall i :: !MatchAt(s, i))
    || (exists i :: Leftmost(s, i) && MaximalRun(s, i + |Key|, r))
  }

  /** The `\b` of the pattern only ever sits in front of the word character
      `u`, so it reduces to "at the start, or after a non-word character". */
  lemma MatchAtStartsAfterNonWord(s: string, i: int)
    ensures MatchAt(s, i) <==>
      && 0 <= i && i + 4 < |s|
      && (i == 0 || !IsWordChar(s[i - 1]))
      && s[i..i + 4] == "url=" && s[i + 4] != ';'
  {
  }

  /** The leftmost start of a match at or after `from`, scanning left to right. */
  function FindMatch(s: string, from: nat): (r: Option<nat>)
    decreases |s| - from
    ensures r.Some? ==> from <= r.value && MatchAt(s, r.value)
    ensures r.Some? ==> forall k :: from <= k < r.value ==> !MatchAt(s, k)
    ensures r.None? ==> forall k :: from <= k ==> !MatchAt(s, k)
  {
    if |s| <= from + |Key| then None
    else if MatchAt(s, from) then Some(from)
    else FindMatch(s, from + 1)
  }

  /** The index of the first `;` at or after `k`, or `|s|` when there is none. */
  function RunEnd(s: string, k: nat): (j: nat)
    requires k <= |s|
    decreases |s| - k
    ensures k <= j <= |s|
    ensures j == |s| || s[j] == ';'
    ensures forall m :: k <= m < j ==> s[m] != ';'
  {
    if k == |s| || s[k] == ';' then k else RunEnd(s, k + 1)
  }

  /** `SSOURL` on a given captured header value. */
  function SSOURL(header: string): (url: string)
    ensures header == "" ==> url == ""
    ensures url == "" <==> forall i :: !MatchAt(header, i)
    ensures forall i :: Leftmost(header, i) ==> MaximalRun(header, i + |Key|, url)
  {
    if header == "" then ""
    else
      match FindMatch(header, 0)
      case None => ""
      case Some(i) => header[i + |Key| .. RunEnd(header, i + |Key|)]
  }

  /** There is at most one leftmost match and one maximal run from a given
      index, so the capture a header yields is unique. */
  lemma CaptureIsUnique(s: string, r1: string, r2: string)
    requires IsCapture(s, r1) && IsCapture(s, r2)
    ensures r1 == r2
  {
  }

  /** `SSOURL` returns exactly the capture of the leftmost match: the value
      it returns is a capture, and every capture is the value it returns. */
  lemma SSOURLIsTheCapture(s: string, r: string)
    ensures IsCapture(s, r) <==> r == SSOURL(s)
  {
    var url := SSOURL(s);
    if url == "" {
      assert IsCapture(s, url);
    } else {
      var i :| MatchAt(s, i);
      var j := LeftmostExists(s, i);
      assert IsCapture(s, url);
    }
    if IsCapture(s, r) {
      CaptureIsUnique(s, r, url);
    }
  }

  /** When some match exists, a leftmost one does. */
  lemma LeftmostExists(s: string, i: int) returns (j: int)
    requires MatchAt(s, i)
    ensures Leftmost(s, j) && j <= i
  {
    var f := FindMatch(s, 0);
    j := f.value;
  }

  /** A header that starts with a `url=` attribute yields that attribute's
      value, up to the `;` that ends it or the end of the header, untrimmed
      and undecoded. */
  lemma LeadingUrlAttribute(u: string, rest: string)
    requires u != [] && forall m :: 0 <= m < |u| ==> u[m] != ';'
    requires rest == [] || rest[0] == ';'
    ensures SSOURL(Key + u + rest) == u
  {
    var s := Key + u + rest;
    assert s[..|Key|] == Key;
    assert s[|Key|..|Key| + |u|] == u;
    assert s[|Key|] == u[0];
    assert Leftmost(s, 0);
    assert MaximalRun(s, |Key|, u);
    SSOURLIsTheCapture(s, u);
  }

  /** The header of a typical SSO challenge. */
  lemma ExampleUrlBeforeOtherAttribute()
    ensures SSOURL("url=" + "https://example.com/sso" + "; other=x") == "https://example.com/sso"
  {
    LeadingUrlAttribute("https://example.com/sso", "; other=x");
  }

  /** No `url=` key at all: "". */
  lemma ExampleNoUrlKey()
    ensures SSOURL("foo=bar") == ""
  {
  }

  /** `url=` inside a longer word is not preceded by a word boundary: "". */
  lemma ExampleNoWordBoundary()
    ensures SSOURL("myurl=x") == ""
  {
  }

  /** `url=` with an empty value cannot satisfy `[^;]+`: "". */
  lemma ExampleEmptyValue()
    ensures SSOURL("url=;x") == ""
  {
  }

  /** The first `url=` lacks a word boundary, so the match is the second one. */
  lemma ExampleLeftmostQualifying()
    ensures SSOURL("xurl=a; url=b") == "b"
  {
    var s := "xurl=a; url=b";
    forall i | 0 <= i < 8 ensures !MatchAt(s, i) {
      if i + 4 < |s| {
        assert s[i..i + 4][0] == s[i];
      }
    }
    assert Leftmost(s, 8);
    assert MaximalRun(s, 12, "b");
    SSOURLIsTheCapture(s, "b");
  }
}
