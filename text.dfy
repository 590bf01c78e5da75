/**
 * The two JavaScript string operations the endpoint editor applies to a draft
 * before committing it: `replace(/\/$/, '')` (drop one '/' when it is the very
 * last character) followed by `trim()` (drop leading and trailing white space).
 */
module Text {

  /** The code points `String.prototype.trim` removes: ECMAScript's WhiteSpace
      (TAB, VT, FF, SP, NBSP, ZWNBSP and the other space separators U+1680,
      U+2000 to U+200A, U+202F, U+205F, U+3000) and LineTerminator (LF, CR,
      U+2028, U+2029). TAB, LF, VT, FF and CR are U+0009 to U+000D. */
  predicate IsJsSpace(c: char) {
    if c <= ' ' then c == ' ' || '\t' <= c <= '\r'
    else if c < '\U{00A0}' then false
    else if c < '\U{2000}' then c == '\U{00A0}' || c == '\U{1680}'
    else if c <= '\U{200A}' then true
    else c == '\U{2028}' || c == '\U{2029}' || c == '\U{202F}' || c == '\U{205F}'
         || c == '\U{3000}' || c == '\U{FEFF}'
  }

  predicate AllSpace(s: string) {
    forall i :: 0 <= i < |s| ==> IsJsSpace(s[i])
  }

  /** Neither end of `s` is white space. */
  predicate IsTrimmed(s: string) {
    s == [] || (!IsJsSpace(s[0]) && !IsJsSpace(s[|s| - 1]))
  }

  predicate EndsWithSlash(s: string) {
    |s| > 0 && s[|s| - 1] == '/'
  }

  /** `String.prototype.trim`: white space is dropped from the front and from
      the back until a character of another kind is at each end. */
  function Trim(s: string): (r: string)
    ensures |r| <= |s|
  {
    if |s| > 0 && IsJsSpace(s[0]) then Trim(s[1..])
    else if |s| > 0 && IsJsSpace(s[|s| - 1]) then Trim(s[..|s| - 1])
    else s
  }

  /** No white space is left at either end of what Trim returns. */
  lemma {:induction false} TrimIsTrimmed(s: string)
    ensures IsTrimmed(Trim(s))
  {
    if |s| > 0 && IsJsSpace(s[0]) {
      TrimIsTrimmed(s[1..]);
    } else if |s| > 0 && IsJsSpace(s[|s| - 1]) {
      TrimIsTrimmed(s[..|s| - 1]);
    }
  }

  /** What Trim returns is the middle of `s`: only white space is cut off on
      either side. */
  lemma {:induction false} TrimCutsOnlySpace(s: string) returns (i: nat)
    ensures i + |Trim(s)| <= |s| && Trim(s) == s[i..i + |Trim(s)|]
    ensures AllSpace(s[..i]) && AllSpace(s[i + |Trim(s)|..])
  {
    if |s| > 0 && IsJsSpace(s[0]) {
      var k := TrimCutsOnlySpace(s[1..]);
      i := CutFront(s, k);
    } else if |s| > 0 && IsJsSpace(s[|s| - 1]) {
      var k := TrimCutsOnlySpace(s[..|s| - 1]);
      i := CutBack(s, k);
    } else {
      assert s[..0] == [] && s[|s|..] == [] && s[0..|s|] == s;
      i := 0;
    }
  }

  /** The step of TrimCutsOnlySpace where Trim drops a leading white space
      character: the cut found in the rest moves one place to the right. */
  lemma CutFront(s: string, k: nat) returns (i: nat)
    requires |s| > 0 && IsJsSpace(s[0])
    requires k + |Trim(s[1..])| <= |s| - 1 && Trim(s[1..]) == s[1..][k..k + |Trim(s[1..])|]
    requires AllSpace(s[1..][..k]) && AllSpace(s[1..][k + |Trim(s[1..])|..])
    ensures i == k + 1
    ensures i + |Trim(s)| <= |s| && Trim(s) == s[i..i + |Trim(s)|]
    ensures AllSpace(s[..i]) && AllSpace(s[i + |Trim(s)|..])
  {
    var t := s[1..];
    assert Trim(s) == Trim(t);
    forall x | 1 <= x <= k
      ensures IsJsSpace(s[x])
    {
      assert s[x] == t[..k][x - 1];
    }
    assert AllSpace(s[..k + 1]);
    var m := k + |Trim(t)|;
    assert s[k + 1..m + 1] == t[k..m];
    assert s[m + 1..] == t[m..];
    i := k + 1;
  }

  /** The step of TrimCutsOnlySpace where Trim drops a trailing white space
      character: the cut found in the rest stays where it is. */
  lemma CutBack(s: string, k: nat) returns (i: nat)
    requires |s| > 0 && !IsJsSpace(s[0]) && IsJsSpace(s[|s| - 1])
    requires k + |Trim(s[..|s| - 1])| <= |s| - 1
    requires Trim(s[..|s| - 1]) == s[..|s| - 1][k..k + |Trim(s[..|s| - 1])|]
    requires AllSpace(s[..|s| - 1][..k]) && AllSpace(s[..|s| - 1][k + |Trim(s[..|s| - 1])|..])
    ensures i == k
    ensures i + |Trim(s)| <= |s| && Trim(s) == s[i..i + |Trim(s)|]
    ensures AllSpace(s[..i]) && AllSpace(s[i + |Trim(s)|..])
  {
    var t := s[..|s| - 1];
    assert Trim(s) == Trim(t);
    var m := k + |Trim(t)|;
    forall x | m <= x < |s| - 1
      ensures IsJsSpace(s[x])
    {
      assert s[x] == t[m..][x - m];
    }
    assert s[..k] == t[..k];
    assert s[k..m] == t[k..m];
    i := k;
  }

  /** Trim has exactly one answer: any way of cutting `s` into white space,
      a trimmed middle and white space yields the middle that Trim returns. */
  lemma {:induction false} TrimUnique(s: string, i: nat, j: nat)
    requires i <= j <= |s|
    requires AllSpace(s[..i]) && AllSpace(s[j..])
    requires IsTrimmed(s[i..j])
    ensures Trim(s) == s[i..j]
    decreases |s|
  {
    assert i > 0 ==> IsJsSpace(s[0]) by {
      if i > 0 { assert s[..i][0] == s[0]; }
    }
    assert i == 0 < j ==> !IsJsSpace(s[0]) by {
      if i == 0 < j { assert s[i..j][0] == s[0]; }
    }
    assert j < |s| ==> IsJsSpace(s[|s| - 1]) by {
      if j < |s| { assert s[j..][|s| - 1 - j] == s[|s| - 1]; }
    }
    assert i < j == |s| ==> !IsJsSpace(s[|s| - 1]) by {
      if i < j == |s| { assert s[i..j][j - i - 1] == s[|s| - 1]; }
    }
    if |s| > 0 && IsJsSpace(s[0]) {
      var t := s[1..];
      if i > 0 {
        assert t[..i - 1] == s[..i][1..];
        assert t[j - 1..] == s[j..];
        assert t[i - 1..j - 1] == s[i..j];
        TrimUnique(t, i - 1, j - 1);
      } else {
        assert t[..0] == [] && t[0..] == s[j..][1..];
        TrimUnique(t, 0, 0);
      }
    } else if |s| > 0 && IsJsSpace(s[|s| - 1]) {
      var t := s[..|s| - 1];
      assert t[..i] == s[..i];
      assert t[j..] == s[j..][..|s| - 1 - j];
      assert t[i..j] == s[i..j];
      TrimUnique(t, i, j);
    } else {
      assert s[i..j] == s;
    }
  }

  /** Trimming twice is trimming once. */
  lemma TrimIdempotent(s: string)
    ensures Trim(Trim(s)) == Trim(s)
  {
  }

  /** `s.replace(/\/$/, '')`: without the `m` flag `$` matches only at the end
      of the input, so one '/' is removed, and only when it is the last character. */
  function StripFinalSlash(s: string): (r: string)
    ensures r + "/" == s <==> EndsWithSlash(s)
    ensures r != s ==> r + "/" == s
  {
    if EndsWithSlash(s) then s[..|s| - 1] else s
  }

  /** The value the editor commits for a raw draft (Sidebar.tsx line 202). */
  function CleanEndpoint(raw: string): string {
    Trim(StripFinalSlash(raw))
  }

  /** A committed value never has white space at either end, and is never
      longer than the draft it came from. */
  lemma CleanEndpointIsTrimmed(raw: string)
    ensures IsTrimmed(CleanEndpoint(raw))
    ensures |CleanEndpoint(raw)| <= |raw|
  {
    TrimIsTrimmed(StripFinalSlash(raw));
  }

  /** CleanEndpoint leaves a value alone exactly when it is already trimmed and
      does not end in '/'. */
  lemma CleanEndpointFixedPoint(s: string)
    ensures CleanEndpoint(s) == s <==> IsTrimmed(s) && !EndsWithSlash(s)
  {
  }

  /** The slash is stripped before the white space, so a draft whose '/' is
      followed by a blank keeps that '/' in the committed value. */
  lemma SlashBeforeBlankSurvives()
    ensures CleanEndpoint("http://x/ ") == "http://x/"
  {
  }

  /** Only one slash goes per commit: cleaning is not idempotent. */
  lemma CleanEndpointNotIdempotent()
    ensures CleanEndpoint("http://x//") == "http://x/"
    ensures CleanEndpoint(CleanEndpoint("http://x//")) == "http://x"
  {
  }

  /** Committing "http://localhost:9999/" stores "http://localhost:9999". */
  lemma CleanEndpointDropsFinalSlash()
    ensures CleanEndpoint("http://localhost:9999/") == "http://localhost:9999"
  {
  }
}
