/**
 * Removing the data-URL header from a webcam screenshot before it is sent as
 * base64. Three call sites use the same pattern `^data:image\/[a-z]+;base64,`;
 * the snapshot processor uses the literal JPEG header instead.
 */
module DataUrl {
  import opened Common

  const Lead: string := "data:image/"
  const Tail: string := ";base64,"
  const JpegHeader: string := "data:image/jpeg;base64,"

  predicate IsLowerLetter(c: char)
  {
    'a' <= c <= 'z'
  }

  /** A string matched in full by `data:image\/[a-z]+;base64,`. */
  predicate IsDataUrlHeader(p: string)
  {
    && |p| >= |Lead| + 1 + |Tail|
    && p[..|Lead|] == Lead
    && p[|p| - |Tail|..] == Tail
    && forall k :: |Lead| <= k < |p| - |Tail| ==> IsLowerLetter(p[k])
  }

  /** Some prefix of `s` is a data-URL header, so the anchored pattern matches `s`. */
  predicate HasDataUrlHeader(s: string)
  {
    exists n :: 0 <= n <= |s| && IsDataUrlHeader(s[..n])
  }

  /** The length of the run of lower-case letters in `s` that starts at `i`. */
  function LowerRun(s: string, i: nat): (n: nat)
    requires i <= |s|
    ensures i + n <= |s|
    ensures forall k :: i <= k < i + n ==> IsLowerLetter(s[k])
    ensures i + n < |s| ==> !IsLowerLetter(s[i + n])
    decreases |s| - i
  {
    if i < |s| && IsLowerLetter(s[i]) then 1 + LowerRun(s, i + 1) else 0
  }

  /**
   * `s.replace(/^data:image\/[a-z]+;base64,/, "")`. The letter run is greedy and
   * is followed by `;`, which is not a letter, so the only candidate match is the
   * maximal run; when it is not followed by `;base64,` nothing is removed.
   */
  function StripDataUrlHeader(s: string): (r: string)
    ensures !HasDataUrlHeader(s) ==> r == s
    ensures HasDataUrlHeader(s) ==> |r| < |s| && IsDataUrlHeader(s[..|s| - |r|]) && s[|s| - |r|..] == r
  {
    if |s| >= |Lead| && s[..|Lead|] == Lead then
      var n := LowerRun(s, |Lead|);
      var end := |Lead| + n;
      if n > 0 && end + |Tail| <= |s| && s[end..end + |Tail|] == Tail then
        HeaderFound(s, end);
        s[end + |Tail|..]
      else
        NoHeaderWithoutTail(s);
        s
    else
      s
  }

  /** "data:image/", a non-empty run of letters ending at `end`, then ";base64,": a header. */
  lemma {:induction false} HeaderFound(s: string, end: nat)
    requires |s| >= |Lead| && s[..|Lead|] == Lead
    requires end == |Lead| + LowerRun(s, |Lead|) && end > |Lead|
    requires end + |Tail| <= |s| && s[end..end + |Tail|] == Tail
    ensures IsDataUrlHeader(s[..end + |Tail|])
  {
    var p := s[..end + |Tail|];
    assert p[..|Lead|] == s[..|Lead|];
    assert p[|p| - |Tail|..] == s[end..end + |Tail|];
  }

  /** When `s` starts with "data:image/" but the letter run is empty or not followed by ";base64,", no header matches. */
  lemma {:induction false} NoHeaderWithoutTail(s: string)
    requires |s| >= |Lead| && s[..|Lead|] == Lead
    requires var end := |Lead| + LowerRun(s, |Lead|);
      !(end > |Lead| && end + |Tail| <= |s| && s[end..end + |Tail|] == Tail)
    ensures !HasDataUrlHeader(s)
  {
    if HasDataUrlHeader(s) {
      var m :| 0 <= m <= |s| && IsDataUrlHeader(s[..m]);
      HeaderLength(s, m);
      HeaderTail(s, m);
    }
  }

  /** Every character of `s` from `i` up to, not including, `j` is a lower-case letter. */
  predicate AllLower(s: string, i: nat, j: nat)
    requires i <= j <= |s|
  {
    forall k :: i <= k < j ==> IsLowerLetter(s[k])
  }

  /** Letters from `i` up to a non-letter at `j`: the run starting at `i` is exactly that long. */
  lemma {:induction false} LowerRunExact(s: string, i: nat, j: nat)
    requires i <= j < |s|
    requires AllLower(s, i, j)
    requires !IsLowerLetter(s[j])
    ensures LowerRun(s, i) == j - i
    decreases j - i
  {
    if i < j {
      LowerRunExact(s, i + 1, j);
    }
  }

  /** A header of length `m` at the front of `s` ends with ";base64," at `m`. */
  lemma HeaderTail(s: string, m: nat)
    requires m <= |s| && IsDataUrlHeader(s[..m])
    ensures |Lead| < m - |Tail| < |s|
    ensures s[m - |Tail|..m] == Tail
    ensures !IsLowerLetter(s[m - |Tail|])
  {
    var p := s[..m];
    assert s[m - |Tail|..m] == p[m - |Tail|..];
    assert Tail[0] == ';';
  }

  /** A header of length `m` at the front of `s` holds only letters between "data:image/" and its tail. */
  lemma HeaderLetters(s: string, m: nat)
    requires m <= |s| && IsDataUrlHeader(s[..m])
    ensures AllLower(s, |Lead|, m - |Tail|)
  {
    var p := s[..m];
    forall k | |Lead| <= k < m - |Tail|
      ensures IsLowerLetter(s[k])
    {
      assert s[k] == p[k];
    }
  }

  /** A header of length `m` at the front of `s` ends exactly after the maximal letter run. */
  lemma {:induction false} HeaderLength(s: string, m: nat)
    requires m <= |s| && IsDataUrlHeader(s[..m])
    ensures |Lead| + LowerRun(s, |Lead|) == m - |Tail|
  {
    HeaderTail(s, m);
    HeaderLetters(s, m);
    LowerRunExact(s, |Lead|, m - |Tail|);
  }

  /** Exactly one header is removed: whatever follows it is returned untouched, even another header. */
  lemma StripRemovesOneHeader(p: string, rest: string)
    requires IsDataUrlHeader(p)
    ensures StripDataUrlHeader(p + rest) == rest
  {
    var s := p + rest;
    assert s[..|p|] == p;
    assert HasDataUrlHeader(s);
    var r := StripDataUrlHeader(s);
    HeaderLength(s, |p|);
    HeaderLength(s, |s| - |r|);
    assert s[|p|..] == rest;
  }

  /** `s.replace(/^<literal>/, "")` for a literal header. */
  function StripLiteral(s: string, header: string): (r: string)
    ensures StartsWith(s, header) ==> header + r == s
    ensures !StartsWith(s, header) ==> r == s
  {
    if StartsWith(s, header) then s[|header|..] else s
  }

  /** The JPEG header used by the snapshot processor is one of the headers the general pattern removes. */
  lemma JpegStripAgrees(s: string)
    ensures StripLiteral(s, JpegHeader) == if StartsWith(s, JpegHeader) then StripDataUrlHeader(s) else s
  {
    if StartsWith(s, JpegHeader) {
      assert IsDataUrlHeader(JpegHeader);
      assert s == JpegHeader + s[|JpegHeader|..];
      StripRemovesOneHeader(JpegHeader, s[|JpegHeader|..]);
    }
  }

  /** A string without a colon, as any base64 text is, has no header to remove. */
  lemma Base64Untouched(s: string)
    requires ':' !in s
    ensures StripDataUrlHeader(s) == s
  {
    if |s| >= |Lead| {
      assert s[4] in s;
      assert s[..|Lead|][4] != Lead[4];
    }
  }

  /** Stripping an already stripped screenshot again only touches its payload. */
  lemma StripTwice(p: string, payload: string)
    requires IsDataUrlHeader(p)
    ensures StripDataUrlHeader(StripDataUrlHeader(p + payload)) == StripDataUrlHeader(payload)
  {
    StripRemovesOneHeader(p, payload);
  }
}
