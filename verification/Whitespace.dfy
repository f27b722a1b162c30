/** White space as the text handling sees it, and trimming. */
module Whitespace {

  /** unicode.IsSpace. */
  predicate IsSpace(c: char) {
    || '\t' <= c <= '\r' || c == ' ' || c == '\U{85}' || c == '\U{A0}' || c == '\U{1680}'
    || '\U{2000}' <= c <= '\U{200A}' || c == '\U{2028}' || c == '\U{2029}' || c == '\U{202F}' || c == '\U{205F}' || c == '\U{3000}'
  }

  function TrimLeft(s: string): string {
    if s != "" && IsSpace(s[0]) then TrimLeft(s[1..]) else s
  }

  function TrimRight(s: string): string {
    if s != "" && IsSpace(s[|s| - 1]) then TrimRight(s[..|s| - 1]) else s
  }

  /** strings.TrimSpace. */
  function Trim(s: string): string {
    TrimRight(TrimLeft(s))
  }

  lemma {:induction false} TrimLeftCuts(s: string) returns (lo: nat)
    ensures lo <= |s| && TrimLeft(s) == s[lo..]
    ensures forall i :: 0 <= i < lo ==> IsSpace(s[i])
    ensures lo < |s| ==> !IsSpace(s[lo])
  {
    if s != "" && IsSpace(s[0]) {
      var l := TrimLeftCuts(s[1..]);
      lo := l + 1;
      assert s[1..][l..] == s[lo..];
      forall i | 0 <= i < lo ensures IsSpace(s[i]) { if i > 0 { assert s[i] == s[1..][i - 1]; } }
    } else {
      lo := 0;
    }
  }

  lemma {:induction false} TrimRightCuts(s: string) returns (hi: nat)
    ensures hi <= |s| && TrimRight(s) == s[..hi]
    ensures forall i :: hi <= i < |s| ==> IsSpace(s[i])
    ensures hi > 0 ==> !IsSpace(s[hi - 1])
  {
    if s != "" && IsSpace(s[|s| - 1]) {
      hi := TrimRightCuts(s[..|s| - 1]);
      assert s[..|s| - 1][..hi] == s[..hi];
    } else {
      hi := |s|;
    }
  }

  /** A trimmed text is the stretch from its first to its last non-space character. */
  lemma TrimCuts(s: string) returns (lo: nat, hi: nat)
    ensures lo <= hi <= |s| && Trim(s) == s[lo..hi]
    ensures forall i :: 0 <= i < |s| && !(lo <= i < hi) ==> IsSpace(s[i])
    ensures lo < hi ==> !IsSpace(s[lo]) && !IsSpace(s[hi - 1])
  {
    lo := TrimLeftCuts(s);
    var h := TrimRightCuts(s[lo..]);
    hi := lo + h;
    assert s[lo..][..h] == s[lo..hi];
    forall i | 0 <= i < |s| && !(lo <= i < hi) ensures IsSpace(s[i]) {
      if i >= lo { assert s[i] == s[lo..][i - lo]; }
    }
    if lo < hi {
      assert s[hi - 1] == s[lo..][h - 1];
    }
  }

  lemma SliceOfSlice(s: string, a: nat, b: nat, l: nat, h: nat)
    requires a <= b <= |s| && l <= h <= b - a
    ensures s[a..b][l..h] == s[a + l..a + h]
  {
    var x, y := s[a..b][l..h], s[a + l..a + h];
    assert |x| == |y| && forall i :: 0 <= i < |x| ==> x[i] == y[i];
  }

  /** A trimmed stretch of a text, and that only spaces surround it. */
  lemma TrimStretch(text: string, a: nat, b: nat) returns (lo: nat, hi: nat)
    requires a <= b <= |text|
    ensures a <= lo <= hi <= b && Trim(text[a..b]) == text[lo..hi]
    ensures forall p :: a <= p < b && !(lo <= p < hi) ==> IsSpace(text[p])
    ensures lo < hi ==> !IsSpace(text[lo]) && !IsSpace(text[hi - 1])
  {
    var piece := text[a..b];
    var l, h := TrimCuts(piece);
    lo, hi := a + l, a + h;
    SliceOfSlice(text, a, b, l, h);
    forall p | a <= p < b && !(lo <= p < hi) ensures IsSpace(text[p]) { assert text[p] == piece[p - a]; }
    if lo < hi { assert text[lo] == piece[l] && text[hi - 1] == piece[h - 1]; }
  }
}
