/** Cutting plain text into overlapping windows that end at a sentence or word boundary
  * where one lies in their second half. */
module ChunkWindows {
  import opened ChunkSizes
  import opened Whitespace

  function Squeezed(c: char): bool {
    c == ' ' || c == '\t' || c == '\r' || c == '\n'
  }

  /** Runs of spaces and line ends become one space. */
  function Squeeze(s: string): string {
    if s == "" then ""
    else if !Squeezed(s[0]) then [s[0]] + Squeeze(s[1..])
    else if |s| > 1 && Squeezed(s[1]) then Squeeze(s[1..])
    else " " + Squeeze(s[1..])
  }

  function Normalize(text: string): string {
    Squeeze(Trim(text))
  }

  /** The characters of a text that are not squeezed, each with whether any squeezed one stands
    * between it and the one before; `gap` says so for what precedes the text. */
  function Marks(s: string, gap: bool): seq<(char, bool)> {
    if s == "" then []
    else if Squeezed(s[0]) then Marks(s[1..], true)
    else [(s[0], gap)] + Marks(s[1..], false)
  }

  /** Squeezing keeps every other character in order, and exactly the gaps between them. */
  lemma {:induction false} SqueezeKeepsMarks(s: string, gap: bool)
    ensures Marks(Squeeze(s), gap) == Marks(s, gap)
  {
    if s != "" {
      if !Squeezed(s[0]) {
        SqueezeKeepsMarks(s[1..], false);
        assert ([s[0]] + Squeeze(s[1..]))[1..] == Squeeze(s[1..]);
      } else if |s| > 1 && Squeezed(s[1]) {
        // The next one stands for this one too.
        SqueezeKeepsMarks(s[1..], gap);
        assert s[1..][0] == s[1];
      } else {
        SqueezeKeepsMarks(s[1..], true);
        assert (" " + Squeeze(s[1..]))[1..] == Squeeze(s[1..]);
      }
    }
  }

  /** And leaves single spaces for them. */
  lemma {:induction false} SqueezeIsClean(s: string)
    ensures var r := Squeeze(s);
            && (forall i :: 0 <= i < |r| && Squeezed(r[i]) ==> r[i] == ' ')
            && (forall i :: 0 < i < |r| ==> !(r[i - 1] == ' ' && r[i] == ' '))
            && (s != "" ==> r != "" && (Squeezed(r[0]) <==> Squeezed(s[0])))
            && (s != "" ==> (Squeezed(r[|r| - 1]) <==> Squeezed(s[|s| - 1])))
  {
    if s != "" {
      SqueezeIsClean(s[1..]);
      var rest := Squeeze(s[1..]);
      if |s| > 1 { assert s[1..][|s| - 2] == s[|s| - 1]; }
      if !Squeezed(s[0]) {
        assert forall i :: 0 < i < |Squeeze(s)| ==> Squeeze(s)[i] == rest[i - 1];
      } else if !(|s| > 1 && Squeezed(s[1])) {
        assert forall i :: 0 < i < |Squeeze(s)| ==> Squeeze(s)[i] == rest[i - 1];
      }
    }
  }

  /** The text that is cut up is the given one without space at its ends, with the same words: every
    * character but blanks and line ends is kept, in order, and two of them have a gap between
    * them exactly if they had one before, which is then a single space. */
  lemma NormalizeKeepsWords(text: string) returns (lo: nat, hi: nat)
    ensures lo <= hi <= |text| && (forall i :: 0 <= i < |text| && !(lo <= i < hi) ==> IsSpace(text[i]))
    ensures lo < hi ==> !IsSpace(text[lo]) && !IsSpace(text[hi - 1])
    ensures var r := Normalize(text);
            && Marks(r, false) == Marks(text[lo..hi], false)
            && (forall i :: 0 <= i < |r| && Squeezed(r[i]) ==> r[i] == ' ' && 0 < i < |r| - 1 && r[i - 1] != ' ' && r[i + 1] != ' ')
            && (r == "" <==> forall i :: 0 <= i < |text| ==> IsSpace(text[i]))
  {
    lo, hi := TrimCuts(text);
    SqueezeKeepsMarks(text[lo..hi], false);
    SqueezeIsClean(text[lo..hi]);
    if lo < hi { assert text[lo..hi][0] == text[lo] && text[lo..hi][hi - lo - 1] == text[hi - 1]; }
  }

  predicate Boundary(c: char) {
    c == '.' || c == '!' || c == '?' || c == '\n' || c == ' '
  }

  datatype Window = Window(start: nat, end: nat)

  /** A boundary character lies just before `i`. */
  predicate EndsAt(runes: string, i: nat)
    requires 0 < i <= |runes|
  {
    Boundary(runes[i - 1])
  }

  /** `cut` is the last boundary in the window's second half, or its full length without one. */
  ghost predicate IsCut(runes: string, start: nat, end: nat, cut: nat)
    requires start < end <= |runes|
  {
    && start + (end - start) / 2 < cut <= end
    && (cut < end ==> EndsAt(runes, cut))
    && (forall i :: cut < i <= end ==> !EndsAt(runes, i))
    && (cut == end && !EndsAt(runes, end) ==> forall i :: start + (end - start) / 2 < i <= end ==> !EndsAt(runes, i))
  }

  method BacktrackToBoundary(runes: string, start: nat, end: nat) returns (cut: nat)
    requires start < end <= |runes|
    ensures IsCut(runes, start, end, cut)
    ensures cut < end ==> runes[cut - 1] in {'.', '!', '?', '\n', ' '}
    ensures cut == end && runes[end - 1] !in {'.', '!', '?', '\n', ' '} ==>
              forall i :: start + (end - start) / 2 <= i < end ==> runes[i] !in {'.', '!', '?', '\n', ' '}
  {
    var min := start + (end - start) / 2;
    var i := end;
    while i > min
      invariant min <= i <= end
      invariant forall k :: i < k <= end ==> !EndsAt(runes, k)
    {
      assert Boundary(runes[i - 1]) <==> EndsAt(runes, i);
      if Boundary(runes[i - 1]) { return i; }
      i := i - 1;
    }
    forall k | min <= k < end ensures !Boundary(runes[k]) { assert !EndsAt(runes, k + 1); }
    return end;
  }

  ghost predicate IsWindow(runes: string, size: nat, w: Window)
    requires size > 0
  {
    && w.start < |runes|
    && if w.start + size >= |runes| then w.end == |runes| else IsCut(runes, w.start, w.start + size, w.end)
  }

  function NextStart(w: Window, overlap: nat): nat {
    if w.end - overlap <= w.start then w.end else w.end - overlap
  }

  /** The windows so far, each starting where the one before it says. */
  ghost predicate Chain(runes: string, size: nat, overlap: nat, ws: seq<Window>)
    requires size > 0
  {
    && (ws != [] ==> ws[0].start == 0)
    && (forall i :: 0 <= i < |ws| ==> IsWindow(runes, size, ws[i]))
    && (forall i :: 0 <= i < |ws| - 1 ==> ws[i].end < |runes| && ws[i + 1].start == NextStart(ws[i], overlap))
  }

  ghost predicate Walk(runes: string, size: nat, overlap: nat, ws: seq<Window>)
    requires size > 0
  {
    Chain(runes, size, overlap, ws) && ws != [] && ws[|ws| - 1].end == |runes|
  }

  function Text(runes: string, w: Window): string {
    if w.start <= w.end <= |runes| then Trim(runes[w.start..w.end]) else ""
  }

  /** The trimmed texts of the windows, blank ones left out. */
  function Kept(runes: string, ws: seq<Window>): seq<string> {
    if ws == [] then []
    else Kept(runes, ws[..|ws| - 1]) + (if Text(runes, ws[|ws| - 1]) != "" then [Text(runes, ws[|ws| - 1])] else [])
  }

  function EffectiveOverlap(size: nat, overlap: int): (n: nat)
    requires size > 0
    ensures n < size && (0 <= overlap < size ==> n == overlap) && (overlap >= size ==> n == size / 5)
  {
    if overlap < 0 then 0 else if overlap >= size then size / 5 else overlap
  }

  /** The next window is to start at `start`. */
  ghost predicate Ready(runes: string, overlap: nat, ws: seq<Window>, start: nat) {
    if ws == [] then start == 0 else ws[|ws| - 1].end < |runes| && start == NextStart(ws[|ws| - 1], overlap)
  }

  lemma OneMoreWindow(runes: string, size: nat, overlap: nat, ws: seq<Window>, w: Window)
    requires size > 0 && Chain(runes, size, overlap, ws) && IsWindow(runes, size, w) && Ready(runes, overlap, ws, w.start)
    ensures Chain(runes, size, overlap, ws + [w])
    ensures w.end < |runes| ==> Ready(runes, overlap, ws + [w], NextStart(w, overlap))
    ensures w.end == |runes| ==> Walk(runes, size, overlap, ws + [w])
  {
  }

  lemma OneMoreKept(runes: string, ws: seq<Window>, w: Window)
    ensures Kept(runes, ws + [w]) == Kept(runes, ws) + (if Text(runes, w) != "" then [Text(runes, w)] else [])
  {
    assert (ws + [w])[..|ws + [w]| - 1] == ws;
  }

  method WindowEnd(runes: string, size: nat, start: nat) returns (end: nat)
    requires size > 0 && start < |runes|
    ensures start < end && IsWindow(runes, size, Window(start, end))
  {
    end := start + size;
    if end >= |runes| {
      end := |runes|;
    } else {
      end := BacktrackToBoundary(runes, start, end);
    }
  }

  /** The loop; `windows` are the stretches the chunks come from. */
  method CutWindows(runes: string, size: nat, overlap: nat) returns (chunks: seq<string>, ghost windows: seq<Window>)
    requires 0 < size < |runes| && overlap < size
    ensures Walk(runes, size, overlap, windows) && chunks == Kept(runes, windows)
  {
    chunks, windows := [], [];
    var start := 0;
    while start < |runes|
      invariant start < |runes|
      invariant Chain(runes, size, overlap, windows) && chunks == Kept(runes, windows)
      invariant Ready(runes, overlap, windows, start)
      decreases |runes| - start
    {
      var end := WindowEnd(runes, size, start);
      var chunk := Trim(runes[start..end]);
      if chunk != "" { chunks := chunks + [chunk]; }
      OneMoreWindow(runes, size, overlap, windows, Window(start, end));
      OneMoreKept(runes, windows, Window(start, end));
      windows := windows + [Window(start, end)];
      if end >= |runes| { return; }
      var next := end - overlap;
      if next <= start { next := end; }
      start := next;
    }
  }

  method ChunkText(text: string, chunkSize: int, overlap: int) returns (chunks: seq<string>, ghost windows: seq<Window>)
    ensures Normalize(text) == "" ==> chunks == []
    ensures 0 < |Normalize(text)| <= EffectiveSize(chunkSize) ==> chunks == [Normalize(text)]
    ensures |Normalize(text)| > EffectiveSize(chunkSize) ==>
              && Walk(Normalize(text), EffectiveSize(chunkSize), EffectiveOverlap(EffectiveSize(chunkSize), overlap), windows)
              && chunks == Kept(Normalize(text), windows)
  {
    var runes := Normalize(text);
    if runes == "" { return [], []; }
    var size := if chunkSize <= 0 then DEFAULT_SIZE else chunkSize;
    var over := if overlap < 0 then 0 else overlap;
    if over >= size { over := size / 5; }
    if |runes| <= size { return [runes], []; }
    chunks, windows := CutWindows(runes, size, over);
  }

  // ---- What every walk keeps ----

  /** Windows are never empty and never longer than the size; each starts strictly after
    * the one before it and at or before that one's end, overlapping it by exactly the
    * overlap or not at all. */
  lemma WindowsAdvance(runes: string, size: nat, overlap: nat, ws: seq<Window>, i: nat)
    requires size > 0 && Walk(runes, size, overlap, ws) && i < |ws|
    ensures ws[i].start < ws[i].end <= |runes| && ws[i].end - ws[i].start <= size
    ensures i + 1 < |ws| ==> ws[i].start < ws[i + 1].start <= ws[i].end
    ensures i + 1 < |ws| ==> ws[i].end - ws[i + 1].start == if ws[i].end - ws[i].start > overlap then overlap else 0
  {
    assert IsWindow(runes, size, ws[i]);
  }

  /** No character falls between two windows. */
  lemma {:induction false} WindowsCover(runes: string, size: nat, overlap: nat, ws: seq<Window>, p: nat) returns (i: nat)
    requires size > 0 && Walk(runes, size, overlap, ws) && p < |runes|
    ensures i < |ws| && ws[i].start <= p < ws[i].end
  {
    i := 0;
    while p >= ws[i].end
      invariant i < |ws| && ws[i].start <= p
      decreases |ws| - i
    {
      WindowsAdvance(runes, size, overlap, ws, i);
      i := i + 1;
    }
  }

  lemma {:induction false} KeptHas(runes: string, ws: seq<Window>, i: nat)
    requires i < |ws| && Text(runes, ws[i]) != ""
    ensures Text(runes, ws[i]) in Kept(runes, ws)
  {
    if i < |ws| - 1 {
      assert ws[..|ws| - 1][i] == ws[i];
      KeptHas(runes, ws[..|ws| - 1], i);
    }
  }

  /** What trimming keeps of a window, as a stretch of the whole text. */
  lemma TextCuts(runes: string, w: Window) returns (lo: nat, hi: nat)
    requires w.start <= w.end <= |runes|
    ensures w.start <= lo <= hi <= w.end && Text(runes, w) == runes[lo..hi]
    ensures forall p :: w.start <= p < w.end && !(lo <= p < hi) ==> IsSpace(runes[p])
  {
    lo, hi := TrimStretch(runes, w.start, w.end);
  }

  /** Chunking loses nothing but space: every other character is inside a chunk, at its place. */
  lemma OnlySpaceIsLost(runes: string, size: nat, overlap: nat, ws: seq<Window>, p: nat) returns (lo: nat, hi: nat)
    requires size > 0 && Walk(runes, size, overlap, ws) && p < |runes| && !IsSpace(runes[p])
    ensures lo <= p < hi <= |runes| && runes[lo..hi] in Kept(runes, ws)
  {
    var i := WindowsCover(runes, size, overlap, ws, p);
    WindowsAdvance(runes, size, overlap, ws, i);
    lo, hi := TextCuts(runes, ws[i]);
    KeptHas(runes, ws, i);
  }

  /** No boundary lies where the next window looks and this one already looked. */
  lemma CutsAgree(runes: string, size: nat, w: Window, v: Window)
    requires size > 0 && IsWindow(runes, size, w) && IsWindow(runes, size, v) && w.start < v.start && w.end < |runes|
    requires v.end <= w.end
    ensures v.end == w.end && v.start + size < |runes| && EndsAt(runes, w.end)
  {
  }

  /** A window's end never lies before the end of the window before it. */
  lemma EndsNeverGoBack(runes: string, size: nat, overlap: nat, ws: seq<Window>, i: nat)
    requires size > 0 && Walk(runes, size, overlap, ws) && i + 1 < |ws|
    ensures ws[i].end <= ws[i + 1].end
  {
    WindowsAdvance(runes, size, overlap, ws, i);
    if ws[i + 1].end < ws[i].end { CutsAgree(runes, size, ws[i], ws[i + 1]); }
  }

  /** A window repeats the end of the one before it, adding nothing, exactly when that end
    * is a boundary in its own second half with no further boundary in its reach. */
  lemma RepeatsItsEndIff(runes: string, size: nat, overlap: nat, ws: seq<Window>, i: nat)
    requires size > 0 && Walk(runes, size, overlap, ws) && i + 1 < |ws|
    ensures var e, s := ws[i].end, ws[i + 1].start;
            ws[i + 1].end == e <==>
            (&& EndsAt(runes, e) && s + size / 2 < e && s + size < |runes|
             && forall k :: e < k <= s + size ==> !EndsAt(runes, k))
  {
    WindowsAdvance(runes, size, overlap, ws, i);
    var w, v := ws[i], ws[i + 1];
    if v.end == w.end { CutsAgree(runes, size, w, v); }
  }

  /** With an overlap of at most half the size every window adds text. */
  lemma HalfOverlapAddsText(runes: string, size: nat, overlap: nat, ws: seq<Window>, i: nat)
    requires size > 0 && Walk(runes, size, overlap, ws) && i + 1 < |ws| && overlap <= size / 2
    ensures ws[i].end < ws[i + 1].end
  {
    WindowsAdvance(runes, size, overlap, ws, i);
    EndsNeverGoBack(runes, size, overlap, ws, i);
    RepeatsItsEndIff(runes, size, overlap, ws, i);
  }

  /** A larger overlap can make a window repeat the tail of the one before it. */
  lemma LargeOverlapMayAddNothing()
    ensures var runes, w, v := "abcd.efghij", Window(0, 5), Window(1, 5);
            IsWindow(runes, 6, w) && IsWindow(runes, 6, v) && v.start == NextStart(w, 4) && v.end == w.end
  {
    var runes := "abcd.efghij";
    assert EndsAt(runes, 5) && !EndsAt(runes, 6) && !EndsAt(runes, 7);
  }
}
