/** Reading a Markdown text into blocks, line by line. Positions count code points. */
module MarkdownBlocks {
  import opened Results
  import opened Whitespace
  import StructuredChunks

  datatype Kind = Code | Heading | ListItem | Paragraph

  datatype Parsed = Parsed(kind: Kind, text: string, level: nat, language: string, start: nat, end: nat)

  /** White space of a single byte, which is all the checks after a marker recognise. */
  predicate ByteSpace(c: char) {
    '\t' <= c <= '\r' || c == ' '
  }

  predicate Begins(s: string, prefix: string) {
    prefix <= s
  }

  predicate Digit(c: char) {
    '0' <= c <= '9'
  }

  function Digits(s: string): (i: nat)
    ensures i <= |s|
  {
    if s != "" && Digit(s[0]) then 1 + Digits(s[1..]) else 0
  }

  predicate IsList(s: string) {
    || (|s| > 1 && (s[0] == '-' || s[0] == '+' || s[0] == '*') && ByteSpace(s[1]))
    || (var i := Digits(s); i > 0 && i + 1 < |s| && (s[i] == '.' || s[i] == ')') && ByteSpace(s[i + 1]))
  }

  function Hashes(s: string): (i: nat)
    ensures i <= |s| && forall k :: 0 <= k < i ==> s[k] == '#'
  {
    if s != "" && s[0] == '#' then 1 + Hashes(s[1..]) else 0
  }

  predicate IsHeading(trim: string) {
    var level := Hashes(trim);
    1 <= level <= 6 && level < |trim| && ByteSpace(trim[level])
  }

  predicate OpensFence(trim: string) {
    Begins(trim, "```") || Begins(trim, "~~~")
  }

  predicate EndsParagraph(trim: string) {
    trim == "" || Begins(trim, "#") || OpensFence(trim) || IsList(trim)
  }

  /** The position after the line at `pos`, its line feed included. */
  function LineEnd(text: string, pos: nat): (end: nat)
    requires pos < |text|
    ensures pos < end <= |text|
    ensures forall p :: pos <= p < end - 1 ==> text[p] != '\n'
    ensures end == |text| || text[end - 1] == '\n'
    decreases |text| - pos
  {
    if text[pos] == '\n' || pos + 1 == |text| then pos + 1 else LineEnd(text, pos + 1)
  }

  function Chop(line: string, c: char): string {
    if line != "" && line[|line| - 1] == c then line[..|line| - 1] else line
  }

  /** The trimmed content of the line at `pos`. */
  function LineText(text: string, pos: nat): string
    requires pos < |text|
  {
    Trim(Chop(Chop(text[pos..LineEnd(text, pos)], '\n'), '\r'))
  }

  /** strings.Index: the first place where `part` occurs. */
  function Index(s: string, part: string): (i: int)
    ensures -1 <= i <= |s| - |part| || i == -1
    ensures i >= 0 ==> s[i..i + |part|] == part
  {
    if |s| < |part| then -1
    else if s[..|part|] == part then 0
    else
      var i := Index(s[1..], part);
      if i < 0 then -1 else (assert s[1..][i..i + |part|] == s[i + 1..i + 1 + |part|]; i + 1)
  }

  lemma {:induction false} IndexIsFirst(s: string, part: string, at: nat)
    requires at + |part| <= |s| && s[at..at + |part|] == part
    ensures 0 <= Index(s, part) <= at
  {
    if at > 0 && s[..|part|] != part {
      assert s[1..][at - 1..at - 1 + |part|] == s[at..at + |part|];
      IndexIsFirst(s[1..], part, at - 1);
    }
  }

  // ---- What a block promises ----

  /** A block's text is its stretch of the input, trimmed if it is code. */
  ghost predicate Faithful(text: string, b: Parsed) {
    && b.start < b.end <= |text| && b.text != ""
    && b.text == (if b.kind == Code then Trim(text[b.start..b.end]) else text[b.start..b.end])
    && (b.kind == Heading ==> 1 <= b.level <= 6)
  }

  ghost predicate Ordered(blocks: seq<Parsed>) {
    forall i, j :: 0 <= i < j < |blocks| ==> blocks[i].end <= blocks[j].start
  }

  predicate Within(b: Parsed, p: nat) {
    b.start <= p < b.end
  }

  /** Outside the blocks lie only spaces and heading marks. */
  ghost predicate Filler(text: string, blocks: seq<Parsed>, p: nat)
    requires p < |text|
  {
    IsSpace(text[p]) || text[p] == '#' || exists k :: 0 <= k < |blocks| && Within(blocks[k], p)
  }

  ghost predicate ReadUpTo(text: string, blocks: seq<Parsed>, pos: nat) {
    && pos <= |text|
    && (forall k :: 0 <= k < |blocks| ==> Faithful(text, blocks[k]) && blocks[k].end <= pos)
    && Ordered(blocks)
    && (forall p :: 0 <= p < pos ==> Filler(text, blocks, p))
  }

  /** A fence that no later line closes. */
  predicate Unclosed(text: string, pos: nat) {
    && pos < |text| && OpensFence(LineText(text, pos))
    && !Closes(text, LineEnd(text, pos), LineText(text, pos)[..3])
  }

  /** Some line from `pos` on begins with the fence. */
  predicate Closes(text: string, pos: nat, fence: string)
    requires pos <= |text|
    decreases |text| - pos
  {
    pos < |text| && (Begins(LineText(text, pos), fence) || Closes(text, LineEnd(text, pos), fence))
  }

  // ---- Which lines become which block ----

  /** The lines of one block, and what their first line makes it. */
  datatype Lines = Lines(kind: Kind, start: nat, end: nat)

  function KindOf(trim: string): Kind {
    if OpensFence(trim) then Code else if IsHeading(trim) then Heading else if IsList(trim) then ListItem else Paragraph
  }

  predicate Space(c: char) {
    c in {'\t', '\n', '\U{B}', '\U{C}', '\r', ' '}
  }

  /** `n` times the same character, and then something else or the end. */
  predicate Opens(s: string, c: char, n: nat) {
    n <= |s| && (forall i :: 0 <= i < n ==> s[i] == c) && (n < |s| ==> s[n] != c)
  }

  /** `n` digits, and then something else or the end. */
  predicate Counts(s: string, n: nat) {
    n <= |s| && (forall i :: 0 <= i < n ==> '0' <= s[i] <= '9') && (n < |s| ==> !('0' <= s[n] <= '9'))
  }

  lemma {:induction false} HashesAre(s: string)
    ensures Opens(s, '#', Hashes(s))
  {
    if s != "" && s[0] == '#' {
      HashesAre(s[1..]);
      forall i | 0 <= i < Hashes(s) ensures s[i] == '#' { if i > 0 { assert s[i] == s[1..][i - 1]; } }
    }
  }

  lemma {:induction false} DigitsAre(s: string)
    ensures Counts(s, Digits(s))
  {
    if s != "" && Digit(s[0]) {
      DigitsAre(s[1..]);
      forall i | 0 <= i < Digits(s) ensures '0' <= s[i] <= '9' { if i > 0 { assert s[i] == s[1..][i - 1]; } }
    }
  }

  /** A dash, plus or star and a space. */
  predicate Bulleted(trim: string) {
    |trim| > 1 && trim[0] in {'-', '+', '*'} && Space(trim[1])
  }

  /** `n` digits, a point or closing bracket, and a space. */
  predicate Numbered(trim: string, n: nat) {
    n > 0 && Counts(trim, n) && n + 1 < |trim| && trim[n] in {'.', ')'} && Space(trim[n + 1])
  }

  lemma SameCount(s: string, n: nat, m: nat)
    requires Counts(s, n) && Counts(s, m)
    ensures n == m
  {
  }

  lemma SameRun(s: string, n: nat, m: nat)
    requires Opens(s, '#', n) && Opens(s, '#', m)
    ensures n == m
  {
  }

  predicate Fenced(trim: string) {
    |trim| >= 3 && (trim[..3] == "```" || trim[..3] == "~~~")
  }

  lemma FenceIff(trim: string)
    ensures OpensFence(trim) <==> Fenced(trim)
    ensures Begins(trim, "#") <==> trim != "" && trim[0] == '#'
  {
    if trim != "" { assert trim[..1] == [trim[0]]; }
  }

  lemma HeadingIff(trim: string, n: nat)
    requires Opens(trim, '#', n)
    ensures IsHeading(trim) <==> 1 <= n <= 6 && n < |trim| && Space(trim[n])
    ensures Hashes(trim) == n
  {
    HashesAre(trim);
    SameRun(trim, n, Hashes(trim));
  }

  lemma ItemIff(trim: string)
    ensures IsList(trim) <==> Bulleted(trim) || exists m :: Numbered(trim, m)
  {
    DigitsAre(trim);
    if IsList(trim) && !Bulleted(trim) { assert Numbered(trim, Digits(trim)); }
    if m :| Numbered(trim, m) { SameCount(trim, m, Digits(trim)); }
  }

  /** What the first characters of a line make of it: code behind three back ticks or tildes, a
    * heading behind one to six hashes and a space, a list item behind a bullet or number and a
    * space, and a paragraph otherwise. */
  lemma KindIff(trim: string, n: nat)
    requires Opens(trim, '#', n)
    ensures var heading := 1 <= n <= 6 && n < |trim| && Space(trim[n]);
            var item := Bulleted(trim) || exists m :: Numbered(trim, m);
            && (KindOf(trim) == Code <==> Fenced(trim))
            && (KindOf(trim) == Heading <==> !Fenced(trim) && heading)
            && (KindOf(trim) == ListItem <==> !Fenced(trim) && !heading && item)
            && (EndsParagraph(trim) <==> trim == "" || trim[0] == '#' || Fenced(trim) || item)
  {
    FenceIff(trim);
    HeadingIff(trim, n);
    ItemIff(trim);
  }

  /** The position after the line that closes a fence. */
  function FenceTo(text: string, pos: nat, fence: string): (end: nat)
    requires pos <= |text| && Closes(text, pos, fence)
    ensures pos < end <= |text|
    decreases |text| - pos
  {
    if Begins(LineText(text, pos), fence) then LineEnd(text, pos) else FenceTo(text, LineEnd(text, pos), fence)
  }

  /** The next line that cannot continue a paragraph. */
  function ParagraphTo(text: string, pos: nat): (end: nat)
    requires pos <= |text|
    ensures pos <= end <= |text|
    decreases |text| - pos
  {
    if pos == |text| || EndsParagraph(LineText(text, pos)) then pos else ParagraphTo(text, LineEnd(text, pos))
  }

  /** A line begins at `q`, not before `pos`, where one does. */
  predicate StartsLine(text: string, pos: nat, q: nat) {
    pos <= q < |text| && (q == pos || text[q - 1] == '\n')
  }

  lemma NextStart(text: string, pos: nat, q: nat)
    requires pos < |text|
    ensures StartsLine(text, pos, q) <==> q == pos || StartsLine(text, LineEnd(text, pos), q)
  {
  }

  /** A fence is closed by the first line after it that begins with it, and ends with that line. */
  lemma {:induction false} ClosedIff(text: string, pos: nat, fence: string)
    requires pos <= |text|
    ensures Closes(text, pos, fence) <==> exists q :: StartsLine(text, pos, q) && Begins(LineText(text, q), fence)
    ensures Closes(text, pos, fence) ==>
              exists q :: StartsLine(text, pos, q) && Begins(LineText(text, q), fence) && FenceTo(text, pos, fence) == LineEnd(text, q)
                          && forall r :: StartsLine(text, pos, r) && r < q ==> !Begins(LineText(text, r), fence)
    decreases |text| - pos
  {
    if pos < |text| {
      var next := LineEnd(text, pos);
      forall q ensures StartsLine(text, pos, q) <==> q == pos || StartsLine(text, next, q) { NextStart(text, pos, q); }
      if Begins(LineText(text, pos), fence) {
        assert StartsLine(text, pos, pos);
      } else {
        ClosedIff(text, next, fence);
        if Closes(text, next, fence) {
          var q :| StartsLine(text, next, q) && Begins(LineText(text, q), fence) && FenceTo(text, next, fence) == LineEnd(text, q)
                   && forall r :: StartsLine(text, next, r) && r < q ==> !Begins(LineText(text, r), fence);
          assert StartsLine(text, pos, q);
        }
      }
    }
  }

  /** A paragraph goes on to the first line that cannot continue it, or to the end. */
  lemma {:induction false} ParagraphStops(text: string, pos: nat)
    requires pos <= |text|
    ensures var end := ParagraphTo(text, pos);
            && (end < |text| ==> StartsLine(text, pos, end) && EndsParagraph(LineText(text, end)))
            && (forall q: nat :: StartsLine(text, pos, q) && q < end ==> !EndsParagraph(LineText(text, q)))
    decreases |text| - pos
  {
    if pos < |text| && !EndsParagraph(LineText(text, pos)) {
      var next := LineEnd(text, pos);
      ParagraphStops(text, next);
      forall q ensures StartsLine(text, pos, q) <==> q == pos || StartsLine(text, next, q) { NextStart(text, pos, q); }
    }
  }

  /** Where the block that begins with the line at `pos` ends. */
  function BlockTo(text: string, pos: nat): (end: nat)
    requires pos < |text| && !Unclosed(text, pos)
    ensures pos < end <= |text|
  {
    var trim, lineEnd := LineText(text, pos), LineEnd(text, pos);
    match KindOf(trim)
    case Code => FenceTo(text, lineEnd, trim[..3])
    // A mark that makes no heading is a paragraph of its own line.
    case Paragraph => if EndsParagraph(trim) then lineEnd else ParagraphTo(text, lineEnd)
    case _ => lineEnd
  }

  function Then<T>(first: seq<T>, rest: Option<seq<T>>): Option<seq<T>> {
    if rest.Some? then Some(first + rest.value) else None
  }

  /** The blocks from `pos` on as lines of the text; nothing if a fence stays open. */
  function Outline(text: string, pos: nat): Option<seq<Lines>>
    requires pos <= |text|
    decreases |text| - pos
  {
    if pos == |text| then Some([])
    else if LineText(text, pos) == "" then Outline(text, LineEnd(text, pos))
    else if Unclosed(text, pos) then None
    else Then([Lines(KindOf(LineText(text, pos)), pos, BlockTo(text, pos))], Outline(text, BlockTo(text, pos)))
  }

  /** Where the walk over the lines goes from the line at `pos`. */
  function WalkTo(text: string, pos: nat): (next: nat)
    requires pos < |text| && !Unclosed(text, pos)
    ensures pos < next <= |text|
  {
    if LineText(text, pos) == "" then LineEnd(text, pos) else BlockTo(text, pos)
  }

  /** The walk from `pos` on comes to `at`. */
  predicate Meets(text: string, pos: nat, at: nat)
    requires pos <= |text|
    decreases |text| - pos
  {
    pos == at || (pos < |text| && !Unclosed(text, pos) && Meets(text, WalkTo(text, pos), at))
  }

  /** The text is given up exactly when the walk meets a fence that no later line closes. */
  lemma {:induction false} GivesUpIff(text: string, pos: nat)
    requires pos <= |text|
    ensures Outline(text, pos).None? <==> exists at :: Meets(text, pos, at) && Unclosed(text, at)
    decreases |text| - pos
  {
    if pos < |text| && !Unclosed(text, pos) {
      GivesUpIff(text, WalkTo(text, pos));
      if Outline(text, WalkTo(text, pos)).None? {
        var at :| Meets(text, WalkTo(text, pos), at) && Unclosed(text, at);
        assert Meets(text, pos, at);
      }
    } else if pos < |text| {
      assert Meets(text, pos, pos);
    }
  }

  ghost predicate Blank(text: string, a: nat, b: nat) {
    a <= b <= |text| && forall p :: a <= p < b ==> IsSpace(text[p])
  }

  /** The lines follow one another with only blank lines left between them, and the first
    * line of each says what it is. */
  ghost predicate Tiles(text: string, pos: nat, lines: seq<Lines>)
    decreases |lines|
  {
    if lines == [] then Blank(text, pos, |text|)
    else
      && Blank(text, pos, lines[0].start) && lines[0].start < lines[0].end <= |text|
      && LineText(text, lines[0].start) != "" && lines[0].kind == KindOf(LineText(text, lines[0].start))
      && Tiles(text, lines[0].end, lines[1..])
  }

  lemma {:induction false} OutlineTiles(text: string, pos: nat)
    requires pos <= |text| && Outline(text, pos).Some?
    ensures Tiles(text, pos, Outline(text, pos).value)
    decreases |text| - pos
  {
    if pos < |text| {
      if LineText(text, pos) == "" {
        var lo, hi := LineStretch(text, pos);
        assert lo == hi;
        OutlineTiles(text, LineEnd(text, pos));
      } else {
        OutlineTiles(text, BlockTo(text, pos));
        var lines := Outline(text, pos).value;
        assert lines[1..] == Outline(text, BlockTo(text, pos)).value;
      }
    }
  }

  /** A block's text, level and language are what its lines say. */
  ghost predicate Reads(text: string, b: Parsed, l: Lines) {
    && b.kind == l.kind && l.start <= b.start && b.end <= l.end && l.start < l.end <= |text|
    && var trim := LineText(text, l.start);
       match l.kind
       case Code => OpensFence(trim) && b.start == l.start && b.end == l.end && b.language == Trim(trim[3..])
       case Heading => b.level == Hashes(trim) && b.text == Trim(trim[Hashes(trim)..])
       case ListItem => b.text == trim
       case Paragraph => b.text == Trim(text[l.start..l.end])
  }

  /** And outside it the lines have only spaces and heading marks. */
  ghost predicate IsBlock(text: string, b: Parsed, l: Lines) {
    && Faithful(text, b) && Reads(text, b, l)
    && forall p :: l.start <= p < l.end ==> IsSpace(text[p]) || text[p] == '#' || Within(b, p)
  }

  ghost predicate ReadsAll(text: string, blocks: seq<Parsed>, lines: seq<Lines>) {
    |blocks| == |lines| && forall k :: 0 <= k < |blocks| ==> Reads(text, blocks[k], lines[k])
  }

  /** The outline as far as it has been walked. */
  ghost predicate Walked(text: string, lines: seq<Lines>, pos: nat) {
    pos <= |text| && Outline(text, 0) == Then(lines, Outline(text, pos))
  }

  lemma Walks(text: string, lines: seq<Lines>, pos: nat)
    requires Walked(text, lines, pos) && pos < |text| && LineText(text, pos) != "" && !Unclosed(text, pos)
    ensures Walked(text, lines + [Lines(KindOf(LineText(text, pos)), pos, BlockTo(text, pos))], BlockTo(text, pos))
  {
    var l, rest := Lines(KindOf(LineText(text, pos)), pos, BlockTo(text, pos)), Outline(text, BlockTo(text, pos));
    if rest.Some? { assert lines + [l] + rest.value == lines + ([l] + rest.value); }
  }

  // ---- Stretches ----

  /** The content of a line as a stretch of the text. */
  lemma LineStretch(text: string, pos: nat) returns (lo: nat, hi: nat)
    requires pos < |text|
    ensures pos <= lo <= hi <= LineEnd(text, pos) && LineText(text, pos) == text[lo..hi]
    ensures forall p :: pos <= p < LineEnd(text, pos) && !(lo <= p < hi) ==> IsSpace(text[p])
    ensures lo < hi ==> !IsSpace(text[lo]) && !IsSpace(text[hi - 1])
  {
    var end := LineEnd(text, pos);
    var e1 := ChopStretch(text, pos, end, '\n');
    var e2 := ChopStretch(text, pos, e1, '\r');
    lo, hi := TrimStretch(text, pos, e2);
    assert forall p :: e2 <= p < end ==> text[p] == '\n' || text[p] == '\r';
  }

  lemma ChopStretch(text: string, a: nat, b: nat, c: char) returns (e: nat)
    requires a <= b <= |text|
    ensures a <= e <= b && Chop(text[a..b], c) == text[a..e]
    ensures forall p :: e <= p < b ==> text[p] == c
  {
    var line := text[a..b];
    if a < b && text[b - 1] == c {
      e := b - 1;
      assert line[|line| - 1] == c;
      assert line[..|line| - 1] == text[a..e];
    } else {
      e := b;
      assert line != "" ==> line[|line| - 1] == text[b - 1];
    }
  }

  /** A stretch that follows only spaces is where its text first occurs. */
  lemma IndexAfterSpaces(text: string, a: nat, b: nat, lo: nat, hi: nat)
    requires a <= lo < hi <= b <= |text| && !IsSpace(text[lo]) && forall p :: a <= p < lo ==> IsSpace(text[p])
    ensures Index(text[a..b], text[lo..hi]) == lo - a
  {
    var piece, part := text[a..b], text[lo..hi];
    SliceOfSlice(text, a, b, lo - a, hi - a);
    IndexIsFirst(piece, part, lo - a);
    var i := Index(piece, part);
    assert piece[i] == part[0] by { assert piece[i..i + |part|][0] == piece[i]; }
    assert text[a + i] == text[lo];
  }

  /** Text that also occurs a little earlier, behind spaces and marks only, is all spaces and marks. */
  lemma {:induction false} Shifted(text: string, s: nat, t: nat, n: nat, p: nat)
    requires s < t && t + n <= |text| && text[s..s + n] == text[t..t + n] && t <= p < t + n
    requires forall q :: s <= q < t ==> IsSpace(text[q]) || text[q] == '#'
    ensures IsSpace(text[p]) || text[p] == '#'
    decreases p
  {
    var j := p - t;
    assert text[p] == text[t..t + n][j] == text[s..s + n][j] == text[s + j];
    if s + j >= t { Shifted(text, s, t, n, s + j); }
  }

  // ---- Adding what was read ----

  lemma Skips(text: string, blocks: seq<Parsed>, pos: nat, end: nat)
    requires ReadUpTo(text, blocks, pos) && pos <= end <= |text| && forall p :: pos <= p < end ==> IsSpace(text[p])
    ensures ReadUpTo(text, blocks, end)
  {
  }

  lemma Extends(text: string, blocks: seq<Parsed>, pos: nat, b: Parsed, end: nat)
    requires ReadUpTo(text, blocks, pos) && Faithful(text, b) && pos <= b.start && b.end <= end <= |text|
    requires forall p :: pos <= p < end ==> IsSpace(text[p]) || text[p] == '#' || Within(b, p)
    ensures ReadUpTo(text, blocks + [b], end)
  {
    var more := blocks + [b];
    assert more[|blocks|] == b;
    forall p | 0 <= p < end ensures Filler(text, more, p) {
      if p < pos {
        assert Filler(text, blocks, p);
        if !IsSpace(text[p]) && text[p] != '#' {
          var k :| 0 <= k < |blocks| && Within(blocks[k], p);
          assert Within(more[k], p);
        }
      } else if Within(b, p) {
        assert Within(more[|blocks|], p);
      }
    }
  }

  // ---- The code ----

  /** Reads on to the line that closes a fence. */
  method CloseFence(text: string, start: nat, fence: string) returns (pos: nat, closed: bool)
    requires start <= |text|
    ensures start <= pos <= |text| && closed == Closes(text, start, fence)
    ensures closed ==> pos == FenceTo(text, start, fence)
  {
    pos, closed := start, false;
    while pos < |text|
      invariant start <= pos <= |text| && Closes(text, start, fence) == Closes(text, pos, fence)
      invariant Closes(text, pos, fence) ==> FenceTo(text, start, fence) == FenceTo(text, pos, fence)
      decreases |text| - pos
    {
      var candidate := LineText(text, pos);
      pos := LineEnd(text, pos);
      if Begins(candidate, fence) { return pos, true; }
    }
  }

  /** Reads on to a line that cannot continue a paragraph. */
  method ParagraphEnd(text: string, start: nat) returns (pos: nat)
    requires start <= |text|
    ensures pos == ParagraphTo(text, start)
  {
    pos := start;
    while pos < |text|
      invariant start <= pos <= |text| && ParagraphTo(text, start) == ParagraphTo(text, pos)
      decreases |text| - pos
    {
      if EndsParagraph(LineText(text, pos)) { return; }
      pos := LineEnd(text, pos);
    }
  }

  /** The title stands at `t`; around it the line has only spaces and marks. */
  ghost predicate TitleAt(text: string, pos: nat, t: nat, title: string)
    requires pos < |text|
  {
    && pos <= t && t + |title| <= LineEnd(text, pos) && title != "" && title == text[t..t + |title|]
    && (forall p :: pos <= p < LineEnd(text, pos) && !(t <= p < t + |title|) ==> IsSpace(text[p]) || text[p] == '#')
  }

  lemma TitleStretch(text: string, lo: nat, hi: nat, trim: string) returns (t: nat, h: nat)
    requires lo < hi <= |text| && trim == text[lo..hi] && IsHeading(trim) && !IsSpace(text[hi - 1])
    ensures lo <= t < h <= hi && Trim(trim[Hashes(trim)..]) == text[t..h]
    ensures forall p :: lo <= p < hi && !(t <= p < h) ==> IsSpace(text[p]) || text[p] == '#'
  {
    var level := Hashes(trim);
    assert trim[level..] == text[lo + level..hi];
    t, h := TrimStretch(text, lo + level, hi);
    assert IsSpace(text[lo + level]) by { assert text[lo + level] == trim[level]; }
    assert lo + level < hi - 1;
    forall p | lo <= p < lo + level ensures text[p] == '#' { assert text[p] == trim[p - lo]; }
  }

  /** Where the title of a heading line stands. */
  lemma HeadingTitle(text: string, pos: nat) returns (t: nat)
    requires pos < |text| && IsHeading(LineText(text, pos))
    ensures var trim := LineText(text, pos); TitleAt(text, pos, t, Trim(trim[Hashes(trim)..]))
  {
    var lo, hi := LineStretch(text, pos);
    var h;
    t, h := TitleStretch(text, lo, hi, LineText(text, pos));
  }

  lemma FoundWithin(text: string, pos: nat, end: nat, line: string, t: nat, h: nat, title: string)
    requires pos <= t <= h <= end <= |text| && title == text[t..h] && line == text[pos..end]
    ensures var i := Index(line, title); 0 <= i <= t - pos && text[pos + i..pos + i + |title|] == title
  {
    var k := t - pos;
    StandsAt(text, pos, end, line, k, title);
    IndexIsFirst(line, title, k);
    FoundAt(text, pos, end, line, Index(line, title), title);
  }

  lemma StandsAt(text: string, pos: nat, end: nat, line: string, k: nat, title: string)
    requires pos + k + |title| <= end <= |text| && line == text[pos..end] && title == text[pos + k..pos + k + |title|]
    ensures line[k..k + |title|] == title
  {
    SliceOfSlice(text, pos, end, k, k + |title|);
  }

  lemma FoundAt(text: string, pos: nat, end: nat, line: string, i: nat, title: string)
    requires pos <= end <= |text| && line == text[pos..end] && i + |title| <= |line| && line[i..i + |title|] == title
    ensures text[pos + i..pos + i + |title|] == title
  {
    SliceOfSlice(text, pos, end, i, i + |title|);
  }

  /** The block at the first place where the title occurs in its line. */
  lemma TitleBlock(text: string, pos: nat, t: nat, title: string, level: nat, start: nat)
    requires pos < |text| && TitleAt(text, pos, t, title) && 1 <= level <= 6
    requires pos <= start <= t && text[start..start + |title|] == title
    ensures var b := Parsed(Heading, title, level, "", start, start + |title|);
            && Faithful(text, b) && b.end <= LineEnd(text, pos)
            && forall p :: pos <= p < LineEnd(text, pos) ==> IsSpace(text[p]) || text[p] == '#' || Within(b, p)
  {
    TitleCovers(text, pos, start, t, |title|);
  }

  method FindTitle(text: string, pos: nat, end: nat, title: string, ghost t: nat) returns (start: nat)
    requires pos <= t && t + |title| <= end <= |text| && title == text[t..t + |title|]
    ensures pos <= start <= t && text[start..start + |title|] == title
  {
    var line := text[pos..end];
    FoundWithin(text, pos, end, line, t, t + |title|, title);
    start := pos + Index(line, title);
  }

  /** A heading line as a block. */
  method HeadingBlock(text: string, pos: nat) returns (b: Parsed)
    requires pos < |text| && IsHeading(LineText(text, pos))
    ensures IsBlock(text, b, Lines(Heading, pos, LineEnd(text, pos)))
  {
    var trim := LineText(text, pos);
    var level := Hashes(trim);
    var title := Trim(trim[level..]);
    ghost var t := HeadingTitle(text, pos);
    var start := FindTitle(text, pos, LineEnd(text, pos), title, t);
    TitleBlock(text, pos, t, title, level, start);
    b := Parsed(Heading, title, level, "", start, start + |title|);
  }

  lemma TitleCovers(text: string, pos: nat, s: nat, t: nat, n: nat)
    requires pos < |text| && pos <= s <= t && t + n <= LineEnd(text, pos) && text[s..s + n] == text[t..t + n]
    requires forall p :: pos <= p < LineEnd(text, pos) && !(t <= p < t + n) ==> IsSpace(text[p]) || text[p] == '#'
    ensures forall p :: pos <= p < LineEnd(text, pos) ==> IsSpace(text[p]) || text[p] == '#' || s <= p < s + n
  {
    if s < t {
      forall p | t <= p < t + n ensures IsSpace(text[p]) || text[p] == '#' { Shifted(text, s, t, n, p); }
    }
  }

  /** A trimmed stretch as a block of its own. */
  method StretchBlock(text: string, a: nat, b: nat, kind: Kind, body: string, ghost lo: nat, ghost hi: nat) returns (block: Parsed)
    requires a <= lo < hi <= b <= |text| && body == text[lo..hi] && !IsSpace(text[lo]) && kind in {ListItem, Paragraph}
    requires forall p :: a <= p < b && !(lo <= p < hi) ==> IsSpace(text[p])
    ensures Faithful(text, block) && block.kind == kind && block.start == lo && block.end == hi
  {
    IndexAfterSpaces(text, a, b, lo, hi);
    var first := Index(text[a..b], body);
    block := Parsed(kind, body, 0, "", a + first, a + first + |body|);
  }

  /** Reads a paragraph: up to the next line that cannot continue it, and one line at least. */
  method ReadParagraph(text: string, start: nat) returns (pos: nat, r: Option<Parsed>)
    requires start < |text|
    ensures start < pos <= |text|
    ensures pos == if EndsParagraph(LineText(text, start)) then LineEnd(text, start) else ParagraphTo(text, LineEnd(text, start))
    ensures r.None? ==> LineText(text, start) == ""
    ensures r.Some? ==> IsBlock(text, r.value, Lines(Paragraph, start, pos))
  {
    pos := ParagraphEnd(text, start);
    if pos == start { pos := LineEnd(text, start); }
    var body := Trim(text[start..pos]);
    ghost var l, h := TrimStretch(text, start, pos);
    ghost var lo, hi := LineStretch(text, start);
    if body == "" { return pos, None; }
    var block := StretchBlock(text, start, pos, Paragraph, body, l, h);
    return pos, Some(block);
  }

  /** A line of a list as a block. */
  method ItemBlock(text: string, pos: nat) returns (b: Parsed)
    requires pos < |text| && LineText(text, pos) != ""
    ensures IsBlock(text, b, Lines(ListItem, pos, LineEnd(text, pos)))
  {
    ghost var lo, hi := LineStretch(text, pos);
    b := StretchBlock(text, pos, LineEnd(text, pos), ListItem, LineText(text, pos), lo, hi);
  }

  /** A fence with all its lines as a block. */
  method CodeBlock(text: string, start: nat, end: nat, language: string) returns (b: Parsed)
    requires start < |text| && LineEnd(text, start) <= end <= |text|
    requires OpensFence(LineText(text, start)) && language == Trim(LineText(text, start)[3..])
    ensures IsBlock(text, b, Lines(Code, start, end))
  {
    ghost var lo, hi := LineStretch(text, start);
    ghost var l, h := TrimStretch(text, start, end);
    assert !IsSpace(text[lo]);
    b := Parsed(Code, Trim(text[start..end]), 0, language, start, end);
  }

  /** What has been read up to a line. */
  ghost predicate Progress(text: string, blocks: seq<Parsed>, lines: seq<Lines>, pos: nat) {
    ReadUpTo(text, blocks, pos) && Walked(text, lines, pos) && ReadsAll(text, blocks, lines)
  }

  lemma Starts(text: string)
    ensures Progress(text, [], [], 0)
  {
    if Outline(text, 0).Some? { assert [] + Outline(text, 0).value == Outline(text, 0).value; }
  }

  lemma PassesBlank(text: string, blocks: seq<Parsed>, lines: seq<Lines>, pos: nat)
    requires Progress(text, blocks, lines, pos) && pos < |text| && LineText(text, pos) == ""
    ensures Progress(text, blocks, lines, LineEnd(text, pos))
  {
    var lo, hi := LineStretch(text, pos);
    assert lo == hi;
    Skips(text, blocks, pos, LineEnd(text, pos));
  }

  lemma TakesBlock(text: string, blocks: seq<Parsed>, lines: seq<Lines>, pos: nat, b: Parsed, l: Lines)
    requires Progress(text, blocks, lines, pos) && pos < |text| && LineText(text, pos) != "" && !Unclosed(text, pos)
    requires l == Lines(KindOf(LineText(text, pos)), pos, BlockTo(text, pos)) && IsBlock(text, b, l)
    ensures Progress(text, blocks + [b], lines + [l], l.end)
  {
    Extends(text, blocks, pos, b, l.end);
    Walks(text, lines, pos);
  }

  /** The blocks of a text, or nothing if a fence is never closed. */
  method ParseMarkdown(text: string) returns (r: Option<seq<Parsed>>)
    ensures r.Some? ==> ReadUpTo(text, r.value, |text|)
    ensures r.Some? <==> Outline(text, 0).Some?
    ensures r.Some? ==> ReadsAll(text, r.value, Outline(text, 0).value)
  {
    var blocks: seq<Parsed> := [];
    ghost var lines: seq<Lines> := [];
    var pos := 0;
    Starts(text);
    while pos < |text|
      invariant Progress(text, blocks, lines, pos)
      decreases |text| - pos
    {
      var lineEnd := LineEnd(text, pos);
      var trim := LineText(text, pos);
      if trim == "" {
        PassesBlank(text, blocks, lines, pos);
        pos := lineEnd;
        continue;
      }
      var start, block := pos, None;
      if OpensFence(trim) {
        var fence, language := trim[..3], Trim(trim[3..]);
        var closed;
        pos, closed := CloseFence(text, lineEnd, fence);
        if !closed { return None; }
        var code := CodeBlock(text, start, pos, language);
        block := Some(code);
      } else if Begins(trim, "#") && IsHeading(trim) {
        var heading := HeadingBlock(text, pos);
        block, pos := Some(heading), lineEnd;
      } else if IsList(trim) {
        var item := ItemBlock(text, pos);
        block, pos := Some(item), lineEnd;
      } else {
        pos, block := ReadParagraph(text, start);
      }
      if block.Some? {
        TakesBlock(text, blocks, lines, start, block.value, Lines(KindOf(trim), start, pos));
        blocks, lines := blocks + [block.value], lines + [Lines(KindOf(trim), start, pos)];
      }
    }
    return Some(blocks);
  }

  // ---- From blocks to chunks ----

  function AsBlock(b: Parsed): StructuredChunks.Block {
    StructuredChunks.Block(b.kind == Heading, b.text, b.level, b.start, b.end)
  }

  function AsBlocks(blocks: seq<Parsed>): seq<StructuredChunks.Block> {
    seq(|blocks|, i requires 0 <= i < |blocks| => AsBlock(blocks[i]))
  }

  /** Parsed blocks are blocks the chunker divides: no empty text, and heading levels 1 to 6. */
  lemma ParsedBlocksDivide(text: string, blocks: seq<Parsed>)
    requires ReadUpTo(text, blocks, |text|)
    ensures StructuredChunks.Good(AsBlocks(blocks)) && StructuredChunks.Levels(AsBlocks(blocks))
  {
    forall i | 0 <= i < |blocks| ensures AsBlocks(blocks)[i].text != "" && StructuredChunks.ValidLevel(AsBlocks(blocks)[i]) {
      assert Faithful(text, blocks[i]);
    }
  }
}
