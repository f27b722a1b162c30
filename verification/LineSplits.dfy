/** Text arriving in reads of any size, cut into lines that are shown to an observer one
  * at a time. What an observer makes of a line is a parameter here. */
module LineSplits {

  /** The longest partial line kept between reads. */
  const CAP: nat := 0x10_0000

  /** What the observer knows after one more line. */
  type Observer<!S> = (S, string) -> S

  function Fold<S>(observe: Observer<S>, s: S, lines: seq<string>): S {
    if lines == [] then s else Fold(observe, observe(s, lines[0]), lines[1..])
  }

  /** The position of the first line feed, or the length without one. */
  function Newline(s: string): (i: nat)
    ensures i <= |s| && (i < |s| ==> s[i] == '\n')
    ensures forall k :: 0 <= k < i ==> s[k] != '\n'
  {
    if s == "" || s[0] == '\n' then 0 else 1 + Newline(s[1..])
  }

  /** The complete lines of a text. */
  function Lines(s: string): seq<string> {
    var i := Newline(s);
    if i == |s| then [] else [s[..i]] + Lines(s[i + 1..])
  }

  /** What follows the last line feed. */
  function Tail(s: string): string {
    var i := Newline(s);
    if i == |s| then s else Tail(s[i + 1..])
  }

  function KeepLast(s: string): string {
    if |s| > CAP then s[|s| - CAP..] else s
  }

  datatype State<S> = State(pending: string, seen: S)

  /** What one read of `chunk` does. */
  function ScanChunk<S>(observe: Observer<S>, st: State<S>, chunk: string): State<S> {
    var data := st.pending + chunk;
    State(KeepLast(Tail(data)), Fold(observe, st.seen, Lines(data)))
  }

  function ReadAll<S>(observe: Observer<S>, st: State<S>, parts: seq<string>): State<S>
    decreases |parts|
  {
    if parts == [] then st else ReadAll(observe, ScanChunk(observe, st, parts[0]), parts[1..])
  }

  function Concat(parts: seq<string>): string {
    if parts == [] then "" else parts[0] + Concat(parts[1..])
  }

  // ---- How the reads are split ----

  /** `cut` is `full` with its front possibly missing, but never shorter than the cap for that. */
  predicate Trimmed(full: string, cut: string) {
    |cut| <= |full| && cut == full[|full| - |cut|..] && (|cut| >= CAP || cut == full)
  }

  ghost predicate AllTrimmed(full: seq<string>, cut: seq<string>) {
    |cut| == |full| && forall i :: 0 <= i < |full| ==> Trimmed(full[i], cut[i])
  }

  predicate Plain(s: string) {
    '\n' !in s
  }

  lemma PlainText(s: string)
    requires Plain(s)
    ensures Lines(s) == [] && Tail(s) == s
  {
  }

  lemma LineFirst(line: string, rest: string)
    requires Plain(line)
    ensures Lines(line + "\n" + rest) == [line] + Lines(rest)
    ensures Tail(line + "\n" + rest) == Tail(rest)
  {
    var s := line + "\n" + rest;
    assert s[|line|] == '\n';
    assert forall k :: 0 <= k < |line| ==> s[k] == line[k];
    assert Newline(s) == |line|;
    assert s[..|line|] == line && s[|line| + 1..] == rest;
  }

  /** A text with a line feed is its first line and the rest. */
  lemma Cut(s: string) returns (line: string, rest: string)
    requires !Plain(s)
    ensures Plain(line) && s == line + "\n" + rest
    ensures Lines(s) == [line] + Lines(rest) && Tail(s) == Tail(rest)
  {
    var i := Newline(s);
    line, rest := s[..i], s[i + 1..];
  }

  lemma {:induction false} TailPlain(s: string)
    ensures Plain(Tail(s))
    decreases |s|
  {
    if !Plain(s) {
      var line, rest := Cut(s);
      TailPlain(rest);
    }
  }

  lemma CutAppend(a: string, b: string, line: string, rest: string)
    requires Plain(line) && a == line + "\n" + rest
    ensures Lines(a + b) == [line] + Lines(rest + b) && Tail(a + b) == Tail(rest + b)
  {
    assert a + b == line + "\n" + (rest + b);
    LineFirst(line, rest + b);
  }

  lemma Regroup(line: string, a: seq<string>, b: seq<string>)
    ensures [line] + (a + b) == ([line] + a) + b
  {
  }

  /** The complete lines of a longer text: those of its front, then those from the front's tail on. */
  lemma {:induction false} LinesAppend(a: string, b: string)
    ensures Lines(a + b) == Lines(a) + Lines(Tail(a) + b)
    ensures Tail(a + b) == Tail(Tail(a) + b)
    decreases |a|
  {
    if Plain(a) {
      PlainText(a);
    } else {
      var line, rest := Cut(a);
      LinesAppend(rest, b);
      CutAppend(a, b, line, rest);
      Regroup(line, Lines(rest), Lines(Tail(rest) + b));
    }
  }

  lemma {:induction false} FoldAppend<S>(observe: Observer<S>, s: S, a: seq<string>, b: seq<string>)
    ensures Fold(observe, s, a + b) == Fold(observe, Fold(observe, s, a), b)
    decreases |a|
  {
    if a == [] {
      assert a + b == b;
    } else {
      assert (a + b)[1..] == a[1..] + b;
      FoldAppend(observe, observe(s, a[0]), a[1..], b);
    }
  }

  lemma TrimmedAppend(full: string, cut: string, x: string)
    requires Trimmed(full, cut)
    ensures Trimmed(full + x, cut + x)
  {
    assert (full + x)[|full| - |cut|..] == full[|full| - |cut|..] + x;
  }

  lemma TrimmedKeepLast(full: string, cut: string)
    requires Trimmed(full, cut)
    ensures Trimmed(full, KeepLast(cut))
  {
  }

  lemma TrimmedPlain(full: string, cut: string)
    requires Trimmed(full, cut) && Plain(full)
    ensures Plain(cut)
  {
  }

  lemma FrontLine(front: string, chunk: string, line: string, rest: string)
    requires Plain(front) && Plain(line) && chunk == line + "\n" + rest
    ensures Lines(front + chunk) == [front + line] + Lines(rest) && Tail(front + chunk) == Tail(rest)
  {
    assert front + chunk == (front + line) + "\n" + rest;
    LineFirst(front + line, rest);
  }

  lemma TrimmedItself(lines: seq<string>)
    ensures AllTrimmed(lines, lines)
  {
  }

  lemma AllTrimmedAppend(a: seq<string>, a': seq<string>, b: seq<string>, b': seq<string>)
    requires AllTrimmed(a, a') && AllTrimmed(b, b')
    ensures AllTrimmed(a + b, a' + b')
  {
  }

  /** A cut front only ever shows in the first line, or in the tail when no line is complete. */
  lemma TrimmedFront(full: string, cut: string, chunk: string)
    requires Trimmed(full, cut) && Plain(full)
    ensures AllTrimmed(Lines(full + chunk), Lines(cut + chunk))
    ensures Trimmed(Tail(full + chunk), Tail(cut + chunk))
  {
    TrimmedPlain(full, cut);
    if Plain(chunk) {
      PlainText(full + chunk);
      PlainText(cut + chunk);
      TrimmedAppend(full, cut, chunk);
    } else {
      var line, rest := Cut(chunk);
      FrontLine(full, chunk, line, rest);
      FrontLine(cut, chunk, line, rest);
      TrimmedAppend(full, cut, line);
      TrimmedItself(Lines(rest));
      AllTrimmedAppend([full + line], [cut + line], Lines(rest), Lines(rest));
    }
  }

  /** However a stream is split into reads, what is seen is the fold over its lines, of
    * which only lines longer than the cap may have lost their front. */
  lemma {:induction false} ReadsSeeTrimmedLines<S>(observe: Observer<S>, st: State<S>, front: string, parts: seq<string>)
    returns (cut: seq<string>)
    requires Trimmed(front, st.pending) && Plain(front)
    ensures AllTrimmed(Lines(front + Concat(parts)), cut)
    ensures ReadAll(observe, st, parts).seen == Fold(observe, st.seen, cut)
    decreases |parts|
  {
    if parts == [] {
      assert front + Concat(parts) == front;
      PlainText(front);
      cut := [];
    } else {
      var data := front + parts[0];
      assert front + Concat(parts) == data + Concat(parts[1..]);
      LinesAppend(data, Concat(parts[1..]));
      TrimmedFront(front, st.pending, parts[0]);
      TrimmedKeepLast(Tail(data), Tail(st.pending + parts[0]));
      TailPlain(data);
      var later := ReadsSeeTrimmedLines(observe, ScanChunk(observe, st, parts[0]), Tail(data), parts[1..]);
      cut := Lines(st.pending + parts[0]) + later;
      AllTrimmedAppend(Lines(data), Lines(st.pending + parts[0]), Lines(Tail(data) + Concat(parts[1..])), later);
      FoldAppend(observe, st.seen, Lines(st.pending + parts[0]), later);
    }
  }

  lemma OneRead<S>(observe: Observer<S>, st: State<S>, a: string, rest: seq<string>)
    ensures ReadAll(observe, st, [a] + rest) == ReadAll(observe, ScanChunk(observe, st, a), rest)
    ensures Concat([a] + rest) == a + Concat(rest)
  {
    assert ([a] + rest)[1..] == rest;
  }

  /** One read that ends in a line feed shows one line and leaves nothing pending. */
  lemma ScanLine<S>(observe: Observer<S>, st: State<S>, part: string)
    requires Plain(st.pending + part)
    ensures ScanChunk(observe, st, part + "\n") == State("", observe(st.seen, st.pending + part))
  {
    var line := st.pending + part;
    assert st.pending + (part + "\n") == line + "\n" + "";
    LineFirst(line, "");
    assert Lines(line + "\n" + "") == [line];
    assert [line][1..] == [];
    assert Fold(observe, observe(st.seen, line), []) == observe(st.seen, line);
  }

  /** A read without a line feed only adds to what is pending. */
  lemma ScanPart<S>(observe: Observer<S>, st: State<S>, part: string)
    requires Plain(st.pending + part)
    ensures ScanChunk(observe, st, part) == State(KeepLast(st.pending + part), st.seen)
  {
    PlainText(st.pending + part);
  }

  /** The read that leaves the front of a long line behind, and the read that completes it. */
  lemma TwoReadsCut<S>(observe: Observer<S>, st: State<S>, line: string, cut: string) returns (a: string, b: string)
    requires st.pending == "" && Plain(line) && Trimmed(line, cut) && |cut| < |line|
    ensures a + b == line + "\n"
    ensures ScanChunk(observe, ScanChunk(observe, st, a), b) == State("", observe(st.seen, cut))
  {
    var lost := |line| - |cut|;
    var m := CAP + lost;
    a, b := line[..m], line[m..] + "\n";
    assert st.pending + a == a;
    ScanPart(observe, st, a);
    var st' := ScanChunk(observe, st, a);
    assert st'.pending + line[m..] == cut by { assert KeepLast(a) == line[lost..m]; }
    ScanLine(observe, st', line[m..]);
  }

  /** Reads that make the observer see `line` as `cut`. */
  lemma ReadsForLine<S>(observe: Observer<S>, seen: S, line: string, cut: string, rest: seq<string>)
    returns (parts: seq<string>)
    requires Plain(line) && Trimmed(line, cut)
    ensures Concat(parts) == line + "\n" + Concat(rest)
    ensures ReadAll(observe, State("", seen), parts) == ReadAll(observe, State("", observe(seen, cut)), rest)
  {
    var st := State("", seen);
    if cut == line {
      assert st.pending + line == line;
      ScanLine(observe, st, line);
      OneRead(observe, st, line + "\n", rest);
      parts := [line + "\n"] + rest;
    } else {
      var a, b := TwoReadsCut(observe, st, line, cut);
      OneRead(observe, ScanChunk(observe, st, a), b, rest);
      OneRead(observe, st, a, [b] + rest);
      parts := [a] + ([b] + rest);
      Regroup3(a, b, Concat(rest));
    }
  }

  lemma Regroup3(a: string, b: string, c: string)
    ensures a + (b + c) == (a + b) + c
  {
  }

  /** Conversely, any such loss comes about under some split. */
  lemma {:induction false} SomeReadsSee<S>(observe: Observer<S>, seen: S, bytes: string, cut: seq<string>)
    returns (parts: seq<string>)
    requires AllTrimmed(Lines(bytes), cut)
    ensures Concat(parts) == bytes
    ensures ReadAll(observe, State("", seen), parts).seen == Fold(observe, seen, cut)
    decreases |bytes|
  {
    if Plain(bytes) {
      assert "" + bytes == bytes;
      ScanPart(observe, State("", seen), bytes);
      PlainText(bytes);
      OneRead(observe, State("", seen), bytes, []);
      parts := [bytes] + [];
    } else {
      var line, after := Cut(bytes);
      assert Lines(after) == Lines(bytes)[1..];
      assert AllTrimmed(Lines(after), cut[1..]);
      var rest := SomeReadsSee(observe, observe(seen, cut[0]), after, cut[1..]);
      parts := ReadsForLine(observe, seen, line, cut[0], rest);
    }
  }

  lemma ShortLinesAreWhole(lines: seq<string>, cut: seq<string>)
    requires AllTrimmed(lines, cut) && forall l :: l in lines ==> |l| <= CAP
    ensures cut == lines
  {
    forall i | 0 <= i < |lines| ensures cut[i] == lines[i] { assert lines[i] in lines; }
  }
}
