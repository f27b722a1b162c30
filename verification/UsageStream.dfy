/** The observer on a streamed answer: which lines it sees, and what it concludes.
  * Characters stand for the stream's bytes. */
module UsageStream {
  import opened Results
  import opened JsonTree
  import opened LineSplits
  import opened UsageReport

  /** What the lines so far have shown: a terminal event, and the latest event carrying usage. */
  datatype Seen = Seen(terminal: bool, usage: Option<string>)

  const NOTHING := Seen(false, None)

  const TERMINAL: set<string> :=
    {"response.completed", "response.incomplete", "response.failed", "response.cancelled", "error"}

  function TrimLeft(s: string): string {
    if s != "" && s[0] == ' ' then TrimLeft(s[1..]) else s
  }

  function TrimReturn(line: string): string {
    if line != "" && line[|line| - 1] == '\r' then line[..|line| - 1] else line
  }

  predicate IsTerminal(env: seq<Field>) {
    match Lookup(env, "type")
    case Some(Text(t)) => t in TERMINAL
    case _ => false
  }

  predicate CarriesUsage(env: seq<Field>) {
    || UsageObject(env).Some?
    || (match Lookup(env, "response")
        case Some(Object(r)) => UsageObject(r).Some?
        case _ => false)
  }

  /** One complete line, its line feed removed. */
  function Observed(decode: Decoder, s: Seen, line: string): Seen {
    var text := TrimReturn(line);
    if !("data:" <= text) then s
    else
      var data := TrimLeft(text[5..]);
      if data == "[DONE]" then s.(terminal := true)
      else
        match decode(data)
        case Some(Object(env)) =>
          Seen(s.terminal || IsTerminal(env), if CarriesUsage(env) then Some(data) else s.usage)
        case _ => s
  }

  function Observing(decode: Decoder): Observer<Seen> {
    (s, line) => Observed(decode, s, line)
  }

  // ---- The code ----

  /** A wrapped body. `reports` are the calls made to the finish callback. */
  class AccountingStream {
    const decode: Decoder
    var pending: string
    var usageRaw: Option<string>
    var terminal: bool
    var eof: bool
    var finished: bool
    var reports: seq<Seen>

    ghost function View(): State<Seen>
      reads this
    {
      State(pending, Seen(terminal, usageRaw))
    }

    /** The callback ran at most once, and exactly when the once-guard is spent. */
    ghost predicate Valid()
      reads this
    {
      && Plain(pending) && |pending| <= CAP
      && |reports| == (if finished then 1 else 0) && (eof ==> finished)
    }

    constructor (decode: Decoder)
      ensures Valid() && View() == State("", NOTHING) && this.decode == decode && !finished
    {
      this.decode := decode;
      pending, usageRaw, terminal, eof, finished, reports := "", None, false, false, false, [];
    }

    method ObserveLine(line: string)
      modifies `usageRaw, `terminal
      ensures Seen(terminal, usageRaw) == Observed(decode, Seen(old(terminal), old(usageRaw)), line)
    {
      var text := TrimReturn(line);
      if !("data:" <= text) { return; }
      var data := TrimLeft(text[5..]);
      if data == "[DONE]" {
        terminal := true;
        return;
      }
      match decode(data) {
        case Some(Object(env)) =>
          if IsTerminal(env) { terminal := true; }
          if CarriesUsage(env) { usageRaw := Some(data); }
        case _ =>
      }
    }

    method Scan(chunk: string)
      modifies `pending, `usageRaw, `terminal
      ensures View() == ScanChunk(Observing(decode), old(View()), chunk) && Plain(pending) && |pending| <= CAP
    {
      pending := pending + chunk;
      ghost var data, seen := pending, Seen(terminal, usageRaw);
      while Newline(pending) < |pending|
        invariant Tail(pending) == Tail(data)
        invariant Fold(Observing(decode), Seen(terminal, usageRaw), Lines(pending)) == Fold(Observing(decode), seen, Lines(data))
        decreases |pending|
      {
        var i := Newline(pending);
        var line := pending[..i];
        assert Lines(pending)[0] == line && Lines(pending)[1..] == Lines(pending[i + 1..]);
        pending := pending[i + 1..];
        ObserveLine(line);
      }
      if |pending| > CAP { pending := pending[|pending| - CAP..]; }
    }

    method Finalize()
      requires Valid()
      modifies `finished, `reports
      ensures Valid() && finished
      ensures reports == if old(finished) then old(reports) else [Seen(terminal, usageRaw)]
    {
      if finished { return; }
      finished := true;
      reports := reports + [Seen(terminal, usageRaw)];
    }

    /** One read of the body: the bytes it gave, and whether it ended there. */
    method Read(chunk: string, atEnd: bool)
      requires Valid()
      modifies this
      ensures Valid() && View() == ScanChunk(Observing(decode), old(View()), chunk)
      ensures finished == (old(finished) || atEnd)
      ensures reports == if atEnd && !old(finished) then [View().seen] else old(reports)
    {
      if |chunk| > 0 {
        Scan(chunk);
      } else {
        EmptyRead(decode, View());
      }
      if atEnd {
        Finalize();
        eof := true;
      }
    }

    /** Closing the body, early or after its end. */
    method Close()
      requires Valid()
      modifies `finished, `reports
      ensures Valid() && finished
      ensures reports == if old(finished) then old(reports) else [View().seen]
    {
      Finalize();
    }
  }

  lemma EmptyRead(decode: Decoder, st: State<Seen>)
    requires Plain(st.pending) && |st.pending| <= CAP
    ensures ScanChunk(Observing(decode), st, "") == st
  {
    assert st.pending + "" == st.pending;
    PlainText(st.pending);
  }

  // ---- Main results ----

  /** What is seen of a stream that arrives in these reads. */
  function Outcome(decode: Decoder, parts: seq<string>): Seen {
    ReadAll(Observing(decode), State("", NOTHING), parts).seen
  }

  function OverLines(decode: Decoder, lines: seq<string>): Seen {
    Fold(Observing(decode), NOTHING, lines)
  }

  ghost predicate SplitNeverShows(decode: Decoder, bytes: string) {
    forall parts :: Concat(parts) == bytes ==> Outcome(decode, parts) == OverLines(decode, Lines(bytes))
  }

  ghost predicate LostFrontsNeverShow(decode: Decoder, bytes: string) {
    forall cut :: AllTrimmed(Lines(bytes), cut) ==> OverLines(decode, cut) == OverLines(decode, Lines(bytes))
  }

  /** With no line longer than the cap, every way of splitting a stream into reads gives
    * the same terminal flag and usage bytes: those of its complete lines, one by one. */
  lemma SplitNeverShowsInShortLines(decode: Decoder, bytes: string)
    requires forall l :: l in Lines(bytes) ==> |l| <= CAP
    ensures SplitNeverShows(decode, bytes)
  {
    forall parts | Concat(parts) == bytes ensures Outcome(decode, parts) == OverLines(decode, Lines(bytes)) {
      var cut := ReadsSeeTrimmedLines(Observing(decode), State("", NOTHING), "", parts);
      assert "" + bytes == bytes;
      ShortLinesAreWhole(Lines(bytes), cut);
    }
  }

  /** For any stream at all: the split does not matter exactly when losing the fronts of
    * lines longer than the cap does not. */
  lemma SplitNeverShowsIff(decode: Decoder, bytes: string)
    ensures SplitNeverShows(decode, bytes) <==> LostFrontsNeverShow(decode, bytes)
  {
    assert "" + bytes == bytes;
    if LostFrontsNeverShow(decode, bytes) {
      forall parts | Concat(parts) == bytes ensures Outcome(decode, parts) == OverLines(decode, Lines(bytes)) {
        var cut := ReadsSeeTrimmedLines(Observing(decode), State("", NOTHING), "", parts);
      }
    }
    if SplitNeverShows(decode, bytes) {
      forall cut | AllTrimmed(Lines(bytes), cut) ensures OverLines(decode, cut) == OverLines(decode, Lines(bytes)) {
        var parts := SomeReadsSee(Observing(decode), NOTHING, bytes, cut);
        assert Outcome(decode, parts) == OverLines(decode, cut);
      }
    }
  }

  function Spaces(n: nat): (s: string)
    ensures |s| == n && forall i :: 0 <= i < n ==> s[i] == ' '
  {
    if n == 0 then "" else [' '] + Spaces(n - 1)
  }

  lemma {:induction false} TrimSpaces(n: nat)
    ensures TrimLeft(Spaces(n) + "[DONE]") == "[DONE]"
  {
    if n == 0 {
      assert Spaces(0) + "[DONE]" == "[DONE]";
    } else {
      TrimSpaces(n - 1);
      assert (Spaces(n) + "[DONE]")[1..] == Spaces(n - 1) + "[DONE]";
    }
  }

  /** A comment line one byte over the cap, whose last CAP bytes look like an end marker. */
  function Overlong(): string {
    "x" + ("data:" + Spaces(CAP - 11) + "[DONE]")
  }

  lemma MarkerEnds(decode: Decoder, n: nat)
    ensures Observed(decode, NOTHING, "data:" + Spaces(n) + "[DONE]").terminal
  {
    var line := "data:" + Spaces(n) + "[DONE]";
    assert line[|line| - 1] == "[DONE]"[5];
    assert line[5..] == Spaces(n) + "[DONE]";
    assert line[..5] == "data:";
    TrimSpaces(n);
  }

  lemma CommentShowsNothing(decode: Decoder, line: string)
    requires line != "" && line[0] != 'd'
    ensures Observed(decode, NOTHING, line) == NOTHING
  {
    assert "data:"[0] == 'd';
  }

  /** Beyond the cap the split does matter: in one read this stream shows nothing, in
    * some other split a terminal event. */
  lemma OverlongLineShowsTheSplit(decode: Decoder)
    ensures !SplitNeverShows(decode, Overlong() + "\n")
  {
    var line := Overlong();
    var marker := "data:" + Spaces(CAP - 11) + "[DONE]";
    OverlongPlain();
    assert line + "\n" + "" == line + "\n";
    LineFirst(line, "");
    CommentShowsNothing(decode, line);
    MarkerEnds(decode, CAP - 11);
    assert AllTrimmed([line], [marker]) by { assert line[1..] == marker; }
    SingleLine(decode, line);
    SingleLine(decode, marker);
    SplitNeverShowsIff(decode, line + "\n");
  }

  lemma OverlongPlain()
    ensures Plain(Overlong())
  {
    assert Plain("data:") && Plain("[DONE]") && Plain("x") && Plain(Spaces(CAP - 11));
  }

  lemma SingleLine(decode: Decoder, line: string)
    ensures OverLines(decode, [line]) == Observed(decode, NOTHING, line)
  {
    var seen := Observed(decode, NOTHING, line);
    assert Fold(Observing(decode), seen, [line][1..]) == seen;
  }

  // ---- What a line shows ----

  lemma {:induction false} TrimIndent(n: nat, data: string)
    requires data == "" || data[0] != ' '
    ensures TrimLeft(Spaces(n) + data) == data
  {
    if n == 0 {
      assert Spaces(0) + data == data;
    } else {
      TrimIndent(n - 1, data);
      assert (Spaces(n) + data)[1..] == Spaces(n - 1) + data;
    }
  }

  /** A data line, with any indent and perhaps a carriage return at its end. */
  function DataLine(n: nat, data: string, cr: bool): string {
    "data:" + (Spaces(n) + data) + (if cr then "\r" else "")
  }

  lemma DataLineText(n: nat, data: string, cr: bool)
    requires data == "" || (data[0] != ' ' && data[|data| - 1] != '\r')
    ensures "data:" <= TrimReturn(DataLine(n, data, cr)) && TrimLeft(TrimReturn(DataLine(n, data, cr))[5..]) == data
  {
    var text, line := "data:" + (Spaces(n) + data), DataLine(n, data, cr);
    if cr {
      assert line[|line| - 1] == '\r' && line[..|line| - 1] == text;
    } else {
      assert line == text;
      assert text[|text| - 1] != '\r' by {
        if data != "" { assert text[|text| - 1] == data[|data| - 1]; }
        else if n > 0 { assert text[|text| - 1] == Spaces(n)[n - 1]; }
        else { assert text[|text| - 1] == "data:"[4]; }
      }
    }
    assert TrimReturn(line) == text;
    assert text[..5] == "data:" && text[5..] == Spaces(n) + data;
    TrimIndent(n, data);
  }

  predicate EndsAnswer(event: Option<Json>) {
    || event == Some(Text("response.completed")) || event == Some(Text("response.incomplete"))
    || event == Some(Text("response.failed")) || event == Some(Text("response.cancelled")) || event == Some(Text("error"))
  }

  /** What one data line shows: the end marker, and any event of the five that end an answer or a
    * stream, are terminal; an event with a usage object, at top level or in its response, becomes
    * the usage; nothing else changes anything. */
  lemma DataLineShows(decode: Decoder, s: Seen, n: nat, data: string, cr: bool)
    requires data == "" || (data[0] != ' ' && data[|data| - 1] != '\r')
    ensures var t := Observed(decode, s, DataLine(n, data, cr));
            && (data == "[DONE]" ==> t == Seen(true, s.usage))
            && (data != "[DONE]" && decode(data).Some? && decode(data).value.Object? ==>
                  var env := decode(data).value.fields;
                  && (t.terminal <==> s.terminal || EndsAnswer(Lookup(env, "type")))
                  && t.usage == (if HoldsObject(env, "usage")
                                   || (HoldsObject(env, "response") && HoldsObject(Lookup(env, "response").value.fields, "usage"))
                                 then Some(data) else s.usage))
            && (data != "[DONE]" && !(decode(data).Some? && decode(data).value.Object?) ==> t == s)
  {
    DataLineText(n, data, cr);
  }

  /** Any other line shows nothing. */
  lemma OtherLineShowsNothing(decode: Decoder, s: Seen, line: string)
    requires !("data:" <= line)
    ensures Observed(decode, s, line) == s
  {
  }

  /** Over all lines: terminal exactly if some line is, and the usage is that of the last line that
    * carries one. */
  lemma {:induction false} LastUsageCounts(decode: Decoder, s: Seen, lines: seq<string>)
    ensures var t := Fold(Observing(decode), s, lines);
            && (t.terminal <==> s.terminal || exists i :: 0 <= i < |lines| && Observed(decode, NOTHING, lines[i]).terminal)
            && ((forall i :: 0 <= i < |lines| ==> Observed(decode, NOTHING, lines[i]).usage == None) ==> t.usage == s.usage)
            && (forall i :: 0 <= i < |lines| && Observed(decode, NOTHING, lines[i]).usage.Some?
                            && (forall j :: i < j < |lines| ==> Observed(decode, NOTHING, lines[j]).usage == None) ==>
                  t.usage == Observed(decode, NOTHING, lines[i]).usage)
    decreases |lines|
  {
    if lines != [] {
      var first, rest := lines[0], lines[1..];
      OneLineAdds(decode, s, first);
      LastUsageCounts(decode, Observed(decode, s, first), rest);
      assert forall i :: 0 <= i < |rest| ==> rest[i] == lines[i + 1];
      var t := Fold(Observing(decode), s, lines);
      if i :| 0 <= i < |lines| && Observed(decode, NOTHING, lines[i]).terminal {
        if i > 0 { assert rest[i - 1] == lines[i]; }
      }
      if i :| 0 <= i < |rest| && Observed(decode, NOTHING, rest[i]).terminal { assert lines[i + 1] == rest[i]; }
      forall i | 0 <= i < |lines| && Observed(decode, NOTHING, lines[i]).usage.Some?
                 && (forall j :: i < j < |lines| ==> Observed(decode, NOTHING, lines[j]).usage == None)
        ensures t.usage == Observed(decode, NOTHING, lines[i]).usage
      {
        if i > 0 { assert rest[i - 1] == lines[i]; }
      }
    }
  }

  lemma OneLineAdds(decode: Decoder, s: Seen, line: string)
    ensures var one, t := Observed(decode, NOTHING, line), Observed(decode, s, line);
            t == Seen(s.terminal || one.terminal, if one.usage.Some? then one.usage else s.usage)
  {
  }
}
