/** One call of Execute: admission permit, reservation, dispatch, and the one accounting
  * outcome, whatever the calls it makes answer and however its stream is read and closed. */
module ExecuteLifecycle {
  import opened Charge
  import opened FixedWidth
  import opened LineSplits
  import opened Results
  import opened UsageReport
  import opened UsageStream
  import opened UsageUnits

  /** A store call's answer. A lost one took effect although an error came back. */
  datatype Reply = Done | Refused | Lost

  function TookEffect(r: Reply): bool {
    !r.Refused?
  }

  datatype ResState = Held | Settled | Unknown | Released

  datatype Row = Row(state: ResState, dispatched: bool)

  /** The one usage record of a settlement. */
  datatype Evidence = Evidence(usage: Usage, amount: Amount)

  /** What came back from the provider: an answer, a definitive error status, or neither. */
  datatype Answer = Body(raw: string) | ErrorStatus(raw: string) | NoAnswer

  /** How the outside answers one attempt. `hasBody` says whether a streaming body was returned. */
  datatype Script = Script(
    admitted: bool,
    reserve: Reply,
    transport: bool,
    release: Reply,
    mark: Reply,
    stream: bool,
    hasBody: bool,
    answer: Answer,
    settle: Reply,
    unknown: Reply)

  datatype Outcome = Denied | Failed | Answered | Streaming

  /** What becomes of the attempt, from its first call to its last. */
  class Attempt {
    const decode: Decoder
    /** The reservation's price snapshot. */
    const snap: Snapshot
    /** The permit's once-guard, and how often its slot was given back. */
    var spent: bool
    var freed: nat
    var row: Option<Row>
    var records: seq<Evidence>
    /** Calls made to the provider. */
    var sent: nat

    constructor (decode: Decoder, snap: Snapshot)
      ensures this.decode == decode && this.snap == snap && Untouched()
    {
      this.decode, this.snap := decode, snap;
      spent, freed, row, records, sent := false, 0, None, [], 0;
    }

    ghost predicate Untouched()
      reads this
    {
      !spent && freed == 0 && row == None && records == [] && sent == 0
    }

    /** The evidence is consistent: a settled reservation has exactly one usage record and
      * was dispatched; a released one was never dispatched; a request that was sent is
      * settled or still liable. */
    ghost predicate Accounted()
      reads this
    {
      match row
      case None => sent == 0 && records == []
      case Some(r) =>
        && |records| == (if r.state == Settled then 1 else 0)
        && (r.state == Settled ==> r.dispatched)
        && (r.state == Released ==> !r.dispatched)
        && sent <= 1 && (sent > 0 ==> r.dispatched)
    }

    /** The permit's slot came back once, and everything is accounted for. */
    ghost predicate Over()
      reads this
    {
      spent && freed == 1 && Accounted()
    }

    predicate IsSettled()
      reads this
    {
      row.Some? && row.value.state == Settled
    }

    /** A stream in the caller's hands: permit held, reservation liable. */
    ghost predicate Open()
      reads this
    {
      !spent && freed == 0 && row == Some(Row(Held, true)) && records == [] && sent == 1
    }

    method ReleasePermit()
      modifies `spent, `freed
      ensures spent && freed == old(freed) + if old(spent) then 0 else 1
    {
      if !spent {
        spent := true;
        freed := freed + 1;
      }
    }

    method Reserve(reply: Reply) returns (ok: bool)
      requires row == None
      modifies `row
      ensures ok == reply.Done? && row == if TookEffect(reply) then Some(Row(Held, false)) else None
    {
      if TookEffect(reply) { row := Some(Row(Held, false)); }
      ok := reply.Done?;
    }

    method MarkDispatched(reply: Reply) returns (ok: bool)
      requires row.Some?
      modifies `row
      ensures ok == reply.Done?
      ensures row == if TookEffect(reply) then Some(old(row).value.(dispatched := true)) else old(row)
    {
      if TookEffect(reply) { row := Some(row.value.(dispatched := true)); }
      ok := reply.Done?;
    }

    method ReleaseUndispatched(reply: Reply) returns (ok: bool)
      requires row.Some?
      modifies `row
      ensures old(row).value == Row(Held, false) && TookEffect(reply) ==> row == Some(Row(Released, false))
      ensures !(old(row).value == Row(Held, false) && TookEffect(reply)) ==> row == old(row)
    {
      if row.value.state == Released { return true; }
      if row.value.state != Held || row.value.dispatched { return false; }
      if TookEffect(reply) { row := Some(row.value.(state := Released)); }
      ok := reply.Done?;
    }

    method MarkUnknown(reply: Reply) returns (ok: bool)
      requires row.Some?
      modifies `row
      ensures old(row).value.state == Held && TookEffect(reply) ==> row == Some(old(row).value.(state := Unknown))
      ensures !(old(row).value.state == Held && TookEffect(reply)) ==> row == old(row)
    {
      if row.value.state != Held { return false; }
      if TookEffect(reply) { row := Some(row.value.(state := Unknown)); }
      ok := reply.Done?;
    }

    /** Settles a held reservation, writing its one usage record in the same transaction;
      * a settled one answers with the record it has. Counts beyond int64 are not in the
      * source's range; they are refused here. */
    method Settle(usage: Usage, reply: Reply) returns (ok: bool)
      requires row.Some?
      modifies `row, `records
      ensures old(row).value.state == Held && Chargeable(snap, usage) && TookEffect(reply) ==>
                row == Some(old(row).value.(state := Settled)) && records == old(records) + [EvidenceOf(snap, usage)]
      ensures !(old(row).value.state == Held && Chargeable(snap, usage) && TookEffect(reply)) ==>
                row == old(row) && records == old(records)
      ensures ok ==> row.value.state == Settled
    {
      if row.value.state == Settled { return true; }
      if row.value.state != Held || !InRange(usage) { return false; }
      var units := UnitMap(usage);
      if units.Err? { return false; }
      var amount := ChargeUnits(units.value, snap);
      if amount.Err? { return false; }
      if TookEffect(reply) {
        row := Some(row.value.(state := Settled));
        records := records + [Evidence(usage, amount.value)];
      }
      ok := reply.Done?;
    }

    /** The accounting decision of a dispatched attempt; no usage means an unknown outcome. */
    method SettleReservation(usage: Option<Usage>, settle: Reply, unknown: Reply)
      requires row == Some(Row(Held, true)) && records == []
      modifies `row, `records
      ensures row == Some(Row(LeftAs(snap, usage, settle, unknown), true))
      ensures IsSettled() <==> Settles(snap, usage, settle)
      ensures records == if Settles(snap, usage, settle) then [EvidenceOf(snap, usage.value)] else []
    {
      if usage.None? {
        var _ := MarkUnknown(unknown);
        return;
      }
      var ok := Settle(usage.value, settle);
      if !ok { var _ := MarkUnknown(unknown); }
    }

    method Execute(sc: Script) returns (r: Outcome)
      requires Untouched()
      modifies this
      ensures r == Denied <==> !sc.admitted
      ensures r == Denied ==> Untouched()
      ensures r in {Failed, Answered} ==> Over()
      ensures r == Streaming <==> Sends(sc) && sc.stream && sc.hasBody
      ensures r == Answered <==> Sends(sc) && !sc.stream && sc.answer.Body?
      ensures r == Streaming ==> Open()
      ensures sent == if Sends(sc) then 1 else 0
      ensures r != Streaming ==> (IsSettled() <==> SettlesNow(decode, snap, sc))
      ensures row.Some? && row.value.state == Released <==> ReleasesHold(sc)
      // Before the dispatch mark: no row, or one held or released that was never dispatched.
      ensures !sc.admitted || sc.reserve.Refused? ==> row == None
      ensures sc.admitted && sc.reserve.Lost? ==> row == Some(Row(Held, false))
      ensures sc.admitted && sc.reserve.Done? && !sc.transport ==>
                row == Some(Row(if TookEffect(sc.release) then Released else Held, false))
      ensures sc.admitted && sc.reserve.Done? && sc.transport && !sc.mark.Done? ==> row == Some(Row(Held, sc.mark.Lost?))
      // After it: settled, or unknown, or still held if even that could not be stored.
      ensures Sends(sc) && sc.stream && !sc.hasBody ==> row == Some(Row(if TookEffect(sc.unknown) then Unknown else Held, true))
      ensures Sends(sc) && !sc.stream && sc.answer.NoAnswer? ==> row == Some(Row(if TookEffect(sc.unknown) then Unknown else Held, true))
      ensures Sends(sc) && !sc.stream && !sc.answer.NoAnswer? ==>
                row == Some(Row(LeftAs(snap, AnswerUsage(decode, sc.answer), sc.settle, sc.unknown), true))
                && records == if Settles(snap, AnswerUsage(decode, sc.answer), sc.settle)
                              then [EvidenceOf(snap, AnswerUsage(decode, sc.answer).value)] else []
    {
      if !sc.admitted { return Denied; }
      var ok := Reserve(sc.reserve);
      if !ok {
        ReleasePermit();
        return Failed;
      }
      if !sc.transport {
        ReleasePermit();
        ok := ReleaseUndispatched(sc.release);
        return Failed;
      }
      ok := MarkDispatched(sc.mark);
      if !ok {
        ReleasePermit();
        return Failed;
      }
      sent := sent + 1;
      if sc.stream {
        if !sc.hasBody {
          ReleasePermit();
          ok := MarkUnknown(sc.unknown);
          return Failed;
        }
        return Streaming;
      }
      ReleasePermit();
      match sc.answer {
        case NoAnswer =>
          ok := MarkUnknown(sc.unknown);
          return Failed;
        case ErrorStatus(raw) =>
          var usage := FromJson(decode, raw);
          if raw == "" || usage.None? { usage := Some(NOUSAGE); }
          SettleReservation(usage, sc.settle, sc.unknown);
          return Failed;
        case Body(raw) =>
          var usage := FromJson(decode, raw);
          SettleReservation(usage, sc.settle, sc.unknown);
          return Answered;
      }
    }

    /** The finish callback of a stream: usage counts only after a terminal event. */
    method Finish(seen: Seen, settle: Reply, unknown: Reply)
      requires Open()
      modifies this
      ensures Over()
      ensures IsSettled() <==> Settles(snap, StreamUsage(decode, seen), settle)
      ensures row == Some(Row(LeftAs(snap, StreamUsage(decode, seen), settle, unknown), true))
      ensures records == if Settles(snap, StreamUsage(decode, seen), settle) then [EvidenceOf(snap, StreamUsage(decode, seen).value)] else []
    {
      var usage := FromJson(decode, if seen.usage.Some? then seen.usage.value else "");
      if !seen.terminal { usage := None; }
      SettleReservation(usage, settle, unknown);
      ReleasePermit();
    }

    /** Row and records as this usage leaves them. */
    ghost predicate AccountedAs(usage: Option<Usage>, settle: Reply, unknown: Reply)
      reads this
    {
      && row == Some(Row(LeftAs(snap, usage, settle, unknown), true))
      && records == if Settles(snap, usage, settle) then [EvidenceOf(snap, usage.value)] else []
    }

    /** Reads and closes a stream in any order and any number of times. */
    method Follow(stream: AccountingStream, events: seq<StreamEvent>, settle: Reply, unknown: Reply)
      requires Open() && stream.Valid() && !stream.finished && stream.decode == decode
      requires stream.View() == State("", NOTHING)
      modifies this, stream
      ensures Ended(events) ==> Over()
      ensures !Ended(events) ==> Open()
      ensures Ended(events) ==>
                (IsSettled() <==>
                 Settles(snap, StreamUsage(decode, UsageStream.Outcome(decode, ReadsToEnd(events))), settle))
      ensures Ended(events) ==>
                row == Some(Row(LeftAs(snap, StreamUsage(decode, UsageStream.Outcome(decode, ReadsToEnd(events))), settle, unknown), true))
      ensures Ended(events) && !UsageStream.Outcome(decode, ReadsToEnd(events)).terminal ==>
                row == Some(Row(if TookEffect(unknown) then Unknown else Held, true)) && records == []
      ensures Ended(events) && IsSettled() ==>
                records == [EvidenceOf(snap, StreamUsage(decode, UsageStream.Outcome(decode, ReadsToEnd(events))).value)]
    {
      ghost var st := stream.View();
      for i := 0 to |events|
        invariant stream.Valid() && stream.finished == Ended(events[..i])
        invariant !stream.finished ==> Open() && stream.View() == ReadAll(Observing(decode), st, ReadsToEnd(events[..i]))
        invariant stream.finished ==> Over()
        invariant stream.finished ==>
                    (IsSettled() <==>
                     Settles(snap, StreamUsage(decode, ReadAll(Observing(decode), st, ReadsToEnd(events[..i])).seen), settle))
        invariant stream.finished ==>
                    AccountedAs(StreamUsage(decode, ReadAll(Observing(decode), st, ReadsToEnd(events[..i])).seen), settle, unknown)
      {
        var before := stream.finished;
        match events[i] {
          case Read(chunk, atEnd) => stream.Read(chunk, atEnd);
          case Close => stream.Close();
        }
        OneMoreEvent(decode, st, events, i);
        if !before && stream.finished {
          Finish(stream.reports[0], settle, unknown);
        }
      }
      assert events[..|events|] == events;
    }
  }

  const NOUSAGE := Usage(0, 0, 0, map[])

  /** One thing the caller of a stream does. */
  datatype StreamEvent = Read(chunk: string, atEnd: bool) | Close

  predicate Ends(e: StreamEvent) {
    e.Close? || e.atEnd
  }

  predicate Ended(events: seq<StreamEvent>) {
    exists i :: 0 <= i < |events| && Ends(events[i])
  }

  /** What was read up to and with the first event that ends the stream. */
  function ReadsToEnd(events: seq<StreamEvent>): seq<string> {
    if events == [] || events[0].Close? then []
    else if events[0].atEnd then [events[0].chunk]
    else [events[0].chunk] + ReadsToEnd(events[1..])
  }

  /** Nothing used costs nothing, so an error status without a report can always be settled. */
  lemma NothingUsedCostsNothing(snap: Snapshot)
    ensures Chargeable(snap, NOUSAGE) && EvidenceOf(snap, NOUSAGE).amount == 0
  {
    NamedParts(NOUSAGE);
    assert UnitsOf(NOUSAGE) == map[];
    assert Costs(snap, map[]) == map[];
  }

  predicate InRange(u: Usage) {
    && u.input <= MAX_INT64 && u.output <= MAX_INT64 && u.cached <= MAX_INT64
    && (forall k :: k in u.other ==> u.other[k] <= MAX_INT64)
  }

  /** The usage as reported, at its exact price. */
  ghost function EvidenceOf(snap: Snapshot, u: Usage): Evidence
    requires Chargeable(snap, u)
  {
    Evidence(u, Total(snap, UnitsOf(u)))
  }

  ghost predicate Settles(snap: Snapshot, usage: Option<Usage>, settle: Reply) {
    usage.Some? && Chargeable(snap, usage.value) && TookEffect(settle)
  }

  /** How a dispatched reservation ends: settled, unknown, or still held if neither was stored. */
  ghost function LeftAs(snap: Snapshot, usage: Option<Usage>, settle: Reply, unknown: Reply): ResState {
    if Settles(snap, usage, settle) then Settled else if TookEffect(unknown) then Unknown else Held
  }

  /** What a plain answer reports; a definitive error status without a report counts as nothing used. */
  ghost function AnswerUsage(decode: Decoder, answer: Answer): Option<Usage> {
    match answer
    case NoAnswer => None
    case ErrorStatus(raw) => if raw == "" || UsageOf(decode, raw).None? then Some(NOUSAGE) else UsageOf(decode, raw)
    case Body(raw) => UsageOf(decode, raw)
  }

  ghost function StreamUsage(decode: Decoder, seen: Seen): Option<Usage> {
    if seen.terminal then UsageOf(decode, if seen.usage.Some? then seen.usage.value else "") else None
  }

  /** The provider is called exactly when nothing before it fails. */
  predicate Sends(sc: Script) {
    sc.admitted && sc.reserve.Done? && sc.transport && sc.mark.Done?
  }

  /** A hold is given back only for want of a transport. */
  predicate ReleasesHold(sc: Script) {
    sc.admitted && sc.reserve.Done? && !sc.transport && TookEffect(sc.release)
  }

  /** A plain answer settles what it reports; a definitive error status settles what it
    * reports, or nothing used. */
  ghost predicate SettlesNow(decode: Decoder, snap: Snapshot, sc: Script) {
    Sends(sc) && !sc.stream && Settles(snap, AnswerUsage(decode, sc.answer), sc.settle)
  }

  lemma EndedAppend(events: seq<StreamEvent>, e: StreamEvent)
    ensures Ended(events + [e]) <==> Ended(events) || Ends(e)
  {
    var more := events + [e];
    assert more[|events|] == e;
    if Ended(events) {
      var i :| 0 <= i < |events| && Ends(events[i]);
      assert Ends(more[i]);
    }
  }

  lemma {:induction false} ReadsToEndAppend(events: seq<StreamEvent>, e: StreamEvent)
    ensures ReadsToEnd(events + [e]) == if Ended(events) then ReadsToEnd(events)
                                        else ReadsToEnd(events) + ReadsToEnd([e])
  {
    if events == [] {
      assert events + [e] == [e];
    } else {
      assert (events + [e])[1..] == events[1..] + [e];
      ReadsToEndAppend(events[1..], e);
      if Ended(events[1..]) {
        var i :| 0 <= i < |events[1..]| && Ends(events[1..][i]);
        assert Ends(events[i + 1]);
      }
      if Ended(events) && !Ends(events[0]) {
        var i :| 0 <= i < |events| && Ends(events[i]);
        assert Ends(events[1..][i - 1]);
      }
    }
  }

  lemma {:induction false} ReadAllAppend(decode: Decoder, st: State<Seen>, a: seq<string>, b: seq<string>)
    ensures ReadAll(Observing(decode), st, a + b) == ReadAll(Observing(decode), ReadAll(Observing(decode), st, a), b)
    decreases |a|
  {
    if a == [] {
      assert a + b == b;
    } else {
      assert (a + b)[1..] == a[1..] + b;
      ReadAllAppend(decode, ScanChunk(Observing(decode), st, a[0]), a[1..], b);
    }
  }

  lemma OneMoreEvent(decode: Decoder, st: State<Seen>, events: seq<StreamEvent>, i: nat)
    requires i < |events|
    ensures Ended(events[..i + 1]) <==> Ended(events[..i]) || Ends(events[i])
    ensures Ended(events[..i]) ==> ReadsToEnd(events[..i + 1]) == ReadsToEnd(events[..i])
    ensures !Ended(events[..i]) ==>
              ReadAll(Observing(decode), st, ReadsToEnd(events[..i + 1])) ==
              (match events[i]
               case Read(chunk, _) => ScanChunk(Observing(decode), ReadAll(Observing(decode), st, ReadsToEnd(events[..i])), chunk)
               case Close => ReadAll(Observing(decode), st, ReadsToEnd(events[..i])))
  {
    var e := events[i];
    assert events[..i + 1] == events[..i] + [e];
    EndedAppend(events[..i], e);
    ReadsToEndAppend(events[..i], e);
    var before := ReadAll(Observing(decode), st, ReadsToEnd(events[..i]));
    ReadAllAppend(decode, st, ReadsToEnd(events[..i]), ReadsToEnd([e]));
    if e.Read? {
      assert ReadsToEnd([e]) == [e.chunk] by { assert [e][1..] == []; }
      assert ReadAll(Observing(decode), before, [e.chunk]) == ScanChunk(Observing(decode), before, e.chunk) by {
        assert [e.chunk][1..] == [];
      }
    }
  }

  /** Whether a stream settles, and what it settles, depends on its bytes alone, not on
    * how reads and the final end or close cut them up. */
  lemma BillingIgnoresTheSplit(decode: Decoder, snap: Snapshot, settle: Reply, a: seq<StreamEvent>, b: seq<StreamEvent>)
    requires Concat(ReadsToEnd(a)) == Concat(ReadsToEnd(b))
    requires forall l :: l in Lines(Concat(ReadsToEnd(a))) ==> |l| <= CAP
    ensures var seen, seen' := UsageStream.Outcome(decode, ReadsToEnd(a)), UsageStream.Outcome(decode, ReadsToEnd(b));
            && StreamUsage(decode, seen) == StreamUsage(decode, seen')
            && (Settles(snap, StreamUsage(decode, seen), settle) <==> Settles(snap, StreamUsage(decode, seen'), settle))
  {
    SplitNeverShowsInShortLines(decode, Concat(ReadsToEnd(a)));
  }
}
