/** What the logger's file holds: one run of bytes, from which the messages can be told by the sizes in their headers.
    A parser moved over it makes of it what the client's check makes of the messages one by one. */
module LogFile {
  import opened Bytes
  import opened Outcomes
  import Layout
  import Text
  import opened Parser
  import opened Encoder
  import FormatRoundTrip
  import opened RoundTrips
  import opened Events
  import opened Streams
  import Samples
  import SharedSeries
  import EndToEnd
  import Tails
  import Logger
  import LoggerRun
  import C = Callers
  import A = ApiStream
  import Serial
  import TelemetryRun

  // ---- reading a file ----

  /** The parser at one message after the other: each has three bytes of header and the size that they give. */
  function ReadMessages(p: Parser, bytes: seq<byte>): Result<Parser>
    decreases |bytes|
  {
    if bytes == [] then Ok(p)
    else
      var q :- Parse(p, bytes);
      var h :- HeaderAt(bytes, 0);
      if 3 + h.size > |bytes| then Err(OutOfBounds) else ReadMessages(q, bytes[3 + h.size..])
  }

  /** The parser at the file header of 16 bytes, and then at the messages behind it. */
  function ReadFile(bytes: seq<byte>): Result<Parser> {
    if bytes == [] then Ok(NewParser())
    else
      var p :- Parse(NewParser(), bytes);
      if |bytes| < 16 then Err(OutOfBounds) else ReadMessages(p, bytes[16..])
  }

  // ---- one message ----

  /** The header gives the size of the message. */
  predicate Whole(m: seq<byte>) {
    HeaderAt(m, 0).Ok? && 3 + HeaderAt(m, 0).value.size == |m|
  }

  lemma BodyWhole(m: seq<byte>, size: nat, c: char, body: seq<byte>)
    requires m == HeaderBytes(size, c) + body && |body| == size < 0x1_0000 && c as int < 256
    ensures Whole(m)
  {
    MessageReads(size, c, body);
  }

  lemma LogWhole(text: string, level: byte, timestamp: nat)
    requires LogMessage(text, level, timestamp).Some?
    ensures Whole(LogMessage(text, level, timestamp).value)
  {
    var shown := CString(text);
    var head := HeaderBytes(9 + |shown|, 'L');
    Text.Reassociate(head, [level], Le(timestamp, 8));
    Text.Reassociate(head, [level] + Le(timestamp, 8), ToBytes(shown));
    BodyWhole(LogMessage(text, level, timestamp).value, 9 + |shown|, 'L', [level] + Le(timestamp, 8) + ToBytes(shown));
  }

  lemma ParamWhole(key: string, bits: nat)
    requires IsCText(key) && |key| <= 250
    ensures Whole(Sent(ParamMessage(key, bits)))
  {
    ParamShape(key, bits);
    BodyWhole(Sent(ParamMessage(key, bits)), 5 + |key|, 'P', [|key|] + ToBytes(key) + Le(bits, 4));
  }

  lemma InfoWhole(text: string, value: string)
    requires |text| + |value| <= 254
    ensures Whole(Sent(InfoBytes(text, value)))
  {
    InfoBytesShape(text, value);
    BodyWhole(Sent(InfoBytes(text, value)), 1 + |text| + |value|, 'I', [|text|] + ToBytes(text) + ToBytes(value));
  }

  lemma MultiWhole(key: string, value: string, continued: bool)
    requires |InfoKey(key, value)| + |value| <= 254
    ensures Whole(Sent(MultiInfoMessage(key, value, continued)))
  {
    var text := InfoKey(key, value);
    var head, marks := HeaderBytes(2 + |text| + |value|, 'M'), [if continued then 1 else 0, |text|];
    ShortField(text);
    Text.Reassociate(head, marks, ToBytes(text));
    Text.Reassociate(head, marks + ToBytes(text), ToBytes(value));
    BodyWhole(head + (marks + ToBytes(text) + ToBytes(value)), 2 + |text| + |value|, 'M',
              marks + ToBytes(text) + ToBytes(value));
  }

  /** A legal message other than a sample is one message to a reader. */
  lemma OtherIsWhole(fm: Layout.Formats, ids: map<string, nat>, e: Event)
    requires !e.Sampled? && Legal(fm, e)
    ensures Whole(Packet(ids, e))
  {
    match e {
      case Formatted(name, ds) =>
        var text := FormatRoundTrip.RegisteredText(name, FormatRoundTrip.FieldsText(ds));
        FormatMessageShape(name, FormatRoundTrip.FieldsText(ds));
        BodyWhole(Packet(ids, e), |text|, 'F', ToBytes(FormatRoundTrip.Cut(text)));
      case Logged(text, level, timestamp) => LogWhole(text, level, timestamp);
      case Parameterised(key, bits) => ParamWhole(key, bits);
      case Informed(key, value) => InfoWhole(InfoKey(key, value), value);
      case MultiInformed(key, value, continued) => MultiWhole(key, value, continued);
    }
  }

  lemma CutHead(m: seq<byte>, tail: seq<byte>)
    ensures (m + tail)[|m|..] == tail
  {
  }

  lemma WholeRead(p: Parser, m: seq<byte>, tail: seq<byte>)
    requires Whole(m) && Parse(p, m).Ok?
    ensures ReadMessages(p, m + tail) == ReadMessages(Parse(p, m).value, tail)
  {
    Tails.ParseTail(p, m, tail);
    Tails.HeaderTail(m, tail, 0);
    CutHead(m, tail);
  }

  /** A message that is not taken for data is read as it is checked. */
  lemma PlainRead(p: Parser, m: seq<byte>, tail: seq<byte>)
    requires Whole(m) && NotData(m) && Feed(p, m, true).Ok?
    ensures ReadMessages(p, m + tail) == ReadMessages(Feed(p, m, true).value, tail)
  {
    NotDataFed(p, m, true);
    WholeRead(p, m, tail);
  }

  /** A subscription and its sample: read at the one and then at the other, as the check does. */
  lemma PairRead(p: Parser, add: seq<byte>, data: seq<byte>, tail: seq<byte>)
    requires HasType(add, 'A') && Whole(add) && Whole(data) && Feed(p, add + data, true).Ok?
    ensures ReadMessages(p, add + data + tail) == ReadMessages(Feed(p, add + data, true).value, tail)
  {
    var m := add + data;
    Tails.HeaderTail(add, data, 0);
    CutHead(add, data);
    var once := Parse(p, m).value;
    if once.state == INVALID { InvalidStays(once, data, false); }
    assert HeaderAt(m, 0).value.type_ == 'A';
    assert Feed(p, m, true) == Parse(once, data);
    Tails.ParseTail(p, m, tail);
    Tails.HeaderTail(m, tail, 0);
    Text.Reassociate(add, data, tail);
    CutHead(add, data + tail);
    WholeRead(once, data, tail);
  }

  lemma SampleWhole(multiId: nat, id: nat, name: string, timestamp: nat, data: seq<byte>)
    requires |name| <= 255 && 8 <= |data| <= 1500
    ensures Whole(AddMessage(multiId, id, name)) && HasType(AddMessage(multiId, id, name), 'A')
    ensures Whole(DataMessage(id, timestamp, data))
  {
    var head := HeaderBytes(3 + |name|, 'A');
    var body := [multiId % 256] + Le(id, 2) + ToBytes(name);
    assert AddMessage(multiId, id, name) == head + body;
    BodyWhole(AddMessage(multiId, id, name), 3 + |name|, 'A', body);
    assert DataMessage(id, timestamp, data) == HeaderBytes(2 + |data|, 'D') + Sample(id, timestamp, data);
    BodyWhole(DataMessage(id, timestamp, data), 2 + |data|, 'D', Sample(id, timestamp, data));
  }

  /** A legal packet at the head of what is left of the file. */
  lemma PacketRead(p: Parser, fm: Layout.Formats, ids: map<string, nat>, e: Event, tail: seq<byte>)
    requires Legal(fm, e) && (e.Sampled? ==> e.typeName in ids) && Feed(p, Packet(ids, e), true).Ok?
    ensures ReadMessages(p, Packet(ids, e) + tail) == ReadMessages(Feed(p, Packet(ids, e), true).value, tail)
  {
    if e.Sampled? {
      var id := ids[e.typeName];
      SampleWhole(e.multiId, id, e.typeName, e.timestamp, e.data);
      PairRead(p, AddMessage(e.multiId, id, e.typeName), DataMessage(id, e.timestamp, e.data), tail);
    } else {
      OtherIsWhole(fm, ids, e);
      OtherIsNotData(fm, ids, e);
      PlainRead(p, Packet(ids, e), tail);
    }
  }

  // ---- whole files ----

  lemma {:induction false} PacketsRead(p: Parser, ids: map<string, nat>, events: seq<Event>, tail: seq<byte>)
    requires LegalRun(ids, events) && FeedAll(p, Packets(ids, events), true).Ok?
    ensures ReadMessages(p, Logger.Flat(Packets(ids, events)) + tail) ==
            ReadMessages(FeedAll(p, Packets(ids, events), true).value, tail)
  {
    var packets := Packets(ids, events);
    if events == [] {
      assert Logger.Flat(packets) + tail == tail;
    } else {
      var before, e := events[..|events| - 1], events[|events| - 1];
      Split(events);
      PacketsNext(ids, before, e);
      assert packets[..|packets| - 1] == Packets(ids, before);
      Text.Reassociate(Logger.Flat(Packets(ids, before)), Packet(ids, e), tail);
      PacketsRead(p, ids, before, Packet(ids, e) + tail);
      PacketRead(FeedAll(p, Packets(ids, before), true).value, FormatsIn(before), ids, e, tail);
    }
  }

  lemma FlatTwo(a: seq<byte>, b: seq<byte>, rest: seq<seq<byte>>)
    ensures Logger.Flat([a, b] + rest) == a + (b + Logger.Flat(rest))
  {
    Logger.FlatAppend([a, b], rest);
    Logger.FlatOne([a], b);
    Logger.FlatOne([], a);
    assert [] + [a] == [a] && [a] + [b] == [a, b] && Logger.Flat([a]) == a;
    Text.Reassociate(a, b, Logger.Flat(rest));
  }

  /** The file header is read by its 16 bytes. */
  lemma HeaderRead(start: nat, tail: seq<byte>)
    requires start < Pow256(8)
    ensures Parse(NewParser(), FileHeader(start)).Ok?
    ensures ReadFile(FileHeader(start) + tail) == ReadMessages(Parse(NewParser(), FileHeader(start)).value, tail)
  {
    FileHeaderParses(NewParser(), start);
    Tails.ParseTail(NewParser(), FileHeader(start), tail);
    assert |FileHeader(start)| == 16;
    CutHead(FileHeader(start), tail);
  }

  /** The file of a whole stream is read as the stream is checked. */
  lemma StreamReads(start: nat, ids: map<string, nat>, events: seq<Event>)
    requires start < Pow256(8) && LegalRun(ids, events) && FeedAll(NewParser(), Stream(start, ids, events), true).Ok?
    ensures ReadFile(Logger.Flat(Stream(start, ids, events))) == FeedAll(NewParser(), Stream(start, ids, events), true)
  {
    var packets := Packets(ids, events);
    var flat := Logger.Flat(packets);
    HeadFed(start);
    FeedAppend(NewParser(), [FileHeader(start), FLAG_BITS], packets, true);
    FlatTwo(FileHeader(start), FLAG_BITS, packets);
    HeaderRead(start, FLAG_BITS + flat);
    BodyWhole(FLAG_BITS, 40, 'B', Zeros(40));
    WholeRead(Parse(NewParser(), FileHeader(start)).value, FLAG_BITS, flat);
    assert flat + [] == flat;
    PacketsRead(FeedAll(NewParser(), [FileHeader(start), FLAG_BITS], true).value, ids, events, []);
  }

  lemma HeadFed(start: nat)
    requires start < Pow256(8)
    ensures var p := Parse(NewParser(), FileHeader(start));
      && p.Ok? && FeedAll(NewParser(), [FileHeader(start)], true) == p
      && Parse(p.value, FLAG_BITS).Ok?
      && FeedAll(NewParser(), [FileHeader(start), FLAG_BITS], true) == Parse(p.value, FLAG_BITS)
  {
    HeaderIsNotData(start);
    FileHeaderParses(NewParser(), start);
    var p := Parse(NewParser(), FileHeader(start)).value;
    FlagBitsParse(p);
    NotDataFed(NewParser(), FileHeader(start), true);
    NotDataFed(p, FLAG_BITS, true);
    FeedNext(NewParser(), [], FileHeader(start), true);
    assert [] + [FileHeader(start)] == [FileHeader(start)];
    FeedNext(NewParser(), [FileHeader(start)], FLAG_BITS, true);
    assert [FileHeader(start)] + [FLAG_BITS] == [FileHeader(start), FLAG_BITS];
  }

  lemma {:induction false} BeginningFed(p: Parser, a: seq<seq<byte>>, b: seq<seq<byte>>)
    requires FeedAll(p, a + b, true).Ok?
    ensures FeedAll(p, a, true).Ok?
  {
    if b == [] {
      assert a + b == a;
    } else {
      assert (a + b)[..|a + b| - 1] == a + b[..|b| - 1];
      BeginningFed(p, a, b[..|b| - 1]);
    }
  }

  lemma {:induction false} BeginningLegal(ids: map<string, nat>, events: seq<Event>, n: nat)
    requires LegalRun(ids, events) && n <= |events|
    ensures LegalRun(ids, events[..n])
  {
    if n < |events| {
      BeginningLegal(ids, events[..|events| - 1], n);
      assert events[..|events| - 1][..n] == events[..n];
    } else {
      assert events[..n] == events;
    }
  }

  lemma BeginningIs(start: nat, ids: map<string, nat>, events: seq<Event>, written: seq<seq<byte>>)
    requires written <= Stream(start, ids, events)
    ensures |written| >= 2 ==> written == Stream(start, ids, events[..|written| - 2])
    ensures |written| == 1 ==> written == [FileHeader(start)]
  {
    if |written| >= 2 {
      var part := Stream(start, ids, events[..|written| - 2]);
      forall i | 0 <= i < |written| ensures written[i] == part[i] {
        assert written[i] == Stream(start, ids, events)[i];
      }
      assert written == part;
    }
  }

  /** And so is the file of any beginning of it. */
  lemma BeginningReads(start: nat, ids: map<string, nat>, events: seq<Event>, written: seq<seq<byte>>)
    requires start < Pow256(8) && LegalRun(ids, events) && FeedAll(NewParser(), Stream(start, ids, events), true).Ok?
    requires written <= Stream(start, ids, events)
    ensures FeedAll(NewParser(), written, true).Ok?
    ensures ReadFile(Logger.Flat(written)) == FeedAll(NewParser(), written, true)
  {
    var stream := Stream(start, ids, events);
    assert written + stream[|written|..] == stream;
    BeginningFed(NewParser(), written, stream[|written|..]);
    BeginningIs(start, ids, events, written);
    if |written| >= 2 {
      BeginningLegal(ids, events, |written| - 2);
      StreamReads(start, ids, events[..|written| - 2]);
    } else if |written| == 1 {
      OnlyHeader(start);
    }
  }

  lemma OnlyHeader(start: nat)
    requires start < Pow256(8)
    ensures ReadFile(Logger.Flat([FileHeader(start)])) == FeedAll(NewParser(), [FileHeader(start)], true)
  {
    HeadFed(start);
    HeaderRead(start, []);
    Logger.FlatOne([], FileHeader(start));
    assert [] + [FileHeader(start)] == [FileHeader(start)];
    assert Logger.Flat([FileHeader(start)]) == FileHeader(start) + [];
  }

  // ---- the file of a run ----

  lemma BuiltFits(call: C.Call, msgId: nat, multiId: nat)
    requires C.Built(call, msgId, multiId).Some?
    ensures |C.Built(call, msgId, multiId).value.0| <= 4096
  {
  }

  /** No message of the API is larger than a buffer, whatever its callers do: the logger's assertion on it holds. */
  lemma {:induction false} QueueFits(steps: seq<C.Step>)
    ensures Logger.Fit(C.Run(steps).queue)
  {
    if steps != [] {
      var before, s := steps[..|steps| - 1], steps[|steps| - 1];
      QueueFits(before);
      var w := C.Run(before);
      if s.Advance? && s.caller < |w.callers| && w.callers[s.caller].stage.EnqueueNext? {
        var c := w.callers[s.caller];
        if C.Built(c.call, c.stage.msgId, c.stage.multiId).Some? {
          BuiltFits(c.call, c.stage.msgId, c.stage.multiId);
        }
      }
    }
  }

  lemma OutputFits(start: nat, steps: seq<C.Step>)
    ensures Logger.Fit(A.Output(start, C.Run(steps)))
  {
    QueueFits(steps);
    assert |FileHeader(start)| == 16 && |FLAG_BITS| == 43;
  }

  lemma OutputFed(start: nat, steps: seq<C.Step>, rank: map<string, nat>)
    requires start < Pow256(8) && A.LegalOutput(C.Run(steps), rank)
    requires GoodFormats(C.Run(steps).events, rank, SharedSeries.INSTANCES)
    ensures FeedAll(NewParser(), A.Output(start, C.Run(steps)), true).Ok?
    ensures Accepted(NewParser(), A.Output(start, C.Run(steps)), true) <==> OrderKept(C.Run(steps).events)
  {
    var w := C.Run(steps);
    A.OutputIs(start, steps);
    C.RunIds(steps);
    FirstsAreBytes(C.MsgIds(w), w.events);
    AcceptedIff(start, C.MsgIds(w), rank, w.events, SharedSeries.INSTANCES, true);
  }

  lemma PartAccepted(written: seq<seq<byte>>, output: seq<seq<byte>>)
    requires written <= output && Accepted(NewParser(), output, true)
    ensures Accepted(NewParser(), written, true)
  {
    assert written + output[|written|..] == output;
    BeginningAccepted(NewParser(), written, output[|written|..], true);
  }

  /** A file that holds the beginning of what concurrent callers enqueued, read message by message, makes of the parser
      what `check_ulog_valid` makes of it on those messages; no message makes it INVALID when formats come before the
      first sample and logged messages after it. */
  lemma FileReadsBack(start: nat, steps: seq<C.Step>, rank: map<string, nat>, written: seq<seq<byte>>)
    requires start < Pow256(8) && A.LegalOutput(C.Run(steps), rank) && written <= A.Output(start, C.Run(steps))
    requires GoodFormats(C.Run(steps).events, rank, SharedSeries.INSTANCES)
    ensures ReadFile(Logger.Flat(written)).Ok?
    ensures ReadFile(Logger.Flat(written)) == FeedAll(NewParser(), written, true)
    ensures OrderKept(C.Run(steps).events) ==> ReadFile(Logger.Flat(written)).value.state != INVALID
  {
    OutputFed(start, steps, rank);
    A.OutputIs(start, steps);
    BeginningReads(start, C.MsgIds(C.Run(steps)), C.Run(steps).events, written);
    if OrderKept(C.Run(steps).events) { PartAccepted(written, A.Output(start, C.Run(steps))); }
  }

  /** The file of all that concurrent callers enqueued holds every sample that was stored: read message by message it
      gives them in order, with their time and their leaves, and each twice. */
  lemma FileDelivers(start: nat, steps: seq<C.Step>, rank: map<string, nat>, samples: seq<seq<Samples.Item>>)
    requires start < Pow256(8) && A.LegalOutput(C.Run(steps), rank) && OrderKept(C.Run(steps).events)
    requires var events := C.Run(steps).events;
      Started(events) ==> SharedSeries.NoMixup(FormatsIn(events), SharedSeries.INSTANCES)
    requires EndToEnd.AllSerialize(FormatsIn(C.Run(steps).events), C.Run(steps).events, samples)
    ensures var w := C.Run(steps); var r := ReadFile(Logger.Flat(A.Output(start, w)));
      r.Ok? && r.value.state != INVALID &&
      r.value.delivered == EndToEnd.Repeated(EndToEnd.Deliveries(FormatsIn(w.events), w.events, samples), true)
  {
    var events := C.Run(steps).events;
    if Started(events) { SharedSeries.NoMixupNoClash(FormatsIn(events), SharedSeries.INSTANCES); }
    FileReadsBack(start, steps, rank, A.Output(start, C.Run(steps)));
    A.OutputDelivered(start, steps, rank, samples, true);
  }

  lemma PartsFit(queued: seq<seq<byte>>, moments: seq<Logger.Moment>, late: seq<seq<byte>>, all: seq<seq<byte>>)
    requires queued + Logger.Arrivals(moments) + late == all && Logger.Fit(all)
    ensures Logger.Fit(queued) && Logger.AllFit(moments)
  {
    var arrivals := Logger.Arrivals(moments);
    forall i | 0 <= i < |queued| ensures |queued[i]| <= 4096 { assert queued[i] == all[i]; }
    forall i | 0 <= i < |arrivals| ensures |arrivals[i]| <= 4096 {
      assert arrivals[i] == all[|queued| + i];
    }
    ArrivalsFit(moments);
  }

  lemma {:induction false} ArrivalsFit(moments: seq<Logger.Moment>)
    requires Logger.Fit(Logger.Arrivals(moments))
    ensures Logger.AllFit(moments)
  {
    if moments != [] {
      var n := |moments| - 1;
      var before, last := Logger.Arrivals(moments[..n]), moments[n].arrivals;
      forall i | 0 <= i < |before| ensures |before[i]| <= 4096 {
        assert before[i] == Logger.Arrivals(moments)[i];
      }
      forall i | 0 <= i < |last| ensures |last[i]| <= 4096 {
        assert last[i] == Logger.Arrivals(moments)[|before| + i];
      }
      ArrivalsFit(moments[..n]);
      forall i | 0 <= i < |moments| ensures Logger.Fit(moments[i].arrivals) {
        if i < n { assert moments[i] == moments[..n][i]; }
      }
    }
  }

  lemma SeenSoFar(queued: seq<seq<byte>>, moments: seq<Logger.Moment>, looks: nat, late: seq<seq<byte>>,
                  all: seq<seq<byte>>)
    requires looks <= |moments| && queued + Logger.Arrivals(moments) + late == all
    ensures queued + Logger.Arrivals(moments[..looks]) <= all
    ensures looks == |moments| ==> queued + Logger.Arrivals(moments[..looks]) + late == all
  {
    assert moments[..looks] + moments[looks..] == moments;
    Logger.ArrivalsAppend(moments[..looks], moments[looks..]);
    Text.Reassociate(queued, Logger.Arrivals(moments[..looks]), Logger.Arrivals(moments[looks..]));
    Text.Reassociate(queued + Logger.Arrivals(moments[..looks]), Logger.Arrivals(moments[looks..]), late);
  }

  lemma AllOf(written: seq<seq<byte>>, all: seq<seq<byte>>)
    requires written + [] == all
    ensures written == all
  {
  }

  /** A whole run of the logger on what concurrent callers enqueue, however it arrives: the file holds the beginning of
      it, and all of it when the logger has looked behind the last arrival and no exchange failed then. */
  method LogCalls(ghost start: nat, ghost steps: seq<C.Step>, queued: seq<seq<byte>>, moments: seq<Logger.Moment>,
                  turns: seq<LoggerRun.Turn>, late: seq<seq<byte>>)
      returns (file: seq<byte>, rest: seq<seq<byte>>, ghost written: seq<seq<byte>>, looks: nat)
    requires queued + Logger.Arrivals(moments) + late == A.Output(start, C.Run(steps))
    ensures looks <= |moments| && file == Logger.Flat(written) && written <= A.Output(start, C.Run(steps))
    ensures looks == |moments| ==> file + Logger.Flat(rest) == Logger.Flat(A.Output(start, C.Run(steps)))
    ensures looks == |moments| && late == [] && turns != [] && !Logger.LeftAt(moments, looks) ==>
              file == Logger.Flat(A.Output(start, C.Run(steps)))
  {
    ghost var all := A.Output(start, C.Run(steps));
    OutputFits(start, steps);
    PartsFit(queued, moments, late, all);
    file, rest, written, looks := LoggerRun.RunLogger(queued, moments, turns, late);
    SeenSoFar(queued, moments, looks, late, all);
    if looks == |moments| && rest == [] { AllOf(written, all); }
  }

  /** `MuTelemetry` from its construction on, and then a logger on its queue: the file holds all messages of the
      calls. */
  method LogTelemetry(withNetwork: bool, start: nat, calls: seq<C.Call>, turns: seq<LoggerRun.Turn>)
      returns (r: Result<bool>, file: seq<byte>)
    requires turns != []
    ensures r.Ok? ==> file == Logger.Flat(A.Output(start, C.Run(Serial.SerialSteps(calls))))
  {
    var t;
    t, r := TelemetryRun.RunTelemetry(withNetwork, true, start, calls);
    file := [];
    if r.Ok? {
      var queued := t.logQueue;
      assert queued + [] + [] == queued;
      var rest, looks;
      ghost var written;
      file, rest, written, looks := LogCalls(start, Serial.SerialSteps(calls), queued, [], turns, []);
    }
  }
}
