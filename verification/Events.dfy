/** What the API puts on the queue behind header and flags, one message at a time, and what the parser makes of it. */
module Events {
  import opened Bytes
  import opened Outcomes
  import FormatText
  import opened FormatRoundTrip
  import Layout
  import opened Parser
  import ParserInvariants
  import opened Encoder
  import Allocation
  import opened RoundTrips
  import SharedSeries

  /** What a message was built from. */
  datatype Event =
    | Sampled(typeName: string, multiId: nat, timestamp: nat, data: seq<byte>)
    | Formatted(name: string, fields: seq<Declaration>)
    | Logged(text: string, level: byte, timestamp: nat)
    | Parameterised(key: string, bits: nat)
    | Informed(key: string, value: string)
    | MultiInformed(key: string, value: string, continued: bool)

  function Sent(m: Option<seq<byte>>): seq<byte> {
    if m.Some? then m.value else []
  }

  /** The bytes of an event, given the message ids. */
  function Packet(ids: map<string, nat>, e: Event): seq<byte> {
    match e
    case Sampled(name, multiId, timestamp, data) =>
      if name in ids && |data| >= 8 then AddMessage(multiId, ids[name], name) + DataMessage(ids[name], timestamp, data)
      else []
    case Formatted(name, ds) =>
      var m := FormatMessage(name, FieldsText(ds));
      if m.Ok? then Sent(m.value) else []
    case Logged(text, level, timestamp) => Sent(LogMessage(text, level, timestamp))
    case Parameterised(key, bits) => Sent(ParamMessage(key, bits))
    case Informed(key, value) => Sent(InfoMessage(key, value))
    case MultiInformed(key, value, continued) => Sent(MultiInfoMessage(key, value, continued))
  }

  function Packets(ids: map<string, nat>, events: seq<Event>): (r: seq<seq<byte>>)
    ensures |r| == |events|
  {
    seq(|events|, i requires 0 <= i < |events| => Packet(ids, events[i]))
  }

  /** What the API asks of its callers for the parser to follow, `fm` being the formats registered so far. */
  predicate Legal(fm: Layout.Formats, e: Event) {
    match e
    case Sampled(name, multiId, timestamp, data) =>
      name in fm && IsByteText(name) && |name| <= 255 && multiId < SharedSeries.INSTANCES && timestamp < Pow256(8) &&
      8 <= |data| <= 1500 && 8 + SharedSeries.SampleSize(fm, name) <= |data|
    case Formatted(name, ds) =>
      ':' !in name && IsCText(RegisteredText(name, FieldsText(ds))) && |RegisteredText(name, FieldsText(ds))| <= 1500 &&
      (ds != [] ==> forall i :: 0 <= i < |ds| ==> Renderable(CutLast(ds)[i]))
    case Logged(text, _, timestamp) => IsCText(text) && |text| <= 1499 && timestamp < Pow256(8)
    case Parameterised(key, bits) => IsCText(key) && |key| <= 250 && ParamKey(key) && bits < 0x1_0000_0000
    case Informed(key, value) =>
      IsCText(key) && key != "" && IsByteText(value) && |InfoKey(key, value)| + |value| <= 254
    case MultiInformed(key, value, _) => |InfoKey(key, value)| + |value| <= 254
  }

  lemma LegalStorable(fm: Layout.Formats, e: Event)
    requires e.Sampled? && Legal(fm, e)
    ensures SharedSeries.Storable(fm, e.typeName)
  {
  }

  /** The fields the parser reads from a registration. */
  function RegisteredFields(ds: seq<Declaration>): seq<FormatText.Field> {
    if ds == [] then [FormatText.Field(FormatText.UINT64, "timestamp\0", "", 1)] else FieldsOf(CutLast(ds))
  }

  /** The formats after one more registration. */
  function Defined(fm: Layout.Formats, name: string, ds: seq<Declaration>): Layout.Formats {
    fm[name := FormatText.Format(name, RegisteredFields(ds))]
  }

  /** The message ids, one to a type, in 16 bits. */
  predicate GoodIds(ids: map<string, nat>) {
    Allocation.Injective(ids) && forall n :: n in ids ==> ids[n] < MSG_IDS
  }

  /** One message given to the parser: to `parse` or, with `checked`, to `check_ulog_valid`. */
  function Feed(p: Parser, buffer: seq<byte>, checked: bool): Result<Parser> {
    if checked then CheckUlogValid(p, buffer) else Parse(p, buffer)
  }

  function FeedAll(p: Parser, buffers: seq<seq<byte>>, checked: bool): Result<Parser> {
    if buffers == [] then Ok(p)
    else
      var q :- FeedAll(p, buffers[..|buffers| - 1], checked);
      Feed(q, buffers[|buffers| - 1], checked)
  }

  /** No message made the parser return false: INVALID is never left. */
  predicate Accepted(p: Parser, buffers: seq<seq<byte>>, checked: bool) {
    FeedAll(p, buffers, checked).Ok? && FeedAll(p, buffers, checked).value.state != INVALID
  }

  // ---- runs of messages ----

  lemma {:induction false} FedIsParsed(p: Parser, buffers: seq<seq<byte>>)
    ensures FeedAll(p, buffers, false) == ParserInvariants.ParseAll(p, buffers)
  {
    if buffers != [] { FedIsParsed(p, buffers[..|buffers| - 1]); }
  }

  lemma FeedNext(p: Parser, buffers: seq<seq<byte>>, next: seq<byte>, checked: bool)
    requires FeedAll(p, buffers, checked).Ok?
    ensures FeedAll(p, buffers + [next], checked) == Feed(FeedAll(p, buffers, checked).value, next, checked)
  {
    assert (buffers + [next])[..|buffers|] == buffers;
  }

  lemma {:induction false} FeedAppend(p: Parser, a: seq<seq<byte>>, b: seq<seq<byte>>, checked: bool)
    requires FeedAll(p, a, checked).Ok?
    ensures FeedAll(p, a + b, checked) == FeedAll(FeedAll(p, a, checked).value, b, checked)
  {
    if b == [] {
      assert a + b == a;
    } else {
      assert (a + b)[..|a + b| - 1] == a + b[..|b| - 1];
      FeedAppend(p, a, b[..|b| - 1], checked);
    }
  }

  lemma InvalidStays(p: Parser, buffer: seq<byte>, checked: bool)
    requires p.state == INVALID
    ensures Feed(p, buffer, checked) == Ok(p)
  {
  }

  /** A parser that went INVALID stays so: what a run accepts, each of its beginnings accepts. */
  lemma {:induction false} BeginningAccepted(p: Parser, a: seq<seq<byte>>, b: seq<seq<byte>>, checked: bool)
    requires Accepted(p, a + b, checked)
    ensures Accepted(p, a, checked)
  {
    if b == [] {
      assert a + b == a;
    } else {
      var before := a + b[..|b| - 1];
      assert (a + b)[..|a + b| - 1] == before;
      assert FeedAll(p, before, checked).Ok?;
      if FeedAll(p, before, checked).value.state == INVALID {
        InvalidStays(FeedAll(p, before, checked).value, b[|b| - 1], checked);
      }
      BeginningAccepted(p, a, b[..|b| - 1], checked);
    }
  }

  // ---- what is not taken for data ----

  predicate NotData(buffer: seq<byte>) {
    |buffer| >= 3 && buffer[2] != 'A' as int
  }

  /** The message header has this type. */
  predicate HasType(buffer: seq<byte>, c: char) {
    |buffer| >= 3 && buffer[2] == c as int
  }

  lemma NotDataFed(p: Parser, buffer: seq<byte>, checked: bool)
    requires NotData(buffer)
    ensures Feed(p, buffer, checked) == Parse(p, buffer)
  {
    assert buffer[2] as char != 'A';
  }

  lemma HeaderType(m: seq<byte>, size: nat, c: char, rest: seq<byte>)
    requires m == HeaderBytes(size, c) + rest && c as int < 256
    ensures HasType(m, c)
  {
  }

  lemma LogType(text: string, level: byte, timestamp: nat)
    requires LogMessage(text, level, timestamp).Some?
    ensures HasType(LogMessage(text, level, timestamp).value, 'L')
  {
  }

  lemma ParamType(key: string, bits: nat)
    requires ParamMessage(key, bits).Some?
    ensures HasType(ParamMessage(key, bits).value, 'P')
  {
  }

  lemma InfoType(text: string, value: string)
    requires InfoBytes(text, value).Some?
    ensures HasType(InfoBytes(text, value).value, 'I')
  {
  }

  lemma MultiType(key: string, value: string, continued: bool)
    requires |InfoKey(key, value)| + |value| <= 254
    ensures MultiInfoMessage(key, value, continued).Some?
    ensures HasType(MultiInfoMessage(key, value, continued).value, 'M')
  {
    assert |InfoKey(key, value)| % 256 == |InfoKey(key, value)|;
  }

  lemma FormatType(name: string, ds: seq<Declaration>)
    requires Legal(map[], Formatted(name, ds))
    ensures HasType(Packet(map[], Formatted(name, ds)), 'F')
  {
    var text := RegisteredText(name, FieldsText(ds));
    FormatMessageShape(name, FieldsText(ds));
    HeaderType(Packet(map[], Formatted(name, ds)), |text|, 'F', ToBytes(Cut(text)));
  }

  lemma SampleType(multiId: nat, id: nat, name: string, time: nat, data: seq<byte>)
    requires |name| <= 255 && |data| >= 8
    ensures HasType(AddMessage(multiId, id, name) + DataMessage(id, time, data), 'A')
  {
  }

  /** The type in the header of an event's message. */
  function TypeOf(e: Event): char {
    match e
    case Sampled(_, _, _, _) => 'A'
    case Formatted(_, _) => 'F'
    case Logged(_, _, _) => 'L'
    case Parameterised(_, _) => 'P'
    case Informed(_, _) => 'I'
    case MultiInformed(_, _, _) => 'M'
  }

  /** A legal event is sent, under its type. */
  lemma PacketType(fm: Layout.Formats, ids: map<string, nat>, e: Event)
    requires Legal(fm, e) && (e.Sampled? ==> e.typeName in ids)
    ensures HasType(Packet(ids, e), TypeOf(e))
  {
    match e {
      case Sampled(name, multiId, timestamp, data) => SampleType(multiId, ids[name], name, timestamp, data);
      case Formatted(name, ds) => FormatType(name, ds);
      case Logged(text, level, timestamp) => LogType(text, level, timestamp);
      case Parameterised(key, bits) =>
        ParamShape(key, bits);
        ParamType(key, bits);
      case Informed(key, value) =>
        InfoBytesShape(InfoKey(key, value), value);
        InfoType(InfoKey(key, value), value);
      case MultiInformed(key, value, continued) => MultiType(key, value, continued);
    }
  }

  /** A legal message other than a sample is sent, and is not taken for data. */
  lemma OtherIsNotData(fm: Layout.Formats, ids: map<string, nat>, e: Event)
    requires !e.Sampled? && Legal(fm, e)
    ensures NotData(Packet(ids, e))
  {
    PacketType(fm, ids, e);
  }

  // ---- one message ----

  /** Nothing that matters for samples changed. */
  predicate SameData(p: Parser, q: Parser) {
    && q.state == p.state && q.formats == p.formats && q.subscriptions == p.subscriptions
    && q.timeseries == p.timeseries && q.withMultiId == p.withMultiId && q.delivered == p.delivered
  }

  lemma EmptyRegisters(p: Parser, ids: map<string, nat>, name: string)
    requires p.state == DEFINITION && Legal(p.formats, Formatted(name, []))
    ensures Parse(p, Packet(ids, Formatted(name, []))) == Ok(p.(formats := Defined(p.formats, name, [])))
  {
    var text := RegisteredText(name, "");
    assert FieldsText([]) == "";
    FormatMessageShape(name, "");
    EmptyFormatParses(name);
    var f := FormatText.Format(name, RegisteredFields([]));
    FormatPacketParses(p, FormatMessage(name, "").value.value, Cut(text), f);
  }

  lemma FormatParses(p: Parser, ids: map<string, nat>, name: string, ds: seq<Declaration>)
    requires p.state == DEFINITION && Legal(p.formats, Formatted(name, ds))
    ensures Parse(p, Packet(ids, Formatted(name, ds))) == Ok(p.(formats := Defined(p.formats, name, ds)))
  {
    if ds == [] { EmptyRegisters(p, ids, name); } else { FormatRegisters(p, name, ds); }
  }

  /** Behind the first sample a format makes the parser INVALID. */
  lemma FormatRejected(p: Parser, ids: map<string, nat>, name: string, ds: seq<Declaration>)
    requires p.state == DEFINITION_OR_DATA && Legal(p.formats, Formatted(name, ds))
    ensures Parse(p, Packet(ids, Formatted(name, ds))) == Ok(p.(state := INVALID))
  {
    var text := RegisteredText(name, FieldsText(ds));
    FormatMessageShape(name, FieldsText(ds));
    MessageReads(|text|, 'F', ToBytes(Cut(text)));
  }

  lemma LogParses(p: Parser, ids: map<string, nat>, e: Event)
    requires p.state == DEFINITION_OR_DATA && e.Logged? && Legal(p.formats, e)
    ensures var r := Parse(p, Packet(ids, e)); r.Ok? && SameData(p, r.value)
  {
    LogRoundTrip(p, e.text, e.level, e.timestamp);
  }

  /** Before the first sample a logged message makes the parser INVALID. */
  lemma LogRejected(p: Parser, ids: map<string, nat>, e: Event)
    requires p.state == DEFINITION && e.Logged? && Legal(p.formats, e)
    ensures Parse(p, Packet(ids, e)) == Ok(p.(state := INVALID))
  {
    CStringWhole(e.text);
    var body := [e.level] + Le(e.timestamp, 8) + ToBytes(e.text);
    assert Packet(ids, e) == HeaderBytes(9 + |e.text|, 'L') + body;
    MessageReads(9 + |e.text|, 'L', body);
  }

  lemma PropertyParses(p: Parser, ids: map<string, nat>, e: Event)
    requires PastFlags(p) && (e.Parameterised? || e.Informed? || e.MultiInformed?) && Legal(p.formats, e)
    ensures var r := Parse(p, Packet(ids, e)); r.Ok? && SameData(p, r.value)
  {
    match e {
      case Parameterised(key, bits) => ParamRoundTrip(p, key, bits);
      case Informed(key, value) => InfoParses(p, key, value);
      case MultiInformed(key, value, continued) => MultiInfoParses(p, key, value, continued);
    }
  }
}
