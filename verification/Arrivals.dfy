/** What of all that the callers store can reach the client: exactly what fits a LOGGING_DATA packet, as long as every
    definition fits its packet too. */
module Arrivals {
  import opened Bytes
  import Layout
  import opened Encoder
  import opened Events
  import opened Streams
  import opened Pipeline
  import FormatRoundTrip
  import Parser
  import RoundTrips
  import Samples
  import SharedSeries
  import EndToEnd
  import Tails
  import C = Callers
  import A = ApiStream
  import S = Streamer
  import I = StreamerInvariants
  import T = StreamerTheorems
  import P = Payloads

  // ---- sizes of packets ----

  /** The length of a legal event's packet, by its arguments. */
  function Size(e: Event): nat {
    match e
    case Sampled(name, _, _, data) => 11 + |name| + |data|
    case Formatted(name, ds) => 3 + |FormatRoundTrip.RegisteredText(name, FormatRoundTrip.FieldsText(ds))|
    case Logged(text, _, _) => 12 + |text|
    case Parameterised(key, _) => 8 + |key|
    case Informed(key, value) => 4 + |InfoKey(key, value)| + |value|
    case MultiInformed(key, value, _) => 5 + |InfoKey(key, value)| + |value|
  }

  lemma InfoSize(key: string, value: string, continued: bool)
    requires |InfoKey(key, value)| + |value| <= 254
    ensures |Sent(InfoMessage(key, value))| == 4 + |InfoKey(key, value)| + |value|
    ensures |Sent(MultiInfoMessage(key, value, continued))| == 5 + |InfoKey(key, value)| + |value|
  {
    RoundTrips.InfoBytesShape(InfoKey(key, value), value);
    assert |InfoKey(key, value)| % 256 == |InfoKey(key, value)|;
  }

  lemma FormatSize(name: string, ds: seq<FormatRoundTrip.Declaration>)
    requires Legal(map[], Formatted(name, ds))
    ensures |Packet(map[], Formatted(name, ds))| == Size(Formatted(name, ds))
  {
    RoundTrips.FormatMessageShape(name, FormatRoundTrip.FieldsText(ds));
  }

  /** A legal event's packet has that size. */
  lemma PacketSize(fm: Layout.Formats, ids: map<string, nat>, e: Event)
    requires Legal(fm, e) && (e.Sampled? ==> e.typeName in ids)
    ensures |Packet(ids, e)| == Size(e) >= 3
  {
    match e {
      case Sampled(name, multiId, timestamp, data) =>
      case Formatted(name, ds) => FormatSize(name, ds);
      case Logged(text, level, timestamp) => RoundTrips.CStringWhole(text);
      case Parameterised(key, bits) => RoundTrips.ParamShape(key, bits);
      case Informed(key, value) => InfoSize(key, value, false);
      case MultiInformed(key, value, continued) => InfoSize(key, value, continued);
    }
  }

  predicate Small(e: Event) {
    Size(e) <= 249
  }

  predicate AllSmall(events: seq<Event>) {
    forall i :: 0 <= i < |events| ==> Small(events[i])
  }

  lemma {:induction false} SizesOf(ids: map<string, nat>, events: seq<Event>, i: nat)
    requires LegalRun(ids, events) && i < |events|
    ensures |Packets(ids, events)[i]| == Size(events[i]) >= 3
  {
    if i < |events| - 1 {
      SizesOf(ids, events[..|events| - 1], i);
    } else {
      PacketSize(FormatsIn(events[..i]), ids, events[i]);
    }
  }

  lemma HeadSizes(start: nat)
    ensures |FileHeader(start)| == 16 && |FLAG_BITS| == 43
  {
  }

  lemma StreamSizes(start: nat, ids: map<string, nat>, events: seq<Event>, i: nat)
    requires LegalRun(ids, events) && i < 2 + |events|
    ensures |Stream(start, ids, events)[i]| == if i == 0 then 16 else if i == 1 then 43 else Size(events[i - 2])
    ensures |Stream(start, ids, events)[i]| >= 3
  {
    HeadSizes(start);
    BehindTwo(FileHeader(start), FLAG_BITS, Packets(ids, events), i);
    if i >= 2 { SizesOf(ids, events, i - 2); }
  }

  /** Header and flags fit, so the definitions fit exactly when the opening's messages do. */
  lemma DefinitionsFitIff(start: nat, ids: map<string, nat>, events: seq<Event>)
    requires LegalRun(ids, events)
    ensures I.Fits(Stream(start, ids, events)) <==> AllSmall(events)
  {
    var stream := Stream(start, ids, events);
    forall i | 0 <= i < |stream| ensures |stream[i]| <= 249 <==> i < 2 || Small(events[i - 2]) {
      StreamSizes(start, ids, events, i);
    }
    forall i | 0 <= i < |events| ensures Small(events[i]) <==> |stream[i + 2]| <= 249 {}
  }

  // ---- what can arrive ----

  /** Every message before the first sample fits. */
  predicate DefinitionsSmall(steps: seq<C.Step>) {
    AllSmall(Opening(C.Run(steps).events))
  }

  lemma OutputIsLegal(start: nat, steps: seq<C.Step>)
    requires AllLegal(steps)
    ensures var w := C.Run(steps); LegalRun(C.MsgIds(w), w.events) && LegalRun(C.MsgIds(w), Opening(w.events))
    ensures forall i :: 0 <= i < |A.Output(start, C.Run(steps))| ==> |A.Output(start, C.Run(steps))[i]| >= 3
  {
    var w := C.Run(steps);
    A.OutputIs(start, steps);
    OpeningEnds(C.MsgIds(w), w.events);
    forall i | 0 <= i < |A.Output(start, w)| ensures |A.Output(start, w)[i]| >= 3 {
      StreamSizes(start, C.MsgIds(w), w.events, i);
    }
  }

  /** From the first sample on, the streamer's definitions are the opening. */
  lemma OpeningIsLeading(start: nat, steps: seq<C.Step>)
    requires AllLegal(steps) && |Opening(C.Run(steps).events)| < |C.Run(steps).events|
    ensures T.LeadingDefinitions(A.Output(start, C.Run(steps))) == Definitions(start, steps)
  {
    OutputParts(start, steps);
    OpeningLeads(Definitions(start, steps), A.Output(start, C.Run(steps)), A.Output(start, C.Run(steps)));
  }

  /** What the streamer makes of the output. */
  predicate Splits(start: nat, steps: seq<C.Step>, output: seq<seq<byte>>) {
    var d := T.LeadingDefinitions(output);
    && output[|d|..] == Datagrams(steps) && (I.Fits(d) <==> DefinitionsSmall(steps)) && !T.NoData(output)
    && forall i :: 0 <= i < |output| ==> |output[i]| >= 3
  }

  lemma OutputSplits(start: nat, steps: seq<C.Step>)
    requires AllLegal(steps) && |Opening(C.Run(steps).events)| < |C.Run(steps).events|
    ensures Splits(start, steps, A.Output(start, C.Run(steps)))
  {
    var w := C.Run(steps);
    OutputIsLegal(start, steps);
    OpeningIsLeading(start, steps);
    DatagramsBehind(start, steps);
    DefinitionsFitIff(start, C.MsgIds(w), Opening(w.events));
    OutputParts(start, steps);
    DataSeen(A.Output(start, w), |Definitions(start, steps)|);
  }

  lemma PacketAt(steps: seq<C.Step>, i: nat)
    requires var events := C.Run(steps).events; |Opening(events)| <= i < |events|
    ensures var w := C.Run(steps); Packet(C.MsgIds(w), w.events[i]) in Datagrams(steps)
  {
    var w := C.Run(steps);
    var first := |Opening(w.events)|;
    assert Datagrams(steps)[i - first] == Packet(C.MsgIds(w), w.events[first..][i - first]);
  }

  lemma DatagramsBehind(start: nat, steps: seq<C.Step>)
    requires AllLegal(steps)
    ensures var d, output := Definitions(start, steps), A.Output(start, C.Run(steps));
      d <= output && output[|d|..] == Datagrams(steps)
  {
    OutputParts(start, steps);
  }

  lemma MessageArrivesIff(rt: bool, start: nat, steps: seq<C.Step>, output: seq<seq<byte>>, m: seq<byte>)
    requires Splits(start, steps, output) && m in Datagrams(steps)
    ensures P.CanBeSent(rt, output, m) <==> |m| <= 249 && DefinitionsSmall(steps)
  {
    P.CanBeSentIff(rt, output, m);
  }

  lemma EventSize(steps: seq<C.Step>, i: nat)
    requires AllLegal(steps) && i < |C.Run(steps).events|
    ensures var w := C.Run(steps); |Packet(C.MsgIds(w), w.events[i])| == Size(w.events[i])
  {
    SizesOf(C.MsgIds(C.Run(steps)), C.Run(steps).events, i);
  }

  /** Whatever order the callers keep: what is enqueued from the first sample on leaves as data, in some run, if and
      only if its packet fits and so does everything before that sample. */
  lemma StoredArrivesIff(rt: bool, start: nat, steps: seq<C.Step>, i: nat)
    requires AllLegal(steps)
    requires var events := C.Run(steps).events; |Opening(events)| <= i < |events|
    ensures var w := C.Run(steps);
      P.CanBeSent(rt, A.Output(start, w), Packet(C.MsgIds(w), w.events[i])) <==>
      Small(w.events[i]) && DefinitionsSmall(steps)
  {
    var w := C.Run(steps);
    OutputSplits(start, steps);
    PacketAt(steps, i);
    EventSize(steps, i);
    MessageArrivesIff(rt, start, steps, A.Output(start, w), Packet(C.MsgIds(w), w.events[i]));
  }

  lemma {:induction false} SampleIsBehind(events: seq<Event>, i: nat)
    requires i < |events| && events[i].Sampled?
    ensures |Opening(events)| <= i
  {
    if i < |events| - 1 {
      var before := events[..|events| - 1];
      SampleIsBehind(before, i);
      if !Started(events) { NotStarted(events, i); }
    }
  }

  /** A stored sample leaves as data, in some run, if and only if its packet has at most 249 bytes and so has every
      message before the first sample. */
  lemma SampleArrivesIff(rt: bool, start: nat, steps: seq<C.Step>, i: nat)
    requires AllLegal(steps)
    requires i < |C.Run(steps).events| && C.Run(steps).events[i].Sampled?
    ensures var w := C.Run(steps); var e := w.events[i];
      P.CanBeSent(rt, A.Output(start, w), Packet(C.MsgIds(w), e)) <==>
      11 + |e.typeName| + |e.data| <= 249 && DefinitionsSmall(steps)
  {
    SampleIsBehind(C.Run(steps).events, i);
    StoredArrivesIff(rt, start, steps, i);
  }

  // ---- and that all of it can at once ----

  /** The places of the samples that fit. */
  function FittingSamples(events: seq<Event>): (r: seq<nat>)
    ensures forall k :: k in r <==> 0 <= k < |events| && events[k].Sampled? && Small(events[k])
    ensures forall i :: 0 <= i < |r| ==> r[i] < |events|
  {
    if events == [] then []
    else
      var k := |events| - 1;
      var before := FittingSamples(events[..k]);
      if events[k].Sampled? && Small(events[k]) then before + [k] else before
  }

  lemma {:induction false} NoLogs(received: seq<seq<byte>>)
    requires forall i :: 0 <= i < |received| ==> HasType(received[i], 'A')
    ensures LogsFollow(received)
  {
    if received != [] {
      var n := |received| - 1;
      forall i | 0 <= i < n ensures HasType(received[..n][i], 'A') { assert received[..n][i] == received[i]; }
      NoLogs(received[..n]);
    }
  }

  /** The packets of the samples that fit, in the order of enqueueing. */
  function FittingPackets(steps: seq<C.Step>): seq<seq<byte>> {
    var w := C.Run(steps);
    Packets(C.MsgIds(w), Pick(w.events, FittingSamples(w.events)))
  }

  lemma FittingPacketAt(steps: seq<C.Step>, i: nat)
    requires A.Disciplined(steps) && i < |FittingSamples(C.Run(steps).events)|
    ensures var w := C.Run(steps); var k, m := FittingSamples(w.events)[i], FittingPackets(steps)[i];
      |Opening(w.events)| <= k < |w.events| && Packet(C.MsgIds(w), w.events[k]) == m && HasType(m, 'A') &&
      |m| <= 249
  {
    var w := C.Run(steps);
    var picks := FittingSamples(w.events);
    A.DisciplineKeepsOrder(steps);
    assert picks[i] in picks;
    assert Pick(w.events, picks)[i] == w.events[picks[i]];
    SampleIsBehind(w.events, picks[i]);
    PacketType(FormatsIn(w.events[..picks[i]]), C.MsgIds(w), w.events[picks[i]]) by {
      LegalAt(C.MsgIds(w), w.events, picks[i]);
    }
    SizesOf(C.MsgIds(w), w.events, picks[i]);
  }

  lemma {:induction false} LegalAt(ids: map<string, nat>, events: seq<Event>, i: nat)
    requires LegalRun(ids, events) && i < |events|
    ensures Legal(FormatsIn(events[..i]), events[i]) && (events[i].Sampled? ==> events[i].typeName in ids)
  {
    if i < |events| - 1 {
      LegalAt(ids, events[..|events| - 1], i);
      assert events[..|events| - 1][..i] == events[..i];
    }
  }

  lemma FittingAreSelected(steps: seq<C.Step>)
    requires A.Disciplined(steps)
    ensures Selects(steps, FittingPackets(steps), FittingSamples(C.Run(steps).events))
    ensures LogsFollow(FittingPackets(steps))
  {
    var w := C.Run(steps);
    var picks, received := FittingSamples(w.events), FittingPackets(steps);
    forall i | 0 <= i < |picks|
      ensures |Opening(w.events)| <= picks[i] && Packet(C.MsgIds(w), w.events[picks[i]]) == received[i]
      ensures HasType(received[i], 'A')
    {
      FittingPacketAt(steps, i);
    }
    NoLogs(received);
  }

  lemma FittingAreSent(start: nat, steps: seq<C.Step>, m: seq<byte>)
    requires A.Disciplined(steps) && m in FittingPackets(steps)
    ensures m in P.Fitting(Datagrams(steps))
  {
    var i :| 0 <= i < |FittingPackets(steps)| && FittingPackets(steps)[i] == m;
    FittingPacketAt(steps, i);
    PacketAt(steps, FittingSamples(C.Run(steps).events)[i]);
  }

  lemma OutputWithSamples(start: nat, steps: seq<C.Step>)
    requires A.Disciplined(steps) && FittingPackets(steps) != []
    ensures Splits(start, steps, A.Output(start, C.Run(steps)))
  {
    FittingPacketAt(steps, 0);
    A.DisciplineKeepsOrder(steps);
    OutputSplits(start, steps);
  }

  /** When the definitions fit there is a run in which every sample that fits leaves. */
  lemma FittingLeave(rt: bool, start: nat, steps: seq<C.Step>) returns (actions: seq<S.Action>)
    requires A.Disciplined(steps) && DefinitionsSmall(steps) && FittingPackets(steps) != []
    ensures var q := S.Run(S.Start(rt), actions).stream;
      q.produced == A.Output(start, C.Run(steps)) && forall m :: m in FittingPackets(steps) ==> m in q.datagrams
  {
    OutputWithSamples(start, steps);
    actions := P.SendsFitting(rt, A.Output(start, C.Run(steps)));
    forall m | m in FittingPackets(steps) ensures m in S.Run(S.Start(rt), actions).stream.datagrams {
      FittingAreSent(start, steps, m);
    }
  }

  /** All that fits has left, behind the definitions. */
  predicate AllLeave(w: S.World, start: nat, steps: seq<C.Step>) {
    && w.stream.produced == A.Output(start, C.Run(steps)) && w.net.accepted == Definitions(start, steps)
    && forall m :: m in FittingPackets(steps) ==> m in w.stream.datagrams
  }

  /** The samples are serialized values, and the client's payload buffers hold the definitions and those that fit. */
  predicate Offers(start: nat, steps: seq<C.Step>, samples: seq<seq<Samples.Item>>, buffers: seq<seq<byte>>) {
    && EndToEnd.AllSerialize(FormatsIn(C.Run(steps).events), C.Run(steps).events, samples)
    && Tails.Begins(Definitions(start, steps) + FittingPackets(steps), buffers)
  }

  /** What the handler gets from the definitions and the samples that fit. */
  ghost predicate ReadsFitting(start: nat, steps: seq<C.Step>, samples: seq<seq<Samples.Item>>,
                               buffers: seq<seq<byte>>) {
    var events := C.Run(steps).events;
    var picks, r := FittingSamples(events), FeedAll(Parser.NewParser(), buffers, true);
    r.Ok? && |samples| == |events| &&
    ReadFrom(r.value, FormatsIn(events), Opening(events) + Pick(events, picks),
             samples[..|Opening(events)|] + Pick(samples, picks))
  }

  lemma FittingRead(start: nat, steps: seq<C.Step>, rank: map<string, nat>, samples: seq<seq<Samples.Item>>,
                    buffers: seq<seq<byte>>)
    requires Feeds(S.Start(false), start, steps, rank)
    requires SharedSeries.NoMixup(FormatsIn(C.Run(steps).events), SharedSeries.INSTANCES)
    requires Offers(start, steps, samples, buffers)
    ensures ReadsFitting(start, steps, samples, buffers)
  {
    FittingAreSelected(steps);
    SelectionDelivered(start, steps, rank, samples, FittingPackets(steps), FittingSamples(C.Run(steps).events));
    Tails.FeedAllTail(Parser.NewParser(), Definitions(start, steps) + FittingPackets(steps), buffers, true);
  }

  /** When the definitions fit there is a run, and a network, with which the client's data handler gets every sample
      that fits: in the order of enqueueing, with its time and its leaves, and each twice. */
  lemma FittingSamplesRead(rt: bool, start: nat, steps: seq<C.Step>, rank: map<string, nat>,
                           samples: seq<seq<Samples.Item>>, buffers: seq<seq<byte>>) returns (actions: seq<S.Action>)
    requires Feeds(S.Start(rt), start, steps, rank) && DefinitionsSmall(steps) && FittingPackets(steps) != []
    requires SharedSeries.NoMixup(FormatsIn(C.Run(steps).events), SharedSeries.INSTANCES)
    requires Offers(start, steps, samples, buffers)
    ensures AllLeave(S.Run(S.Start(rt), actions), start, steps)
    ensures ReadsFitting(start, steps, samples, buffers)
  {
    actions := FittingLeave(rt, start, steps);
    assert FittingPackets(steps)[0] in S.Run(S.Start(rt), actions).stream.datagrams;
    AcceptedOpens(rt, actions, start, steps, rank);
    FittingRead(start, steps, rank, samples, buffers);
  }
}
