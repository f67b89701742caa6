/** The whole pipeline: what concurrent callers enqueue, through the sync protocol and the stream, into the client's
    check and its data handler. */
module Pipeline {
  import opened Bytes
  import Text
  import Layout
  import LayoutTheorems
  import Samples
  import opened Parser
  import opened Encoder
  import Allocation
  import opened SharedSeries
  import opened Events
  import opened Streams
  import opened EndToEnd
  import Tails
  import C = Callers
  import A = ApiStream
  import S = Streamer
  import I = StreamerInvariants
  import T = StreamerTheorems
  import P = Payloads

  // ---- the messages before the first sample, and those from it on ----

  /** The events before the first sample. */
  function Opening(events: seq<Event>): (r: seq<Event>)
    ensures r <= events
  {
    if Started(events) then Opening(events[..|events| - 1]) else events
  }

  lemma {:induction false} OpeningEnds(ids: map<string, nat>, events: seq<Event>)
    requires LegalRun(ids, events)
    ensures var first := Opening(events);
      && LegalRun(ids, first) && !Started(first) && FormatsIn(first) == FormatsIn(events)
      && (Started(events) <==> |first| < |events|) && (Started(events) ==> events[|first|].Sampled?)
  {
    if Started(events) { OpeningEnds(ids, events[..|events| - 1]); }
  }

  lemma {:induction false} OpeningOrdered(events: seq<Event>)
    requires OrderKept(events)
    ensures OrderKept(Opening(events))
  {
    if Started(events) { OpeningOrdered(events[..|events| - 1]); }
  }

  /** Legal behind the first sample, in any order. */
  predicate LegalBehind(ids: map<string, nat>, fm: Layout.Formats, e: Event) {
    Legal(fm, e) && !e.Formatted? && (e.Sampled? ==> e.typeName in ids)
  }

  lemma {:induction false} BehindOpening(ids: map<string, nat>, events: seq<Event>, i: nat)
    requires LegalRun(ids, events) && OrderKept(events) && |Opening(events)| <= i < |events|
    ensures LegalBehind(ids, FormatsIn(events), events[i])
  {
    var before := events[..|events| - 1];
    if i < |events| - 1 {
      if !Started(before) { OpeningEnds(ids, before); }
      BehindOpening(ids, before, i);
      if Started(before) { Split(events); FormatsFrozenBy(before, events[|events| - 1]); }
    } else {
      Split(events);
      if Started(before) || events[i].Sampled? { FormatsFrozenBy(before, events[i]); }
    }
  }

  lemma {:induction false} BeginsLikeData(ids: map<string, nat>, events: seq<Event>, i: nat)
    requires LegalRun(ids, events) && i < |events|
    ensures HasType(Packet(ids, events[i]), TypeOf(events[i]))
    ensures S.CheckUlogDataBegin(Packets(ids, events)[i]) <==> events[i].Sampled?
  {
    if i < |events| - 1 {
      BeginsLikeData(ids, events[..|events| - 1], i);
    } else {
      PacketType(FormatsIn(events[..i]), ids, events[i]);
    }
  }

  lemma {:induction false} NotStarted(events: seq<Event>, i: nat)
    requires !Started(events) && i < |events|
    ensures !events[i].Sampled?
  {
    if i < |events| - 1 { NotStarted(events[..|events| - 1], i); }
  }

  lemma HeadsAreNotData(start: nat)
    ensures !S.CheckUlogDataBegin(FileHeader(start)) && !S.CheckUlogDataBegin(FLAG_BITS)
  {
    HeaderIsNotData(start);
  }

  lemma BehindTwo<X>(a: X, b: X, rest: seq<X>, i: nat)
    requires i < 2 + |rest|
    ensures ([a, b] + rest)[i] == if i == 0 then a else if i == 1 then b else rest[i - 2]
  {
  }

  lemma NoneIsData(a: seq<byte>, b: seq<byte>, rest: seq<seq<byte>>)
    requires !S.CheckUlogDataBegin(a) && !S.CheckUlogDataBegin(b)
    requires forall i :: 0 <= i < |rest| ==> !S.CheckUlogDataBegin(rest[i])
    ensures T.NoData([a, b] + rest)
  {
    forall i | 0 <= i < |[a, b] + rest| ensures !S.CheckUlogDataBegin(([a, b] + rest)[i]) { BehindTwo(a, b, rest, i); }
  }

  lemma OpeningHasNoData(start: nat, ids: map<string, nat>, events: seq<Event>)
    requires LegalRun(ids, events) && !Started(events)
    ensures T.NoData(Stream(start, ids, events))
  {
    HeadsAreNotData(start);
    forall i | 0 <= i < |events| ensures !S.CheckUlogDataBegin(Packets(ids, events)[i]) {
      BeginsLikeData(ids, events, i);
      NotStarted(events, i);
    }
    NoneIsData(FileHeader(start), FLAG_BITS, Packets(ids, events));
  }

  lemma Appended(start: nat, ids: map<string, nat>, first: seq<Event>, more: seq<Event>)
    ensures Stream(start, ids, first) + Packets(ids, more) == Stream(start, ids, first + more)
  {
  }

  lemma DataAt(start: nat, ids: map<string, nat>, events: seq<Event>, k: nat)
    requires LegalRun(ids, events) && k < |events| && events[k].Sampled?
    ensures S.CheckUlogDataBegin(Stream(start, ids, events)[k + 2])
  {
    BeginsLikeData(ids, events, k);
    BehindTwo(FileHeader(start), FLAG_BITS, Packets(ids, events), k + 2);
  }

  /** The stream is its opening and, if a sample was stored, the packet of that sample and what follows. */
  lemma StreamParts(start: nat, ids: map<string, nat>, events: seq<Event>)
    requires LegalRun(ids, events)
    ensures var opening := Stream(start, ids, Opening(events)); var stream := Stream(start, ids, events);
      && opening <= stream && T.NoData(opening)
      && stream == opening + Packets(ids, events[|Opening(events)|..])
      && (|opening| < |stream| ==> S.CheckUlogDataBegin(stream[|opening|]))
  {
    var first := Opening(events);
    OpeningEnds(ids, events);
    OpeningHasNoData(start, ids, first);
    assert events[..|first|] == first;
    StreamJoins(start, ids, events, |first|);
    if |first| < |events| { DataAt(start, ids, events, |first|); }
  }

  lemma StreamJoins(start: nat, ids: map<string, nat>, events: seq<Event>, k: nat)
    requires k <= |events|
    ensures var a := Stream(start, ids, events[..k]);
      |a| == 2 + k && Stream(start, ids, events) == a + Packets(ids, events[k..]) && a <= Stream(start, ids, events)
    ensures |Stream(start, ids, events)| == 2 + |events|
  {
    assert events[..k] + events[k..] == events;
    Appended(start, ids, events[..k], events[k..]);
  }

  lemma DataSeen(messages: seq<seq<byte>>, k: nat)
    requires k < |messages| && S.CheckUlogDataBegin(messages[k])
    ensures !T.NoData(messages)
  {
  }

  /** What has been produced so far: all of the opening, or no data yet. */
  lemma OpeningLeads(opening: seq<seq<byte>>, stream: seq<seq<byte>>, produced: seq<seq<byte>>)
    requires opening <= stream && T.NoData(opening) && produced <= stream
    requires |opening| < |stream| ==> S.CheckUlogDataBegin(stream[|opening|])
    ensures |produced| > |opening| ==> T.LeadingDefinitions(produced) == opening
    ensures |produced| <= |opening| ==> T.NoData(produced)
  {
    if |produced| > |opening| {
      assert produced[..|opening|] == opening;
      T.LeadingIs(produced, |opening|);
    } else {
      assert produced == opening[..|produced|];
    }
  }

  // ---- the two systems together ----

  /** Callers that begin in order, legal messages, at most 65536 types and definitions, formats that neither nest in
      cycles nor clash; the streamer has so far been given the beginning of what they produce. */
  ghost predicate Feeds(w: S.World, start: nat, steps: seq<C.Step>, rank: map<string, nat>) {
    && start < Pow256(8) && A.Disciplined(steps) && |Allocation.FirstSeen(C.Run(steps).names)| <= 65536
    && (Started(C.Run(steps).events) ==>
          LayoutTheorems.Ranked(FormatsIn(C.Run(steps).events), rank) &&
            NoClash(FormatsIn(C.Run(steps).events), 256))
    && 2 + |Opening(C.Run(steps).events)| <= 65536
    && w.stream.produced <= A.Output(start, C.Run(steps))
  }

  /** The definitions: header, flags and what the callers enqueued before the first sample. */
  function Definitions(start: nat, steps: seq<C.Step>): seq<seq<byte>> {
    Stream(start, C.MsgIds(C.Run(steps)), Opening(C.Run(steps).events))
  }

  /** The packets from the first sample on. */
  function Datagrams(steps: seq<C.Step>): seq<seq<byte>> {
    var events := C.Run(steps).events;
    Packets(C.MsgIds(C.Run(steps)), events[|Opening(events)|..])
  }

  /** Everything enqueued so far is legal, in whatever order. */
  predicate AllLegal(steps: seq<C.Step>) {
    LegalRun(C.MsgIds(C.Run(steps)), C.Run(steps).events)
  }

  lemma OutputParts(start: nat, steps: seq<C.Step>)
    requires AllLegal(steps)
    ensures var opening := Definitions(start, steps); var output := A.Output(start, C.Run(steps));
      && opening <= output && T.NoData(opening) && output == opening + Datagrams(steps)
      && (|opening| < |output| ==> S.CheckUlogDataBegin(output[|opening|]))
  {
    A.OutputIs(start, steps);
    StreamParts(start, C.MsgIds(C.Run(steps)), C.Run(steps).events);
  }

  /** The definitions the client has are the first of those the callers enqueued before the first sample, and all of
      them once data flows. */
  lemma AcceptedOpens(rt: bool, actions: seq<S.Action>, start: nat, steps: seq<C.Step>, rank: map<string, nat>)
    requires Feeds(S.Run(S.Start(rt), actions), start, steps, rank)
    ensures var w := S.Run(S.Start(rt), actions);
      && w.net.accepted <= Definitions(start, steps)
      && (w.stream.datagrams != {} ==> w.net.accepted == Definitions(start, steps))
  {
    var w, opening := S.Run(S.Start(rt), actions), Definitions(start, steps);
    A.DisciplineKeepsOrder(steps);
    OutputParts(start, steps);
    T.StreamConservation(rt, actions);
    T.RunConserves(rt, actions);
    T.AcceptedInOrder(rt, actions);
    T.DataAfterDefinitions(rt, actions);
    OpeningLeads(opening, A.Output(start, C.Run(steps)), w.stream.produced);
    if I.Collecting(w.s) {
      I.Reaches(rt, actions);
    } else {
      DataSeen(w.stream.produced, |w.s.definitions|);
    }
  }

  lemma TakenFollow(opening: seq<seq<byte>>, packets: seq<seq<byte>>, taken: seq<seq<byte>>, queue: seq<seq<byte>>,
                    m: seq<byte>)
    requires opening + taken + queue <= opening + packets && m in taken
    ensures m in packets
  {
    var k :| 0 <= k < |taken| && taken[k] == m;
    assert (opening + taken + queue)[|opening| + k] == m;
    assert (opening + packets)[|opening| + k] == packets[k];
  }

  /** When a reader has taken a message, the definitions are the whole opening. */
  lemma DefinitionsOpen(rt: bool, actions: seq<S.Action>, start: nat, steps: seq<C.Step>, rank: map<string, nat>)
    requires Feeds(S.Run(S.Start(rt), actions), start, steps, rank)
    requires S.Run(S.Start(rt), actions).stream.taken != []
    ensures S.Run(S.Start(rt), actions).s.definitions == Definitions(start, steps)
  {
    var w := S.Run(S.Start(rt), actions);
    A.DisciplineKeepsOrder(steps);
    OutputParts(start, steps);
    T.StreamConservation(rt, actions);
    T.RunConserves(rt, actions);
    OpeningLeads(Definitions(start, steps), A.Output(start, C.Run(steps)), w.stream.produced);
    DataSeen(w.stream.produced, |w.s.definitions|);
  }

  /** Every datagram is a packet that a caller enqueued, from the first sample on. */
  lemma DatagramsAreCalls(rt: bool, actions: seq<S.Action>, start: nat, steps: seq<C.Step>, rank: map<string, nat>,
                          m: seq<byte>)
    requires Feeds(S.Run(S.Start(rt), actions), start, steps, rank)
    requires m in S.Run(S.Start(rt), actions).stream.datagrams
    ensures m in Datagrams(steps)
  {
    var w := S.Run(S.Start(rt), actions);
    P.RunSendsTaken(rt, actions);
    assert m in w.stream.dequeued;
    T.StreamConservation(rt, actions);
    DefinitionsOpen(rt, actions, start, steps, rank);
    A.DisciplineKeepsOrder(steps);
    OutputParts(start, steps);
    TakenFollow(Definitions(start, steps), Datagrams(steps), w.stream.taken, w.stream.queue, m);
  }

  // ---- what the client received ----

  /** The events at these places. */
  function Pick<T>(s: seq<T>, picks: seq<nat>): (r: seq<T>)
    requires forall i :: 0 <= i < |picks| ==> picks[i] < |s|
    ensures |r| == |picks|
  {
    seq(|picks|, i requires 0 <= i < |picks| => s[picks[i]])
  }

  /** The client received the packets of these of the events from the first sample on. */
  ghost predicate Selects(steps: seq<C.Step>, received: seq<seq<byte>>, picks: seq<nat>) {
    var events := C.Run(steps).events;
    |picks| == |received| &&
    forall i :: 0 <= i < |picks| ==>
      |Opening(events)| <= picks[i] < |events| && Packet(C.MsgIds(C.Run(steps)), events[picks[i]]) == received[i]
  }

  lemma PlacesOf(packets: seq<seq<byte>>, received: seq<seq<byte>>) returns (places: seq<nat>)
    requires forall i :: 0 <= i < |received| ==> received[i] in packets
    ensures |places| == |received| && forall i :: 0 <= i < |places| ==>
      places[i] < |packets| && packets[places[i]] == received[i]
  {
    places := [];
    for n := 0 to |received|
      invariant |places| == n && forall i :: 0 <= i < n ==> places[i] < |packets| && packets[places[i]] == received[i]
    {
      var i :| 0 <= i < |packets| && packets[i] == received[n];
      places := places + [i];
    }
  }

  /** The packets of the later events are later packets. */
  lemma PlacesBehind(ids: map<string, nat>, events: seq<Event>, first: nat, places: seq<nat>, received: seq<seq<byte>>)
      returns (picks: seq<nat>)
    requires first <= |events| && |places| == |received|
    requires forall i :: 0 <= i < |places| ==>
               places[i] < |events| - first && Packets(ids, events[first..])[places[i]] == received[i]
    ensures |picks| == |received|
    ensures forall i :: 0 <= i < |picks| ==>
      first <= picks[i] < |events| && Packet(ids, events[picks[i]]) == received[i]
  {
    picks := seq(|places|, i requires 0 <= i < |places| => first + places[i]);
    forall i | 0 <= i < |picks| ensures Packet(ids, events[picks[i]]) == received[i] {
      assert events[first..][places[i]] == events[picks[i]];
    }
  }

  lemma ReceivedAreCalls(rt: bool, actions: seq<S.Action>, start: nat, steps: seq<C.Step>, rank: map<string, nat>,
                         received: seq<seq<byte>>) returns (picks: seq<nat>)
    requires Feeds(S.Run(S.Start(rt), actions), start, steps, rank)
    requires forall i :: 0 <= i < |received| ==> received[i] in S.Run(S.Start(rt), actions).stream.datagrams
    ensures Selects(steps, received, picks)
  {
    forall i | 0 <= i < |received| ensures received[i] in Datagrams(steps) {
      DatagramsAreCalls(rt, actions, start, steps, rank, received[i]);
    }
    var places := PlacesOf(Datagrams(steps), received);
    var events := C.Run(steps).events;
    picks := PlacesBehind(C.MsgIds(C.Run(steps)), events, |Opening(events)|, places, received);
  }

  /** Every logged message that arrived came behind a sample. */
  predicate LogsFollow(received: seq<seq<byte>>) {
    received != [] ==>
      var before, last := received[..|received| - 1], received[|received| - 1];
      LogsFollow(before) && (HasType(last, 'L') ==> !T.NoData(before))
  }

  lemma NoDataNext(messages: seq<seq<byte>>, m: seq<byte>)
    ensures T.NoData(messages + [m]) <==> T.NoData(messages) && !S.CheckUlogDataBegin(m)
  {
    assert (messages + [m])[|messages|] == m;
    forall i | 0 <= i < |messages| ensures (messages + [m])[i] == messages[i] {}
  }

  /** What events that are legal behind the first sample come to, and what their packets show of it. */
  predicate Behind(ids: map<string, nat>, fm: Layout.Formats, events: seq<Event>, messages: seq<seq<byte>>) {
    && LegalRun(ids, events) && FormatsIn(events) == fm && (Started(events) <==> !T.NoData(messages))
    && (OrderKept(events) <==> LogsFollow(messages))
  }

  lemma BehindNext(ids: map<string, nat>, fm: Layout.Formats, events: seq<Event>, messages: seq<seq<byte>>, e: Event)
    requires Behind(ids, fm, events, messages) && LegalBehind(ids, fm, e)
    ensures Behind(ids, fm, events + [e], messages + [Packet(ids, e)])
  {
    LastOf(events, e);
    NoDataNext(messages, Packet(ids, e));
    PacketType(fm, ids, e);
    assert (messages + [Packet(ids, e)])[..|messages|] == messages;
  }

  lemma {:induction false} BehindLegal(ids: map<string, nat>, first: seq<Event>, more: seq<Event>)
    requires LegalRun(ids, first) && OrderKept(first) && !Started(first)
    requires forall i :: 0 <= i < |more| ==> LegalBehind(ids, FormatsIn(first), more[i])
    ensures Behind(ids, FormatsIn(first), first + more, Packets(ids, more))
  {
    if more == [] {
      assert first + more == first;
    } else {
      var before, e := more[..|more| - 1], more[|more| - 1];
      BehindLegal(ids, first, before);
      Split(more);
      Text.Reassociate(first, before, [e]);
      PacketsNext(ids, before, e);
      BehindNext(ids, FormatsIn(first), first + before, Packets(ids, before), e);
    }
  }

  /** The events whose packets arrived, behind the definitions. */
  lemma ArrivedLegal(steps: seq<C.Step>, received: seq<seq<byte>>, picks: seq<nat>)
    requires A.Disciplined(steps) && Selects(steps, received, picks)
    ensures var ids, events := C.MsgIds(C.Run(steps)), C.Run(steps).events;
      && (forall i :: 0 <= i < |picks| ==> picks[i] < |events|)
      && var arrived := Opening(events) + Pick(events, picks);
         && Packets(ids, Pick(events, picks)) == received
         && LegalRun(ids, arrived) && FormatsIn(arrived) == FormatsIn(events) && (Started(arrived) ==> Started(events))
         && (OrderKept(arrived) <==> LogsFollow(received))
  {
    var ids, events := C.MsgIds(C.Run(steps)), C.Run(steps).events;
    A.DisciplineKeepsOrder(steps);
    PickedPackets(ids, events, picks, received);
    PickedBehind(ids, events, picks);
  }

  lemma PickedBehind(ids: map<string, nat>, events: seq<Event>, picks: seq<nat>)
    requires LegalRun(ids, events) && OrderKept(events)
    requires forall i :: 0 <= i < |picks| ==> |Opening(events)| <= picks[i] < |events|
    ensures var picked := Pick(events, picks); var arrived := Opening(events) + picked;
      && Behind(ids, FormatsIn(events), arrived, Packets(ids, picked)) && (Started(arrived) ==> Started(events))
  {
    OpeningEnds(ids, events);
    OpeningOrdered(events);
    PickedLegal(ids, events, picks);
    BehindLegal(ids, Opening(events), Pick(events, picks));
    if |picks| > 0 { assert picks[0] < |events|; } else { assert Opening(events) + [] == Opening(events); }
  }

  lemma PickedPackets(ids: map<string, nat>, events: seq<Event>, picks: seq<nat>, received: seq<seq<byte>>)
    requires |picks| == |received|
    requires forall i :: 0 <= i < |picks| ==> picks[i] < |events| && Packet(ids, events[picks[i]]) == received[i]
    ensures Packets(ids, Pick(events, picks)) == received
  {
  }

  lemma PickedLegal(ids: map<string, nat>, events: seq<Event>, picks: seq<nat>)
    requires LegalRun(ids, events) && OrderKept(events)
    requires forall i :: 0 <= i < |picks| ==> |Opening(events)| <= picks[i] < |events|
    ensures forall i :: 0 <= i < |picks| ==> LegalBehind(ids, FormatsIn(events), Pick(events, picks)[i])
  {
    forall i | 0 <= i < |picks| ensures LegalBehind(ids, FormatsIn(events), Pick(events, picks)[i]) {
      BehindOpening(ids, events, picks[i]);
    }
  }

  // ---- the client's check ----

  /** Whatever part of the definitions has arrived passes the check. */
  lemma DefinitionsAccepted(start: nat, steps: seq<C.Step>, rank: map<string, nat>, part: seq<seq<byte>>)
    requires start < Pow256(8) && A.Disciplined(steps) && |Allocation.FirstSeen(C.Run(steps).names)| <= 65536
    requires part <= Definitions(start, steps)
    ensures Accepted(NewParser(), part, true)
  {
    var ids, events := C.MsgIds(C.Run(steps)), C.Run(steps).events;
    A.DisciplineKeepsOrder(steps);
    C.RunIds(steps);
    OpeningEnds(ids, events);
    OpeningOrdered(events);
    FirstsAreBytes(ids, Opening(events));
    AcceptedIff(start, ids, rank, Opening(events), INSTANCES, true);
    assert part + Definitions(start, steps)[|part|..] == Definitions(start, steps);
    BeginningAccepted(NewParser(), part, Definitions(start, steps)[|part|..], true);
  }

  /** The packets of any selection of the events, behind the definitions. */
  lemma SelectionAcceptedIff(start: nat, steps: seq<C.Step>, rank: map<string, nat>, received: seq<seq<byte>>,
                             picks: seq<nat>)
    requires start < Pow256(8) && A.Disciplined(steps) && |Allocation.FirstSeen(C.Run(steps).names)| <= 65536
    requires var events := C.Run(steps).events;
      Started(events) ==> LayoutTheorems.Ranked(FormatsIn(events), rank) && NoClash(FormatsIn(events), 256)
    requires Selects(steps, received, picks)
    ensures FeedAll(NewParser(), Definitions(start, steps) + received, true).Ok?
    ensures Accepted(NewParser(), Definitions(start, steps) + received, true) <==> LogsFollow(received)
  {
    var ids, events := C.MsgIds(C.Run(steps)), C.Run(steps).events;
    ArrivedLegal(steps, received, picks);
    var arrived := Opening(events) + Pick(events, picks);
    C.RunIds(steps);
    FirstsAreBytes(ids, arrived);
    AcceptedIff(start, ids, rank, arrived, INSTANCES, true);
    Appended(start, ids, Opening(events), Pick(events, picks));
  }

  /** The client is safe: in every interleaving of callers and streamer, over a network that loses, repeats and reorders
      both definitions and data, and whatever lies behind a message in the payload buffer, every packet passes the
      client's check if and only if no logged message arrives before the first sample does. */
  lemma ClientAcceptsIff(rt: bool, actions: seq<S.Action>, start: nat, steps: seq<C.Step>, rank: map<string, nat>,
                         received: seq<seq<byte>>, buffers: seq<seq<byte>>)
    requires Feeds(S.Run(S.Start(rt), actions), start, steps, rank)
    requires forall i :: 0 <= i < |received| ==> received[i] in S.Run(S.Start(rt), actions).stream.datagrams
    requires Tails.Begins(S.Run(S.Start(rt), actions).net.accepted + received, buffers)
    ensures Accepted(NewParser(), buffers, true) <==> LogsFollow(received)
  {
    var accepted := S.Run(S.Start(rt), actions).net.accepted;
    AcceptedOpens(rt, actions, start, steps, rank);
    if received == [] {
      assert accepted + received == accepted;
      DefinitionsAccepted(start, steps, rank, accepted);
    } else {
      assert received[0] in S.Run(S.Start(rt), actions).stream.datagrams;
      var picks := ReceivedAreCalls(rt, actions, start, steps, rank, received);
      SelectionAcceptedIff(start, steps, rank, received, picks);
    }
    Tails.FeedAllTail(NewParser(), accepted + received, buffers, true);
  }

  // ---- the client's data handler ----

  /** The handler got, twice each as the check parses data twice, the samples of these events and nothing else. */
  predicate ReadFrom(p: Parser, fm: Layout.Formats, events: seq<Event>, samples: seq<seq<Samples.Item>>) {
    AllSerialize(fm, events, samples) && p.delivered == Repeated(Deliveries(fm, events, samples), true)
  }

  lemma ArrivedSerialize(fm: Layout.Formats, events: seq<Event>, samples: seq<seq<Samples.Item>>, first: nat,
                         picks: seq<nat>)
    requires AllSerialize(fm, events, samples) && first <= |events| && forall i :: 0 <= i < |picks| ==>
      picks[i] < |events|
    ensures AllSerialize(fm, events[..first] + Pick(events, picks), samples[..first] + Pick(samples, picks))
  {
    var arrived, values := events[..first] + Pick(events, picks), samples[..first] + Pick(samples, picks);
    forall i | 0 <= i < |arrived| && arrived[i].Sampled?
      ensures Serializes(fm, arrived[i].typeName, arrived[i].data, values[i])
    {
      if i < first {
        assert arrived[i] == events[i] && values[i] == samples[i];
      } else {
        assert arrived[i] == events[picks[i - first]] && values[i] == samples[picks[i - first]];
      }
    }
  }

  lemma SelectionDelivered(start: nat, steps: seq<C.Step>, rank: map<string, nat>, samples: seq<seq<Samples.Item>>,
                           received: seq<seq<byte>>, picks: seq<nat>)
    requires start < Pow256(8) && A.Disciplined(steps) && |Allocation.FirstSeen(C.Run(steps).names)| <= 65536
    requires var events := C.Run(steps).events;
      && (Started(events) ==> LayoutTheorems.Ranked(FormatsIn(events), rank) && NoMixup(FormatsIn(events), 256))
      && AllSerialize(FormatsIn(events), events, samples)
    requires Selects(steps, received, picks) && LogsFollow(received)
    ensures var events := C.Run(steps).events;
      && (forall i :: 0 <= i < |picks| ==> picks[i] < |events|)
      && var r := FeedAll(NewParser(), Definitions(start, steps) + received, true);
         r.Ok? && ReadFrom(r.value, FormatsIn(events), Opening(events) + Pick(events, picks),
                           samples[..|Opening(events)|] + Pick(samples, picks))
  {
    var ids, events := C.MsgIds(C.Run(steps)), C.Run(steps).events;
    ArrivedLegal(steps, received, picks);
    var arrived := Opening(events) + Pick(events, picks);
    C.RunIds(steps);
    FirstsAreBytes(ids, arrived);
    ArrivedSerialize(FormatsIn(events), events, samples, |Opening(events)|, picks);
    assert events[..|Opening(events)|] == Opening(events);
    StreamDelivered(start, ids, rank, arrived, samples[..|Opening(events)|] + Pick(samples, picks), INSTANCES, true);
    Appended(start, ids, Opening(events), Pick(events, picks));
  }

  /** And it delivers: the data handler gets exactly the samples whose packets arrived, each with its time and all its
      leaves, in the order of arrival, and each twice. */
  lemma ClientReadsSamples(rt: bool, actions: seq<S.Action>, start: nat, steps: seq<C.Step>, rank: map<string, nat>,
                           samples: seq<seq<Samples.Item>>, received: seq<seq<byte>>, buffers: seq<seq<byte>>)
    requires Feeds(S.Run(S.Start(rt), actions), start, steps, rank)
    requires forall i :: 0 <= i < |received| ==> received[i] in S.Run(S.Start(rt), actions).stream.datagrams
    requires Tails.Begins(S.Run(S.Start(rt), actions).net.accepted + received, buffers) && received != []
    requires LogsFollow(received)
    requires var events := C.Run(steps).events;
      && (Started(events) ==> NoMixup(FormatsIn(events), 256)) && AllSerialize(FormatsIn(events), events, samples)
    ensures FeedAll(NewParser(), buffers, true).Ok?
    ensures exists picks ::
      Selects(steps, received, picks) && |samples| == |C.Run(steps).events| &&
      var events := C.Run(steps).events;
      ReadFrom(FeedAll(NewParser(), buffers, true).value, FormatsIn(events), Opening(events) + Pick(events, picks),
               samples[..|Opening(events)|] + Pick(samples, picks))
  {
    var accepted := S.Run(S.Start(rt), actions).net.accepted;
    AcceptedOpens(rt, actions, start, steps, rank);
    assert received[0] in S.Run(S.Start(rt), actions).stream.datagrams;
    var picks := ReceivedAreCalls(rt, actions, start, steps, rank, received);
    SelectionDelivered(start, steps, rank, samples, received, picks);
    Tails.FeedAllTail(NewParser(), accepted + received, buffers, true);
  }
}
