/** Whole streams of messages: exactly which ones the parser accepts. */
module Streams {
  import opened Bytes
  import opened Outcomes
  import Layout
  import LayoutTheorems
  import opened Parser
  import opened ParserInvariants
  import SeriesShape
  import opened Encoder
  import opened RoundTrips
  import TypeCollisions
  import opened SharedSeries
  import opened Events

  // ---- what is so of the messages ----

  /** A sample has been stored. */
  predicate Started(events: seq<Event>) {
    events != [] && (Started(events[..|events| - 1]) || events[|events| - 1].Sampled?)
  }

  /** The formats registered before the first sample, the last registration of a name winning. */
  function FormatsIn(events: seq<Event>): Layout.Formats {
    if events == [] then map[]
    else
      var before, e := events[..|events| - 1], events[|events| - 1];
      if e.Formatted? && !Started(before) then Defined(FormatsIn(before), e.name, e.fields) else FormatsIn(before)
  }

  /** Formats come before the first sample and logged messages after it. */
  predicate OrderKept(events: seq<Event>) {
    events != [] ==>
      var before, e := events[..|events| - 1], events[|events| - 1];
      OrderKept(before) && (e.Formatted? ==> !Started(before)) && (e.Logged? ==> Started(before))
  }

  /** Every message is legal where it stands. */
  predicate LegalRun(ids: map<string, nat>, events: seq<Event>) {
    events != [] ==>
      var before, e := events[..|events| - 1], events[|events| - 1];
      LegalRun(ids, before) && Legal(FormatsIn(before), e) && (e.Sampled? ==> e.typeName in ids)
  }

  /** The multi id of the first sample of type `n`. */
  function FirstInstance(events: seq<Event>, n: string): Option<nat> {
    if events == [] then None
    else
      var before := FirstInstance(events[..|events| - 1], n);
      var e := events[|events| - 1];
      if before.Some? then before else if e.Sampled? && e.typeName == n then Some(e.multiId) else None
  }

  /** Some sample of type `n` has a multi id above 0. */
  predicate HasInstances(events: seq<Event>, n: string) {
    events != [] &&
    var e := events[|events| - 1];
    (HasInstances(events[..|events| - 1], n) || (e.Sampled? && e.typeName == n && e.multiId > 0))
  }

  /** The first sample of every type is of an instance below `bound`. */
  ghost predicate FirstsBelow(events: seq<Event>, bound: nat) {
    forall n :: FirstInstance(events, n).Some? ==> FirstInstance(events, n).value < bound
  }

  /** The formats behind the first sample are acyclic, and types that can share a series have equally many columns. */
  ghost predicate GoodFormats(events: seq<Event>, rank: map<string, nat>, bound: nat) {
    Started(events) ==> LayoutTheorems.Ranked(FormatsIn(events), rank) && NoClash(FormatsIn(events), bound)
  }

  lemma LastOf(events: seq<Event>, e: Event)
    ensures (events + [e])[..|events + [e]| - 1] == events && (events + [e])[|events + [e]| - 1] == e
  {
  }

  lemma PacketsNext(ids: map<string, nat>, events: seq<Event>, e: Event)
    ensures Packets(ids, events + [e]) == Packets(ids, events) + [Packet(ids, e)]
  {
  }

  lemma Split(events: seq<Event>)
    requires events != []
    ensures events == events[..|events| - 1] + [events[|events| - 1]]
  {
  }

  lemma FirstsBelowBefore(events: seq<Event>, e: Event, bound: nat)
    requires FirstsBelow(events + [e], bound)
    ensures FirstsBelow(events, bound)
  {
    LastOf(events, e);
    forall n | FirstInstance(events, n).Some? ensures FirstInstance(events, n).value < bound {
      assert FirstInstance(events + [e], n) == FirstInstance(events, n);
    }
  }

  lemma {:induction false} FirstsLegal(ids: map<string, nat>, events: seq<Event>, n: string)
    requires LegalRun(ids, events) && FirstInstance(events, n).Some?
    ensures FirstInstance(events, n).value < INSTANCES
  {
    var before := events[..|events| - 1];
    if FirstInstance(before, n).Some? { FirstsLegal(ids, before, n); }
  }

  /** Instances of a legal run are bytes. */
  lemma FirstsAreBytes(ids: map<string, nat>, events: seq<Event>)
    requires LegalRun(ids, events)
    ensures FirstsBelow(events, INSTANCES)
  {
    forall n | FirstInstance(events, n).Some? ensures FirstInstance(events, n).value < INSTANCES {
      FirstsLegal(ids, events, n);
    }
  }

  // ---- what the parser knows ----

  /** Every subscription is the one its id was given to, and has a format. */
  predicate SubscriptionsMatch(p: Parser, ids: map<string, nat>) {
    forall id :: id in p.subscriptions ==>
      p.subscriptions[id].name in ids && ids[p.subscriptions[id].name] == id && p.subscriptions[id].format.Some?
  }

  /** The parser knows the types' instances. */
  predicate Tracks(p: Parser, ids: map<string, nat>, events: seq<Event>) {
    forall n :: n in ids ==> TracksType(p, ids, events, n)
  }

  predicate TracksType(p: Parser, ids: map<string, nat>, events: seq<Event>, n: string)
    requires n in ids
  {
    && (n in p.withMultiId <==> HasInstances(events, n))
    && (ids[n] in p.subscriptions <==> FirstInstance(events, n).Some?)
    && (ids[n] in p.subscriptions ==>
          p.subscriptions[ids[n]].multiId == FirstInstance(events, n).value && p.subscriptions[ids[n]].name == n)
  }

  /** The state that accepted messages lead to. */
  ghost predicate Follows(p: Parser, ids: map<string, nat>, events: seq<Event>, bound: nat) {
    && p.state == (if Started(events) then DEFINITION_OR_DATA else DEFINITION)
    && p.formats == FormatsIn(events) && Coherent(p) && Counted(p, bound)
    && SubscriptionsMatch(p, ids) && Tracks(p, ids, events)
  }

  /** The parser behind header and flags. */
  predicate Fresh(p: Parser) {
    p.state == DEFINITION && p.formats == map[] && p.subscriptions == map[] && p.timeseries == map[] &&
    p.withMultiId == {} && p.delivered == []
  }

  lemma FreshFollows(p: Parser, ids: map<string, nat>, bound: nat)
    requires Fresh(p)
    ensures Follows(p, ids, [], bound)
  {
  }

  // ---- one sample ----

  /** Allocator and parser agree: after the subscription in a packet of type `name`, the entry under its id is
      one of that type, although the parser keeps the first entry of an id. */
  lemma SubscriptionFound(p: Parser, ids: map<string, nat>, name: string, multiId: nat)
    requires GoodIds(ids) && name in ids && name in p.formats && SubscriptionsMatch(p, ids) && FormatsAgree(p)
    ensures var q := Added(p, multiId, ids[name], name);
      && SubscriptionsMatch(q, ids) && ids[name] in q.subscriptions
      && q.subscriptions[ids[name]].name == name && q.subscriptions[ids[name]].format == Some(p.formats[name])
  {
    if ids[name] in p.subscriptions { assert Agrees(p.formats, p.subscriptions[ids[name]]); }
  }

  lemma AddedCoherent(p: Parser, ids: map<string, nat>, name: string, multiId: nat)
    requires Coherent(p) && name in ids && name in p.formats && multiId < 256
    ensures Coherent(Added(p, multiId, ids[name], name))
  {
    var q := Added(p, multiId, ids[name], name);
    forall id | id in q.subscriptions ensures Agrees(q.formats, q.subscriptions[id]) {
      if id in p.subscriptions { assert Agrees(p.formats, p.subscriptions[id]); }
    }
  }

  lemma AddedTracks(p: Parser, ids: map<string, nat>, events: seq<Event>, e: Event)
    requires Tracks(p, ids, events) && GoodIds(ids) && e.Sampled? && e.typeName in ids
    ensures Tracks(Added(p, e.multiId, ids[e.typeName], e.typeName), ids, events + [e])
  {
    LastOf(events, e);
    var q := Added(p, e.multiId, ids[e.typeName], e.typeName);
    forall n | n in ids ensures TracksType(q, ids, events + [e], n) {
      assert TracksType(p, ids, events, n);
    }
  }

  /** The name the parser uses for samples of type `n` once it has the subscription. */
  function NameFor(p: Parser, ids: map<string, nat>, n: string): string {
    if n in ids && ids[n] in p.subscriptions then SeriesName(p, p.subscriptions[ids[n]]) else n
  }

  /** The name under which the last of `events` is delivered if it is of type `n`. All instances of a type share
      the series of the first. */
  function KnownAs(events: seq<Event>, n: string): string {
    var first := FirstInstance(events, n);
    if HasInstances(events, n) && first.Some? then TypeCollisions.Suffixed(n, first.value) else n
  }

  lemma NameIsKnown(p: Parser, ids: map<string, nat>, events: seq<Event>, n: string)
    requires Tracks(p, ids, events) && n in ids
    ensures NameFor(p, ids, n) == KnownAs(events, n)
  {
    assert TracksType(p, ids, events, n);
  }

  lemma KnownUnder(events: seq<Event>, n: string, bound: nat)
    requires FirstsBelow(events, bound)
    ensures Under(KnownAs(events, n), n, bound)
  {
  }

  /** A sample's packet is stored under the name by which its type is known. */
  lemma SampleParses(p: Parser, ids: map<string, nat>, events: seq<Event>, e: Event)
    requires PastFlags(p) && GoodIds(ids) && SubscriptionsMatch(p, ids) && Tracks(p, ids, events) && Coherent(p)
    requires e.Sampled? && Legal(p.formats, e) && e.typeName in ids
    ensures var q := Added(p, e.multiId, ids[e.typeName], e.typeName);
      Parse(p, Packet(ids, e)) ==
      FillSeries(q, KnownAs(events + [e], e.typeName), p.formats[e.typeName],
                 Sample(ids[e.typeName], e.timestamp, e.data))
  {
    var id := ids[e.typeName];
    PacketParses(p, e.multiId, id, e.typeName, id, e.timestamp, e.data);
    SubscriptionFound(p, ids, e.typeName, e.multiId);
    TypeCollisions.SampleHasId(id, e.timestamp, e.data);
    AddedTracks(p, ids, events, e);
    NameIsKnown(Added(p, e.multiId, id, e.typeName), ids, events + [e], e.typeName);
  }

  /** The series has as many columns as the type, new or old. */
  lemma ColumnsFit(p: Parser, rank: map<string, nat>, name: string, ts: string, bound: nat)
    requires LayoutTheorems.Ranked(p.formats, rank) && Counted(p, bound) && Storable(p.formats, name) &&
      Under(ts, name, bound)
    ensures TypeCollisions.Shape(p.formats, name).Ok? && SeriesColumns(p, ts, p.formats[name]).Ok?
    ensures |SeriesColumns(p, ts, p.formats[name]).value| == |TypeCollisions.Shape(p.formats, name).value|
  {
    LayoutTheorems.NamesDefined(p.formats, rank, p.formats.Keys, p.formats[name].fields, "", rank[name]);
  }

  /** A sample that is long enough for its type is stored. */
  lemma SampleStored(p: Parser, rank: map<string, nat>, name: string, ts: string, message: seq<byte>, bound: nat)
    requires LayoutTheorems.Ranked(p.formats, rank) && Coherent(p) && Counted(p, bound) && NoClash(p.formats, bound)
    requires Storable(p.formats, name) && Under(ts, name, bound)
    requires |message| >= 10 && |message| >= 10 + SampleSize(p.formats, name)
    ensures var r := FillSeries(p, ts, p.formats[name], message); r.Ok? && Counted(r.value, bound) && Coherent(r.value)
  {
    var format := p.formats[name];
    ColumnsFit(p, rank, name, ts, bound);
    var columns := SeriesColumns(p, ts, format).value;
    LayoutTheorems.WalksAgree(p.formats, rank, name, message, 10, columns);
    LatestDefined(p, ts, format, message);
    FillCounted(p, rank, name, ts, message, bound);
    FillSeriesOneEach(p, ts, format, message);
  }

  /** What storing a sample leaves alone. */
  lemma StoredFollows(q: Parser, r: Parser, ids: map<string, nat>, events: seq<Event>, bound: nat)
    requires r.formats == q.formats && r.subscriptions == q.subscriptions && r.withMultiId == q.withMultiId
    requires SubscriptionsMatch(q, ids) && Tracks(q, ids, events)
    ensures SubscriptionsMatch(r, ids) && Tracks(r, ids, events)
  {
    forall n | n in ids ensures TracksType(r, ids, events, n) { assert TracksType(q, ids, events, n); }
  }

  lemma SampleFollows(p: Parser, ids: map<string, nat>, rank: map<string, nat>, events: seq<Event>, e: Event,
                      bound: nat)
    requires Follows(p, ids, events, bound) && GoodIds(ids) && FirstsBelow(events + [e], bound)
    requires e.Sampled? && Legal(FormatsIn(events), e) && e.typeName in ids
    requires LayoutTheorems.Ranked(FormatsIn(events), rank) && NoClash(FormatsIn(events), bound)
    ensures var r := Parse(p, Packet(ids, e)); r.Ok? && Follows(r.value, ids, events + [e], bound)
  {
    LastOf(events, e);
    var n, id := e.typeName, ids[e.typeName];
    var q, ts, message := Added(p, e.multiId, id, n), KnownAs(events + [e], n), Sample(id, e.timestamp, e.data);
    SampleParses(p, ids, events, e);
    SubscriptionFound(p, ids, n, e.multiId);
    AddedCoherent(p, ids, n, e.multiId);
    AddedTracks(p, ids, events, e);
    KnownUnder(events + [e], n, bound);
    LegalStorable(p.formats, e);
    assert Counted(q, bound);
    SampleStored(q, rank, n, ts, message, bound);
    StoredFollows(q, Parse(p, Packet(ids, e)).value, ids, events + [e], bound);
  }

  // ---- any other message ----

  lemma OthersTrack(p: Parser, q: Parser, ids: map<string, nat>, events: seq<Event>, e: Event)
    requires Tracks(p, ids, events) && !e.Sampled?
    requires q.subscriptions == p.subscriptions && q.withMultiId == p.withMultiId
    ensures Tracks(q, ids, events + [e])
  {
    LastOf(events, e);
    forall n | n in ids ensures TracksType(q, ids, events + [e], n) { assert TracksType(p, ids, events, n); }
  }

  lemma SameFollows(p: Parser, q: Parser, ids: map<string, nat>, events: seq<Event>, e: Event, bound: nat)
    requires Follows(p, ids, events, bound) && SameData(p, q) && !e.Sampled? && !e.Formatted?
    ensures Follows(q, ids, events + [e], bound)
  {
    LastOf(events, e);
    OthersTrack(p, q, ids, events, e);
  }

  lemma FormatFollows(p: Parser, ids: map<string, nat>, events: seq<Event>, e: Event, bound: nat)
    requires Follows(p, ids, events, bound) && e.Formatted? && !Started(events)
    ensures Follows(p.(formats := Defined(p.formats, e.name, e.fields)), ids, events + [e], bound)
  {
    LastOf(events, e);
    OthersTrack(p, p.(formats := Defined(p.formats, e.name, e.fields)), ids, events, e);
  }

  lemma PropertyFollows(p: Parser, ids: map<string, nat>, events: seq<Event>, e: Event, bound: nat)
    requires Follows(p, ids, events, bound) && (e.Parameterised? || e.Informed? || e.MultiInformed?)
    requires Legal(FormatsIn(events), e)
    ensures var r := Parse(p, Packet(ids, e)); r.Ok? && Follows(r.value, ids, events + [e], bound)
  {
    PropertyParses(p, ids, e);
    SameFollows(p, Parse(p, Packet(ids, e)).value, ids, events, e, bound);
  }

  lemma LogFollows(p: Parser, ids: map<string, nat>, events: seq<Event>, e: Event, bound: nat)
    requires Follows(p, ids, events, bound) && e.Logged? && Legal(FormatsIn(events), e) && Started(events)
    ensures var r := Parse(p, Packet(ids, e)); r.Ok? && Follows(r.value, ids, events + [e], bound)
  {
    LogParses(p, ids, e);
    SameFollows(p, Parse(p, Packet(ids, e)).value, ids, events, e, bound);
  }

  /** Every message but a sample is followed where its kind belongs, and makes the parser INVALID elsewhere. */
  lemma OtherFollows(p: Parser, ids: map<string, nat>, events: seq<Event>, e: Event, bound: nat)
    requires Follows(p, ids, events, bound) && !e.Sampled? && Legal(FormatsIn(events), e)
    ensures var r := Parse(p, Packet(ids, e));
      r.Ok? &&
      if (e.Formatted? && Started(events)) || (e.Logged? && !Started(events)) then r.value.state == INVALID
      else Follows(r.value, ids, events + [e], bound)
  {
    if e.Formatted? {
      if Started(events) {
        FormatRejected(p, ids, e.name, e.fields);
      } else {
        FormatParses(p, ids, e.name, e.fields);
        FormatFollows(p, ids, events, e, bound);
      }
    } else if e.Logged? {
      if Started(events) { LogFollows(p, ids, events, e, bound); } else { LogRejected(p, ids, e); }
    } else {
      PropertyFollows(p, ids, events, e, bound);
    }
  }

  // ---- given to `parse` or to `check_ulog_valid` ----

  lemma SampleShape(multiId: byte, id: nat, name: string, time: nat, data: seq<byte>)
    requires |name| <= 255 && |data| >= 8
    ensures SeriesShape.DataPacketShape(AddMessage(multiId, id, name) + DataMessage(id, time, data))
  {
    PacketLayout(multiId, id, name, id, time, data);
  }

  /** The calls of the data handler made from `p` to `q`, once more. */
  function Twice(p: Parser, q: Parser, checked: bool): Parser
    requires |p.delivered| <= |q.delivered|
  {
    if checked then SeriesShape.CalledTwice(p, q) else q
  }

  lemma SampleFed(p: Parser, ids: map<string, nat>, e: Event, checked: bool)
    requires PastFlags(p) && e.Sampled? && |e.typeName| <= 255 && |e.data| >= 8 && e.multiId < 256 && e.typeName in ids
    requires Parse(p, Packet(ids, e)).Ok?
    ensures var q := Parse(p, Packet(ids, e)).value;
      |p.delivered| <= |q.delivered| && Feed(p, Packet(ids, e), checked) == Ok(Twice(p, q, checked))
  {
    SampleShape(e.multiId, ids[e.typeName], e.typeName, e.timestamp, e.data);
    SeriesShape.CheckValidParsesOnce(p, Packet(ids, e));
  }

  lemma TwiceFollows(p: Parser, q: Parser, checked: bool, ids: map<string, nat>, events: seq<Event>, bound: nat)
    requires Follows(q, ids, events, bound) && |p.delivered| <= |q.delivered|
    ensures Follows(Twice(p, q, checked), ids, events, bound)
  {
    var r := Twice(p, q, checked);
    assert r.timeseries == q.timeseries && r.formats == q.formats && r.subscriptions == q.subscriptions;
    forall n | n in ids ensures TracksType(r, ids, events, n) { assert TracksType(q, ids, events, n); }
  }

  // ---- the theorem ----

  lemma FormatsFrozenBy(events: seq<Event>, e: Event)
    requires Started(events) || e.Sampled?
    ensures FormatsIn(events + [e]) == FormatsIn(events) && Started(events + [e])
  {
    LastOf(events, e);
  }

  /** One more message of an accepted stream. */
  lemma NextFed(p: Parser, ids: map<string, nat>, rank: map<string, nat>, events: seq<Event>, e: Event, bound: nat,
                checked: bool)
    requires Follows(p, ids, events, bound) && GoodIds(ids) && FirstsBelow(events + [e], bound)
    requires OrderKept(events) && Legal(FormatsIn(events), e) && (e.Sampled? ==> e.typeName in ids)
    requires GoodFormats(events + [e], rank, bound)
    ensures var r := Feed(p, Packet(ids, e), checked);
      r.Ok? &&
      if OrderKept(events + [e]) then Follows(r.value, ids, events + [e], bound) else r.value.state == INVALID
  {
    LastOf(events, e);
    if e.Sampled? {
      FormatsFrozenBy(events, e);
      SampleFollows(p, ids, rank, events, e, bound);
      SampleFed(p, ids, e, checked);
      TwiceFollows(p, Parse(p, Packet(ids, e)).value, checked, ids, events + [e], bound);
    } else {
      OtherIsNotData(FormatsIn(events), ids, e);
      NotDataFed(p, Packet(ids, e), checked);
      OtherFollows(p, ids, events, e, bound);
    }
  }

  lemma GoodBefore(events: seq<Event>, e: Event, rank: map<string, nat>, bound: nat)
    requires GoodFormats(events + [e], rank, bound)
    ensures GoodFormats(events, rank, bound)
  {
    if Started(events) { FormatsFrozenBy(events, e); }
  }

  /** Every stream of legal messages is followed as long as formats come before the first sample and logged messages
      after it; from the first that does not on the parser is INVALID. */
  lemma {:induction false} StreamFed(p: Parser, ids: map<string, nat>, rank: map<string, nat>, events: seq<Event>,
                                     bound: nat,
                                     checked: bool)
    requires Fresh(p) && GoodIds(ids) && LegalRun(ids, events) && FirstsBelow(events, bound)
    requires GoodFormats(events, rank, bound)
    ensures var r := FeedAll(p, Packets(ids, events), checked);
      r.Ok? && if OrderKept(events) then Follows(r.value, ids, events, bound) else r.value.state == INVALID
    decreases |events|
  {
    if events == [] {
      FreshFollows(p, ids, bound);
    } else {
      var before, e := events[..|events| - 1], events[|events| - 1];
      Split(events);
      FirstsBelowBefore(before, e, bound);
      GoodBefore(before, e, rank, bound);
      StreamFed(p, ids, rank, before, bound, checked);
      PacketsNext(ids, before, e);
      FeedNext(p, Packets(ids, before), Packet(ids, e), checked);
      var q := FeedAll(p, Packets(ids, before), checked).value;
      if OrderKept(before) {
        NextFed(q, ids, rank, before, e, bound, checked);
      } else {
        InvalidStays(q, Packet(ids, e), checked);
      }
    }
  }

  /** Header and flags, then the messages. */
  function Stream(start: nat, ids: map<string, nat>, events: seq<Event>): seq<seq<byte>> {
    [FileHeader(start), FLAG_BITS] + Packets(ids, events)
  }

  lemma HeaderIsNotData(start: nat)
    ensures NotData(FileHeader(start)) && NotData(FLAG_BITS)
  {
    assert FileHeader(start)[2] == MAGIC[2];
    HeaderType(FLAG_BITS, 40, 'B', Zeros(40));
  }

  lemma HeaderFed(start: nat, checked: bool)
    requires start < Pow256(8)
    ensures var r := FeedAll(NewParser(), [FileHeader(start), FLAG_BITS], checked); r.Ok? && Fresh(r.value)
  {
    HeaderIsNotData(start);
    FileHeaderParses(NewParser(), start);
    var p := Parse(NewParser(), FileHeader(start)).value;
    FlagBitsParse(p);
    NotDataFed(NewParser(), FileHeader(start), checked);
    NotDataFed(p, FLAG_BITS, checked);
    FeedNext(NewParser(), [], FileHeader(start), checked);
    assert [] + [FileHeader(start)] == [FileHeader(start)];
    FeedNext(NewParser(), [FileHeader(start)], FLAG_BITS, checked);
    assert [FileHeader(start)] + [FLAG_BITS] == [FileHeader(start), FLAG_BITS];
  }

  /** A whole stream of legal messages is accepted, by `parse` or by `check_ulog_valid`, if and only if formats come
      before the first sample and logged messages after it. */
  lemma AcceptedIff(start: nat, ids: map<string, nat>, rank: map<string, nat>, events: seq<Event>, bound: nat,
                    checked: bool)
    requires start < Pow256(8) && GoodIds(ids) && LegalRun(ids, events) && FirstsBelow(events, bound)
    requires GoodFormats(events, rank, bound)
    ensures FeedAll(NewParser(), Stream(start, ids, events), checked).Ok?
    ensures Accepted(NewParser(), Stream(start, ids, events), checked) <==> OrderKept(events)
  {
    HeaderFed(start, checked);
    var first := [FileHeader(start), FLAG_BITS];
    FeedAppend(NewParser(), first, Packets(ids, events), checked);
    StreamFed(FeedAll(NewParser(), first, checked).value, ids, rank, events, bound, checked);
  }
}
