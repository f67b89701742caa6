/** From the serialized sample to the data handler: what is stored is what is delivered. */
module EndToEnd {
  import opened Bytes
  import opened Outcomes
  import opened Layout
  import opened LayoutTheorems
  import opened Samples
  import opened Parser
  import Encoder
  import RoundTrips
  import opened TypeCollisions
  import opened SharedSeries
  import opened Events
  import opened Streams

  /** `data` is a serialized sample of format `n`: eight bytes of timestamp, then its values. */
  predicate Serializes(fm: Formats, n: string, data: seq<byte>, items: seq<Item>) {
    n in fm && ItemsFit(fm, fm[n].fields, items) && |data| >= 8 && data[8..] == Encode(items)
  }

  // ---- one sample ----

  /** Each column with its one value. */
  function Filled(names: seq<string>, values: seq<Value>): (r: seq<Column>)
    requires |names| == |values|
  {
    seq(|names|, i requires 0 <= i < |names| => Column(names[i], [values[i]]))
  }

  function Zip(names: seq<string>, values: seq<Value>): (r: seq<(string, Value)>)
    requires |names| == |values|
  {
    seq(|names|, i requires 0 <= i < |names| => (names[i], values[i]))
  }

  lemma OverwriteAll(data: seq<Column>, values: seq<Value>)
    requires |data| == |values|
    ensures Overwrite(data, 0, values) == Filled(NamesOf(data), values)
  {
  }

  lemma LatestOfFilled(timestamp: nat, names: seq<string>, values: seq<Value>, ts: string)
    requires |names| == |values|
    ensures LatestData(Series([timestamp], Filled(names, values)), ts) == MessageData(ts, timestamp, Zip(names, values))
  {
  }

  /** The sample's message holds its encoded values behind id and time. */
  lemma SampleHolds(msgId: nat, timestamp: nat, data: seq<byte>)
    requires msgId < 0x1_0000 && timestamp < Pow256(8) && |data| >= 8
    ensures var m := RoundTrips.Sample(msgId, timestamp, data);
      NumberAt(m, 2, 8) == Ok(timestamp) && At(m, 10, data[8..]) && |m| == 2 + |data|
  {
    RoundTrips.NumberReads(Le(msgId, 2), timestamp, 8, data[8..]);
  }

  /** The slots of a type read the leaves of a sample of it, and there are as many columns as leaves. */
  lemma LeavesRead(fm: Formats, rank: map<string, nat>, n: string, items: seq<Item>, message: seq<byte>)
    requires Ranked(fm, rank) && n in fm && ItemsFit(fm, fm[n].fields, items) && At(message, 10, Encode(items))
    ensures Flatten(fm, fm.Keys, fm[n].fields).Ok? && Shape(fm, n).Ok?
    ensures Reading(Flatten(fm, fm.Keys, fm[n].fields).value, message, 10, Encode(items), Leaves(items))
    ensures |Shape(fm, n).value| == |Leaves(items)|
  {
    var fields := fm[n].fields;
    NamesDefined(fm, rank, fm.Keys, fields, "", rank[n]);
    NamesFollow(fm, fm.Keys, fields, "");
    ItemsRead(fm, fm.Keys, fields, items, message, 10);
    SlotValuesCount(Flatten(fm, fm.Keys, fields).value, message, 10);
  }

  lemma ColumnsNamed(p: Parser, n: string, ts: string, bound: nat)
    requires Kept(p, bound) && Storable(p.formats, n) && Under(ts, n, bound) && SeriesColumns(p, ts, p.formats[n]).Ok?
    ensures Shape(p.formats, n) == Ok(NamesOf(SeriesColumns(p, ts, p.formats[n]).value))
  {
    if ts !in p.timeseries { NamesOfEmpty(Shape(p.formats, n)); }
  }

  /** The parser after a delivered sample. */
  function Delivered(p: Parser, n: string, ts: string, time: nat, items: seq<Item>): Parser
    requires n in p.formats && Shape(p.formats, n).Ok? && |Shape(p.formats, n).value| == |Leaves(items)|
  {
    var names := Shape(p.formats, n).value;
    p.(state := DEFINITION_OR_DATA,
       timeseries := p.timeseries[ts := Series([time], Filled(names, Leaves(items)))],
       delivered := p.delivered + [MessageData(ts, time, Zip(names, Leaves(items)))])
  }

  /** Storing an encoded sample leaves its series with the given time and, column by column, its leaves. */
  lemma SampleFills(p: Parser, rank: map<string, nat>, n: string, ts: string, items: seq<Item>, message: seq<byte>,
                    time: nat, bound: nat)
    requires Ranked(p.formats, rank) && Kept(p, bound) && Storable(p.formats, n) && Under(ts, n, bound)
    requires ItemsFit(p.formats, p.formats[n].fields, items)
    requires At(message, 10, Encode(items)) && NumberAt(message, 2, 8) == Ok(time)
    ensures Shape(p.formats, n).Ok? && |Shape(p.formats, n).value| == |Leaves(items)|
    ensures FillSeries(p, ts, p.formats[n], message) == Ok(Delivered(p, n, ts, time, items))
  {
    var fm, format := p.formats, p.formats[n];
    LeavesRead(fm, rank, n, items, message);
    NamesDefined(fm, rank, fm.Keys, format.fields, "", rank[n]);
    var columns := SeriesColumns(p, ts, format).value;
    ColumnsNamed(p, n, ts, bound);
    WalksAgree(fm, rank, n, message, 10, columns);
    OverwriteAll(columns, Leaves(items));
    LatestOfFilled(time, Shape(fm, n).value, Leaves(items), ts);
  }

  /** The leaves of a sample of type `n` under the names of its columns. */
  function Named(fm: Formats, n: string, items: seq<Item>): seq<(string, Value)>
    requires n in fm
  {
    if Shape(fm, n).Ok? && |Shape(fm, n).value| == |Leaves(items)| then Zip(Shape(fm, n).value, Leaves(items)) else []
  }

  /** No leaf is lost in naming: a serialized sample has a column for every leaf. */
  lemma NamedWhole(fm: Formats, rank: map<string, nat>, n: string, data: seq<byte>, items: seq<Item>)
    requires Ranked(fm, rank) && Serializes(fm, n, data, items)
    ensures Shape(fm, n).Ok? && |Named(fm, n, items)| == |Leaves(items)| == |Shape(fm, n).value|
    ensures forall i :: 0 <= i < |Leaves(items)| ==> Named(fm, n, items)[i] == (Shape(fm, n).value[i], Leaves(items)[i])
  {
    var message := Zeros(10) + Encode(items);
    assert message[10..] == Encode(items);
    LeavesRead(fm, rank, n, items, message);
  }

  /** End to end: parsing the packet built from an encoded sample leaves the series of its type with exactly
      the given time and the sample's leaves, and hands the same to the data handler. */
  lemma SampleDelivered(p: Parser, ids: map<string, nat>, rank: map<string, nat>, events: seq<Event>, e: Event,
                        items: seq<Item>, bound: nat)
    requires Follows(p, ids, events, bound) && Kept(p, bound) && GoodIds(ids) && FirstsBelow(events + [e], bound)
    requires e.Sampled? && Legal(p.formats, e) && e.typeName in ids && Serializes(p.formats, e.typeName, e.data, items)
    requires Ranked(p.formats, rank) && NoMixup(p.formats, bound)
    ensures Shape(p.formats, e.typeName).Ok? && |Shape(p.formats, e.typeName).value| == |Leaves(items)|
    ensures var q := RoundTrips.Added(p, e.multiId, ids[e.typeName], e.typeName);
      Parse(p, Packet(ids, e)) == Ok(Delivered(q, e.typeName, KnownAs(events + [e], e.typeName), e.timestamp, items))
    ensures Kept(Parse(p, Packet(ids, e)).value, bound)
  {
    var n, id, ts := e.typeName, ids[e.typeName], KnownAs(events + [e], e.typeName);
    var q, message := RoundTrips.Added(p, e.multiId, id, n), RoundTrips.Sample(id, e.timestamp, e.data);
    SampleParses(p, ids, events, e);
    LegalStorable(p.formats, e);
    KnownUnder(events + [e], n, bound);
    SampleHolds(id, e.timestamp, e.data);
    SampleFills(q, rank, n, ts, items, message, e.timestamp, bound);
    FillKept(q, n, ts, message, bound);
  }

  // ---- whole streams ----

  /** Every sampled event is the serialization of its items. */
  predicate AllSerialize(fm: Formats, events: seq<Event>, samples: seq<seq<Item>>) {
    |samples| == |events| &&
    forall i :: 0 <= i < |events| && events[i].Sampled? ==>
      Serializes(fm, events[i].typeName, events[i].data, samples[i])
  }

  /** One call of the data handler for each sample, in order. */
  function Deliveries(fm: Formats, events: seq<Event>, samples: seq<seq<Item>>): seq<MessageData>
    requires AllSerialize(fm, events, samples)
  {
    if events == [] then []
    else
      var k := |events| - 1;
      var before := Deliveries(fm, events[..k], samples[..k]);
      match events[k]
      case Sampled(n, _, time, _) =>
        before + [MessageData(KnownAs(events, n), time, Named(fm, n, samples[k]))]
      case _ => before
  }

  /** `check_ulog_valid` hands every sample on twice. */
  function Repeated(calls: seq<MessageData>, checked: bool): seq<MessageData> {
    if calls == [] || !checked then calls
    else
      var n := |calls| - 1;
      Repeated(calls[..n], checked) + [calls[n], calls[n]]
  }

  lemma RepeatedNext(calls: seq<MessageData>, next: MessageData, checked: bool)
    ensures Repeated(calls + [next], checked) == Repeated(calls, checked) + (if checked then [next, next] else [next])
  {
    assert (calls + [next])[..|calls|] == calls;
  }

  /** Every sample is handed on under the name its type is known by, with its time and all its leaves. */
  lemma SampleHandedOn(p: Parser, ids: map<string, nat>, rank: map<string, nat>, events: seq<Event>, e: Event,
                       items: seq<Item>, bound: nat, checked: bool)
    requires Follows(p, ids, events, bound) && Kept(p, bound) && GoodIds(ids) && FirstsBelow(events + [e], bound)
    requires e.Sampled? && Legal(p.formats, e) && e.typeName in ids && Serializes(p.formats, e.typeName, e.data, items)
    requires Ranked(p.formats, rank) && NoMixup(p.formats, bound)
    ensures var r := Feed(p, Packet(ids, e), checked);
      var call := MessageData(KnownAs(events + [e], e.typeName), e.timestamp, Named(p.formats, e.typeName, items));
      r.Ok? && Kept(r.value, bound) && r.value.delivered == p.delivered + (if checked then [call, call] else [call])
  {
    SampleDelivered(p, ids, rank, events, e, items, bound);
    SampleFed(p, ids, e, checked);
    var q, r := Parse(p, Packet(ids, e)).value, Feed(p, Packet(ids, e), checked).value;
    var call := MessageData(KnownAs(events + [e], e.typeName), e.timestamp, Named(p.formats, e.typeName, items));
    assert q.delivered == p.delivered + [call];
    assert q.delivered[|p.delivered|..] == [call];
    assert r.timeseries == q.timeseries && r.formats == q.formats;
  }

  lemma OtherHandsOnNothing(p: Parser, ids: map<string, nat>, events: seq<Event>, e: Event, bound: nat, checked: bool)
    requires Follows(p, ids, events, bound) && Kept(p, bound) && !e.Sampled? && Legal(p.formats, e)
    requires (e.Formatted? ==> !Started(events)) && (e.Logged? ==> Started(events))
    ensures var r := Feed(p, Packet(ids, e), checked); r.Ok? && Kept(r.value, bound) && r.value.delivered == p.delivered
  {
    OtherIsNotData(p.formats, ids, e);
    NotDataFed(p, Packet(ids, e), checked);
    if e.Formatted? {
      FormatParses(p, ids, e.name, e.fields);
    } else if e.Logged? {
      LogParses(p, ids, e);
    } else {
      PropertyParses(p, ids, e);
    }
  }

  lemma SerializeBefore(fm: Formats, events: seq<Event>, samples: seq<seq<Item>>)
    requires AllSerialize(fm, events, samples) && events != []
    ensures AllSerialize(fm, events[..|events| - 1], samples[..|samples| - 1])
  {
  }

  lemma DeliveriesNext(fm: Formats, events: seq<Event>, samples: seq<seq<Item>>, checked: bool)
    requires AllSerialize(fm, events, samples) && events != []
    ensures AllSerialize(fm, events[..|events| - 1], samples[..|samples| - 1])
    ensures var k := |events| - 1;
      Repeated(Deliveries(fm, events, samples), checked) ==
      Repeated(Deliveries(fm, events[..k], samples[..k]), checked) +
      if !events[k].Sampled? then []
      else
        var call := MessageData(KnownAs(events, events[k].typeName), events[k].timestamp,
                                Named(fm, events[k].typeName, samples[k]));
        if checked then [call, call] else [call]
  {
    SerializeBefore(fm, events, samples);
    var k := |events| - 1;
    var before := Deliveries(fm, events[..k], samples[..k]);
    if events[k].Sampled? {
      var call := MessageData(KnownAs(events, events[k].typeName), events[k].timestamp,
                              Named(fm, events[k].typeName, samples[k]));
      assert Deliveries(fm, events, samples) == before + [call];
      RepeatedNext(before, call, checked);
    }
  }

  /** Over a whole accepted stream the data handler is called for each sample, in order, with the time it was stored
      with and exactly its leaves under the columns of its type: once by `parse`, twice by `check_ulog_valid`. */
  lemma {:induction false} StreamHandedOn(p: Parser, ids: map<string, nat>, rank: map<string, nat>, fm: Formats,
                                          events: seq<Event>, samples: seq<seq<Item>>, bound: nat, checked: bool)
    requires Fresh(p) && GoodIds(ids) && LegalRun(ids, events) && FirstsBelow(events, bound) && OrderKept(events)
    requires Started(events) ==> fm == FormatsIn(events) && Ranked(fm, rank) && NoMixup(fm, bound)
    requires AllSerialize(fm, events, samples)
    ensures var r := FeedAll(p, Packets(ids, events), checked);
      && r.Ok? && Follows(r.value, ids, events, bound) && Kept(r.value, bound)
      && r.value.delivered == Repeated(Deliveries(fm, events, samples), checked)
    decreases |events|
  {
    if events == [] {
      FreshFollows(p, ids, bound);
    } else {
      var k := |events| - 1;
      var before, e := events[..k], events[k];
      Split(events);
      FirstsBelowBefore(before, e, bound);
      if Started(before) || e.Sampled? { FormatsFrozenBy(before, e); }
      SerializeBefore(fm, events, samples);
      StreamHandedOn(p, ids, rank, fm, before, samples[..k], bound, checked);
      DeliveriesNext(fm, events, samples, checked);
      PacketsNext(ids, before, e);
      FeedNext(p, Packets(ids, before), Packet(ids, e), checked);
      HandOnNext(FeedAll(p, Packets(ids, before), checked).value, ids, rank, before, e, samples[k], bound, checked);
    }
  }

  lemma HandOnNext(p: Parser, ids: map<string, nat>, rank: map<string, nat>, events: seq<Event>, e: Event,
                   items: seq<Item>, bound: nat, checked: bool)
    requires Follows(p, ids, events, bound) && Kept(p, bound) && GoodIds(ids) && FirstsBelow(events + [e], bound)
    requires OrderKept(events + [e]) && OrderKept(events) && Legal(p.formats, e)
    requires e.Sampled? ==> e.typeName in ids && Serializes(p.formats, e.typeName, e.data, items)
    requires Started(events + [e]) ==> Ranked(FormatsIn(events + [e]), rank) && NoMixup(FormatsIn(events + [e]), bound)
    ensures var r := Feed(p, Packet(ids, e), checked);
      && r.Ok? && Follows(r.value, ids, events + [e], bound) && Kept(r.value, bound)
      && r.value.delivered == p.delivered +
           if !e.Sampled? then []
           else
             var name := KnownAs(events + [e], e.typeName);
             var call := MessageData(name, e.timestamp, Named(p.formats, e.typeName, items));
             if checked then [call, call] else [call]
  {
    LastOf(events, e);
    if Started(events + [e]) { NoMixupNoClash(FormatsIn(events + [e]), bound); }
    NextFed(p, ids, rank, events, e, bound, checked);
    if e.Sampled? {
      FormatsFrozenBy(events, e);
      SampleHandedOn(p, ids, rank, events, e, items, bound, checked);
    } else {
      OtherHandsOnNothing(p, ids, events, e, bound, checked);
    }
  }

  /** The same for a whole stream with its header and flags. */
  lemma StreamDelivered(start: nat, ids: map<string, nat>, rank: map<string, nat>, events: seq<Event>,
                        samples: seq<seq<Item>>, bound: nat, checked: bool)
    requires start < Pow256(8) && GoodIds(ids) && LegalRun(ids, events) && FirstsBelow(events, bound)
    requires OrderKept(events)
    requires Started(events) ==> Ranked(FormatsIn(events), rank) && NoMixup(FormatsIn(events), bound)
    requires AllSerialize(FormatsIn(events), events, samples)
    ensures var r := FeedAll(NewParser(), Stream(start, ids, events), checked);
      r.Ok? && r.value.delivered == Repeated(Deliveries(FormatsIn(events), events, samples), checked)
  {
    HeaderFed(start, checked);
    var first := [Encoder.FileHeader(start), Encoder.FLAG_BITS];
    FeedAppend(NewParser(), first, Packets(ids, events), checked);
    StreamHandedOn(FeedAll(NewParser(), first, checked).value, ids, rank, FormatsIn(events), events, samples, bound,
                   checked);
  }
}
