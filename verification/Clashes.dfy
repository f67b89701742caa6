/** Two types that can share a series and differ in their columns: how their samples meet. */
module Clashes {
  import opened Bytes
  import opened Outcomes
  import opened Layout
  import opened LayoutTheorems
  import opened Parser
  import opened ParserInvariants
  import RoundTrips
  import opened TypeCollisions
  import opened SharedSeries
  import opened Events
  import opened Streams

  // ---- samples of zeros ----

  function Zero(fm: Formats, n: string, multiId: nat): Event
    requires n in fm && Flatten(fm, fm.Keys, fm[n].fields).Ok?
  {
    Sampled(n, multiId, 0, ZeroData(fm, n))
  }

  lemma ZeroLegal(fm: Formats, rank: map<string, nat>, n: string, multiId: nat)
    requires Ranked(fm, rank) && Storable(fm, n) && multiId < INSTANCES
    ensures Flatten(fm, fm.Keys, fm[n].fields).Ok? && Legal(fm, Zero(fm, n, multiId))
  {
    NamesDefined(fm, rank, fm.Keys, fm[n].fields, "", rank[n]);
    SizeForward(Flatten(fm, fm.Keys, fm[n].fields).value);
  }

  // ---- storing without assuming that types do not clash ----

  /** What a parser must know for its samples to be found. */
  predicate Known(p: Parser, ids: map<string, nat>, events: seq<Event>) {
    && RoundTrips.PastFlags(p) && p.formats == FormatsIn(events) && Coherent(p)
    && SubscriptionsMatch(p, ids) && Tracks(p, ids, events)
  }

  /** A walk that has more leaves than columns leaves its bounds. */
  lemma Overflows(fm: Formats, rank: map<string, nat>, n: string, message: seq<byte>, data: seq<Column>)
    requires Ranked(fm, rank) && n in fm && |data| < Columns(fm, n)
    ensures FillFields(fm, fm.Keys, fm[n].fields, message, Walk(data, 10, 0)) == Err(OutOfBounds)
  {
    var fields := fm[n].fields;
    NamesDefined(fm, rank, fm.Keys, fields, "", rank[n]);
    NamesFollow(fm, fm.Keys, fields, "");
    var slots := Flatten(fm, fm.Keys, fields).value;
    FillFollows(fm, fm.Keys, fields, message, Walk(data, 10, 0));
    FillSlotsEffect(slots, message, Walk(data, 10, 0));
    if SlotValues(slots, message, 10).Ok? { SlotValuesCount(slots, message, 10); }
  }

  /** The parser after the subscription in a sample's packet. */
  function Subscribed(p: Parser, ids: map<string, nat>, e: Event): Parser
    requires e.Sampled? && e.typeName in ids
  {
    RoundTrips.Added(p, e.multiId, ids[e.typeName], e.typeName)
  }

  lemma SubscribedKnown(p: Parser, q: Parser, ids: map<string, nat>, events: seq<Event>, e: Event)
    requires Known(p, ids, events) && GoodIds(ids) && e.Sampled? && Legal(p.formats, e) && e.typeName in ids
    requires StoredOver(Subscribed(p, ids, e), q)
    ensures Known(q, ids, events + [e])
  {
    LastOf(events, e);
    SubscriptionFound(p, ids, e.typeName, e.multiId);
    AddedCoherent(p, ids, e.typeName, e.multiId);
    AddedTracks(p, ids, events, e);
    StoredFollows(Subscribed(p, ids, e), q, ids, events + [e], 0);
  }

  /** The series a sample is stored in, when it is the first there, has the columns of its type. */
  predicate Opens(p: Parser, r: Parser, ts: string, n: string) {
    && n in p.formats && ts in r.timeseries && Shape(p.formats, n) == Ok(NamesOf(r.timeseries[ts].data))
    && r.timeseries.Keys == p.timeseries.Keys + {ts} && r.state == DEFINITION_OR_DATA
  }

  /** What a stored sample leaves of the subscription before it. */
  predicate StoredOver(q: Parser, r: Parser) {
    && RoundTrips.PastFlags(r) && r.formats == q.formats && r.subscriptions == q.subscriptions &&
      r.withMultiId == q.withMultiId
    && AllOneEach(r) && EarlyEmpty(r) && |q.delivered| <= |r.delivered|
  }

  /** A long enough sample opens a new series. */
  lemma SeriesOpened(q: Parser, rank: map<string, nat>, n: string, ts: string, message: seq<byte>)
    requires Ranked(q.formats, rank) && n in q.formats && ts !in q.timeseries && AllOneEach(q) && EarlyEmpty(q)
    requires Flatten(q.formats, q.formats.Keys, q.formats[n].fields).Ok?
    requires |message| >= 10 && |message| >= 10 + SampleSize(q.formats, n)
    ensures var r := FillSeries(q, ts, q.formats[n], message);
      r.Ok? && StoredOver(q, r.value) && Opens(q, r.value, ts, n)
  {
    SeriesOpens(q, rank, n, ts, message);
    FillSeriesOneEach(q, ts, q.formats[n], message);
  }

  lemma ZeroLong(fm: Formats, n: string, id: nat)
    requires n in fm && Flatten(fm, fm.Keys, fm[n].fields).Ok?
    ensures var m := RoundTrips.Sample(id, 0, ZeroData(fm, n)); |m| >= 10 && |m| >= 10 + SampleSize(fm, n)
  {
  }

  lemma FirstParsed(p: Parser, ids: map<string, nat>, rank: map<string, nat>, events: seq<Event>, n: string,
                    multiId: nat,
                    ts: string)
    requires Known(p, ids, events) && GoodIds(ids) && Ranked(p.formats, rank) && Storable(p.formats, n)
    requires n in ids && multiId < INSTANCES && Flatten(p.formats, p.formats.Keys, p.formats[n].fields).Ok?
    requires KnownAs(events + [Zero(p.formats, n, multiId)], n) == ts && ts !in p.timeseries
    ensures var e := Zero(p.formats, n, multiId); var r := Parse(p, Packet(ids, e));
      r.Ok? && StoredOver(Subscribed(p, ids, e), r.value) && Opens(p, r.value, ts, n)
  {
    ZeroLegal(p.formats, rank, n, multiId);
    var e := Zero(p.formats, n, multiId);
    SampleParses(p, ids, events, e);
    ZeroLong(p.formats, n, ids[n]);
    AddedCoherent(p, ids, n, multiId);
    SeriesOpened(Subscribed(p, ids, e), rank, n, ts, RoundTrips.Sample(ids[n], 0, e.data));
  }

  lemma TwiceStored(p: Parser, q: Parser, r: Parser, ts: string, n: string, checked: bool)
    requires StoredOver(q, r) && Opens(p, r, ts, n) && |p.delivered| <= |r.delivered| && |q.delivered| == |p.delivered|
    ensures StoredOver(q, Twice(p, r, checked)) && Opens(p, Twice(p, r, checked), ts, n)
  {
    var t := Twice(p, r, checked);
    assert t.timeseries == r.timeseries && t.state == r.state && t.formats == r.formats;
  }

  /** The first sample of a series opens it with the columns of its type. */
  lemma FirstOpens(p: Parser, ids: map<string, nat>, rank: map<string, nat>, events: seq<Event>, n: string,
                   multiId: nat,
                   ts: string, checked: bool)
    requires Known(p, ids, events) && GoodIds(ids) && Ranked(p.formats, rank) && Storable(p.formats, n)
    requires n in ids && multiId < INSTANCES && Flatten(p.formats, p.formats.Keys, p.formats[n].fields).Ok?
    requires KnownAs(events + [Zero(p.formats, n, multiId)], n) == ts && ts !in p.timeseries
    ensures var e := Zero(p.formats, n, multiId); var r := Feed(p, Packet(ids, e), checked);
      r.Ok? && Known(r.value, ids, events + [e]) && Opens(p, r.value, ts, n)
  {
    var e := Zero(p.formats, n, multiId);
    ZeroLegal(p.formats, rank, n, multiId);
    FirstParsed(p, ids, rank, events, n, multiId, ts);
    SampleFed(p, ids, e, checked);
    TwiceStored(p, Subscribed(p, ids, e), Parse(p, Packet(ids, e)).value, ts, n, checked);
    SubscribedKnown(p, Feed(p, Packet(ids, e), checked).value, ids, events, e);
  }

  /** A sample with more leaves than its series has columns cannot be stored. */
  lemma LargerFails(p: Parser, ids: map<string, nat>, rank: map<string, nat>, events: seq<Event>, n: string,
                    multiId: nat,
                    ts: string, checked: bool)
    requires Known(p, ids, events) && GoodIds(ids) && Ranked(p.formats, rank) && Storable(p.formats, n)
    requires n in ids && multiId < INSTANCES && Flatten(p.formats, p.formats.Keys, p.formats[n].fields).Ok?
    requires KnownAs(events + [Zero(p.formats, n, multiId)], n) == ts && ts in p.timeseries
    requires |p.timeseries[ts].data| < Columns(p.formats, n)
    ensures Feed(p, Packet(ids, Zero(p.formats, n, multiId)), checked).Err?
  {
    ZeroLegal(p.formats, rank, n, multiId);
    var e := Zero(p.formats, n, multiId);
    SampleParses(p, ids, events, e);
    Overflows(p.formats, rank, n, RoundTrips.Sample(ids[n], 0, e.data), p.timeseries[ts].data);
  }

  /** Two samples under one name, the second with more leaves: the second fails. */
  lemma PairFails(p: Parser, ids: map<string, nat>, rank: map<string, nat>, events: seq<Event>, a: Event, b: Event,
                  ts: string, checked: bool)
    requires Known(p, ids, events) && GoodIds(ids) && Ranked(p.formats, rank) && ts !in p.timeseries
    requires IsZero(p.formats, ids, a) && IsZero(p.formats, ids, b)
    requires Columns(p.formats, a.typeName) < Columns(p.formats, b.typeName)
    requires KnownAs(events + [a], a.typeName) == ts && KnownAs(events + [a] + [b], b.typeName) == ts
    ensures FeedAll(p, Packets(ids, [a, b]), checked).Err?
  {
    FirstOpens(p, ids, rank, events, a.typeName, a.multiId, ts, checked);
    var r := Feed(p, Packet(ids, a), checked).value;
    LastOf(events, a);
    NamesCount(r.timeseries[ts].data);
    LargerFails(r, ids, rank, events + [a], b.typeName, b.multiId, ts, checked);
    EventsFed(p, ids, a, b, checked);
  }

  lemma EventsFed(p: Parser, ids: map<string, nat>, a: Event, b: Event, checked: bool)
    ensures FeedAll(p, Packets(ids, [a, b]), checked) ==
      var r := Feed(p, Packet(ids, a), checked);
      if r.Ok? then Feed(r.value, Packet(ids, b), checked) else r
  {
    PairFed(p, Packet(ids, a), Packet(ids, b), checked);
    assert Packets(ids, [a, b]) == [Packet(ids, a), Packet(ids, b)];
  }

  predicate IsZero(fm: Formats, ids: map<string, nat>, e: Event) {
    && e.Sampled? && e.typeName in ids && e.multiId < INSTANCES && Storable(fm, e.typeName)
    && Flatten(fm, fm.Keys, fm[e.typeName].fields).Ok? && e == Zero(fm, e.typeName, e.multiId)
  }

  lemma PairFed(p: Parser, a: seq<byte>, b: seq<byte>, checked: bool)
    ensures FeedAll(p, [a, b], checked) ==
      if Feed(p, a, checked).Ok? then Feed(Feed(p, a, checked).value, b, checked) else Feed(p, a, checked)
  {
    assert [a, b][..1] == [a] && [a][..0] == [];
    assert FeedAll(p, [a][..0], checked) == Ok(p);
    assert FeedAll(p, [a], checked) == Feed(p, a, checked);
  }

  // ---- the names under which a type and its namesake meet ----

  /** No sample of either type yet, or for instance 0 one sample of `m` that is of instance 0. */
  predicate Before(events: seq<Event>, m: string, k: nat) {
    && FirstInstance(events, m) == (if k == 0 then Some(0) else None) && !HasInstances(events, m)
    && FirstInstance(events, Suffixed(m, k)) == None && !HasInstances(events, Suffixed(m, k))
  }

  /** The multi id that makes the parser use the instance's name. */
  function Trigger(k: nat): nat { if k == 0 then 1 else k }

  lemma TheyMeet(events: seq<Event>, m: string, k: nat, x: Event, y: Event)
    requires Before(events, m, k) && x.Sampled? && x.typeName == m && x.multiId == Trigger(k)
    requires y.Sampled? && y.typeName == Suffixed(m, k) && y.multiId == 0
    ensures KnownAs(events + [x], m) == Suffixed(m, k) && KnownAs(events + [x] + [y], y.typeName) == Suffixed(m, k)
    ensures KnownAs(events + [y], y.typeName) == Suffixed(m, k) && KnownAs(events + [y] + [x], m) == Suffixed(m, k)
  {
    assert |Suffixed(m, k)| > |m|;
    LastOf(events, x);
    LastOf(events, y);
    LastOf(events + [x], y);
    LastOf(events + [y], x);
    var n := Suffixed(m, k);
    assert FirstInstance(events + [x], n) == None && !HasInstances(events + [x], n);
    assert FirstInstance(events + [y], m) == FirstInstance(events, m) && !HasInstances(events + [y], m);
    assert FirstInstance(events + [x] + [y], n) == Some(0) && !HasInstances(events + [x] + [y], n);
    assert HasInstances(events + [y] + [x], m);
  }

  /** Whichever of the two has fewer columns opens the series; then the other fails. */
  lemma ClashFails(p: Parser, ids: map<string, nat>, rank: map<string, nat>, events: seq<Event>, m: string, k: nat,
                   x: Event, y: Event, checked: bool)
    requires Known(p, ids, events) && GoodIds(ids) && Ranked(p.formats, rank) && Suffixed(m, k) !in p.timeseries
    requires Before(events, m, k) && IsZero(p.formats, ids, x) && IsZero(p.formats, ids, y)
    requires x.typeName == m && x.multiId == Trigger(k) && y.typeName == Suffixed(m, k) && y.multiId == 0
    requires Columns(p.formats, m) != Columns(p.formats, Suffixed(m, k))
    ensures Columns(p.formats, m) < Columns(p.formats, Suffixed(m, k)) ==>
      FeedAll(p, Packets(ids, [x, y]), checked).Err?
    ensures Columns(p.formats, m) > Columns(p.formats, Suffixed(m, k)) ==>
      FeedAll(p, Packets(ids, [y, x]), checked).Err?
  {
    TheyMeet(events, m, k, x, y);
    if Columns(p.formats, m) < Columns(p.formats, Suffixed(m, k)) {
      PairFails(p, ids, rank, events, x, y, Suffixed(m, k), checked);
    } else {
      PairFails(p, ids, rank, events, y, x, Suffixed(m, k), checked);
    }
  }
}
