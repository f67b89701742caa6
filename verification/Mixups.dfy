/** Exactly when everything callers do in order is also delivered under the right columns. */
module Mixups {
  import opened Bytes
  import opened Outcomes
  import FormatText
  import opened Layout
  import LayoutTheorems
  import Samples
  import opened Parser
  import RoundTrips
  import opened TypeCollisions
  import opened SharedSeries
  import opened Events
  import opened Streams
  import opened EndToEnd
  import opened Callers
  import opened ApiStream
  import Serial
  import opened Clashes
  import opened Exactness
  import Races
  import ZeroSamples

  /** The stream of these steps hands on exactly the stored samples. */
  predicate HandsOn(start: nat, steps: seq<Step>, samples: seq<seq<Samples.Item>>, checked: bool)
    requires AllSerialize(FormatsIn(Run(steps).events), Run(steps).events, samples)
  {
    var w := Run(steps);
    var r := FeedAll(NewParser(), Output(start, w), checked);
    r.Ok? && r.value.delivered == Repeated(Deliveries(FormatsIn(w.events), w.events, samples), checked)
  }

  ghost predicate AlwaysDelivered(start: nat, fm: Formats, checked: bool) {
    forall steps: seq<Step>, samples: seq<seq<Samples.Item>> |
      Disciplined(steps) && FitsIds(Run(steps)) && FormatsIn(Run(steps).events) == fm &&
      AllSerialize(FormatsIn(Run(steps).events), Run(steps).events, samples) ::
      HandsOn(start, steps, samples, checked)
  }

  /** The same for one caller at a time. */
  ghost predicate SerialAlwaysDelivered(start: nat, fm: Formats, checked: bool) {
    forall calls: seq<Call>, samples: seq<seq<Samples.Item>> |
      Disciplined(Serial.SerialSteps(calls)) && FitsIds(Run(Serial.SerialSteps(calls))) &&
      FormatsIn(Run(Serial.SerialSteps(calls)).events) == fm &&
      AllSerialize(FormatsIn(Run(Serial.SerialSteps(calls)).events), Run(Serial.SerialSteps(calls)).events, samples) ::
      HandsOn(start, Serial.SerialSteps(calls), samples, checked)
  }

  // ---- the columns of the last call ----

  function NamesIn(structured: seq<(string, Value)>): seq<string> {
    seq(|structured|, i requires 0 <= i < |structured| => structured[i].0)
  }

  /** The last call of the handler has these columns. */
  predicate LastHas(calls: seq<MessageData>, names: Result<seq<string>>) {
    calls != [] && names == Ok(NamesIn(calls[|calls| - 1].structured))
  }

  /** A sample stored in a series is handed on with the columns of the series. */
  lemma FilledLast(p: Parser, ts: string, format: FormatText.Format, message: seq<byte>)
    requires ts in p.timeseries && FillSeries(p, ts, format, message).Ok?
    ensures LastHas(FillSeries(p, ts, format, message).value.delivered, Ok(NamesOf(p.timeseries[ts].data)))
  {
    FilledNames(p, ts, format, message);
    var series := FillSeries(p, ts, format, message).value.timeseries[ts];
    assert NamesIn(LatestData(series, ts).structured) == NamesOf(series.data);
  }

  lemma TwiceLast(p: Parser, q: Parser, checked: bool, names: Result<seq<string>>)
    requires |p.delivered| <= |q.delivered| && LastHas(q.delivered, names)
    ensures LastHas(Twice(p, q, checked).delivered, names)
  {
  }

  lemma FedHas(p: Parser, ids: map<string, nat>, rank: map<string, nat>, events: seq<Event>, e: Event, ts: string,
               checked: bool)
    requires Known(p, ids, events) && GoodIds(ids) && LayoutTheorems.Ranked(p.formats, rank) &&
      IsZero(p.formats, ids, e)
    requires KnownAs(events + [e], e.typeName) == ts && ts in p.timeseries
    ensures var r := Feed(p, Packet(ids, e), checked);
      r.Ok? ==> LastHas(r.value.delivered, Ok(NamesOf(p.timeseries[ts].data)))
  {
    ZeroLegal(p.formats, rank, e.typeName, e.multiId);
    SampleParses(p, ids, events, e);
    var q := RoundTrips.Added(p, e.multiId, ids[e.typeName], e.typeName);
    if Feed(p, Packet(ids, e), checked).Ok? {
      FilledLast(q, ts, p.formats[e.typeName], RoundTrips.Sample(ids[e.typeName], e.timestamp, e.data));
      SampleFed(p, ids, e, checked);
      TwiceLast(p, Parse(p, Packet(ids, e)).value, checked, Ok(NamesOf(p.timeseries[ts].data)));
    }
  }

  /** Of two samples under one name the second is handed on with the columns of the first. */
  lemma PairMixes(p: Parser, ids: map<string, nat>, rank: map<string, nat>, events: seq<Event>, a: Event, b: Event,
                  ts: string, checked: bool)
    requires Known(p, ids, events) && GoodIds(ids) && LayoutTheorems.Ranked(p.formats, rank) && ts !in p.timeseries
    requires IsZero(p.formats, ids, a) && IsZero(p.formats, ids, b)
    requires KnownAs(events + [a], a.typeName) == ts && KnownAs(events + [a] + [b], b.typeName) == ts
    ensures var r := FeedAll(p, Packets(ids, [a, b]), checked);
      r.Ok? ==> LastHas(r.value.delivered, Shape(p.formats, a.typeName))
  {
    FirstOpens(p, ids, rank, events, a.typeName, a.multiId, ts, checked);
    var r := Feed(p, Packet(ids, a), checked).value;
    LastOf(events, a);
    FedHas(r, ids, rank, events + [a], b, ts, checked);
    EventsFed(p, ids, a, b, checked);
  }

  // ---- what should be handed on ----

  lemma RepeatedLast(calls: seq<MessageData>, checked: bool, names: Result<seq<string>>)
    requires LastHas(calls, names)
    ensures LastHas(Repeated(calls, checked), names)
  {
  }

  lemma DeliveriesLast(fm: Formats, rank: map<string, nat>, events: seq<Event>, samples: seq<seq<Samples.Item>>,
                       checked: bool)
    requires LayoutTheorems.Ranked(fm, rank) && AllSerialize(fm, events, samples) && events != [] &&
      events[|events| - 1].Sampled?
    ensures events[|events| - 1].typeName in fm
    ensures LastHas(Repeated(Deliveries(fm, events, samples), checked), Shape(fm, events[|events| - 1].typeName))
  {
    var k := |events| - 1;
    var n := events[k].typeName;
    NamedWhole(fm, rank, n, events[k].data, samples[k]);
    SerializeBefore(fm, events, samples);
    var calls := Deliveries(fm, events, samples);
    assert NamesIn(Named(fm, n, samples[k])) == Shape(fm, n).value;
    assert calls[|calls| - 1].structured == Named(fm, n, samples[k]);
    RepeatedLast(calls, checked, Shape(fm, n));
  }

  /** The values of stored zeros. */
  function ZeroValues(fm: Formats, rank: map<string, nat>, events: seq<Event>): (r: seq<seq<Samples.Item>>)
    requires LayoutTheorems.Ranked(fm, rank)
  {
    seq(|events|, i requires 0 <= i < |events| =>
      if events[i].Sampled? && events[i].typeName in fm then
        ZeroSamples.ZeroItems(fm, rank, fm[events[i].typeName].fields, rank[events[i].typeName])
      else [])
  }

  /** Every sample is of zeros. */
  predicate OnlyZeros(fm: Formats, events: seq<Event>) {
    forall i :: 0 <= i < |events| && events[i].Sampled? ==> IsZeros(fm, events[i])
  }

  predicate IsZeros(fm: Formats, e: Event)
    requires e.Sampled?
  {
    e.typeName in fm && Flatten(fm, fm.Keys, fm[e.typeName].fields).Ok? && e.data == ZeroData(fm, e.typeName)
  }

  lemma ZerosSerialize(fm: Formats, rank: map<string, nat>, events: seq<Event>)
    requires LayoutTheorems.Ranked(fm, rank) && OnlyZeros(fm, events)
    ensures AllSerialize(fm, events, ZeroValues(fm, rank, events))
  {
    forall i | 0 <= i < |events| && events[i].Sampled?
      ensures Serializes(fm, events[i].typeName, events[i].data, ZeroValues(fm, rank, events)[i])
    {
      assert IsZeros(fm, events[i]);
      ZeroSamples.ZeroSerializes(fm, rank, events[i].typeName);
    }
  }

  // ---- runs that mix columns up ----

  /** Whoever's sample comes last is not handed on as it should be. */
  lemma NotHandedOn(start: nat, steps: seq<Step>, rank: map<string, nat>, fm: Formats, checked: bool,
                    names: Result<seq<string>>)
    requires var w := Run(steps);
      && FormatsIn(w.events) == fm && OnlyZeros(fm, w.events) && w.events != [] && w.events[|w.events| - 1].Sampled?
    requires LayoutTheorems.Ranked(fm, rank) && names != Shape(fm, Run(steps).events[|Run(steps).events| - 1].typeName)
    requires var r := FeedAll(NewParser(), Output(start, Run(steps)), checked);
      r.Ok? ==> LastHas(r.value.delivered, names)
    ensures AllSerialize(fm, Run(steps).events, ZeroValues(fm, rank, Run(steps).events))
    ensures !HandsOn(start, steps, ZeroValues(fm, rank, Run(steps).events), checked)
  {
    var events := Run(steps).events;
    ZerosSerialize(fm, rank, events);
    DeliveriesLast(fm, rank, events, ZeroValues(fm, rank, events), checked);
  }

  lemma ZerosBehind(fm: Formats, defs: seq<Event>, tail: seq<Event>)
    requires DefinitionsLegal(defs) && OnlyZeros(fm, tail)
    ensures OnlyZeros(fm, defs + tail)
  {
    forall i | 0 <= i < |defs + tail| && (defs + tail)[i].Sampled? ensures IsZeros(fm, (defs + tail)[i]) {
      if i >= |defs| { assert (defs + tail)[i] == tail[i - |defs|]; }
    }
  }

  /** A run whose samples of zeros end in one that is handed on under other columns. */
  lemma TailMixes(start: nat, steps: seq<Step>, rank: map<string, nat>, fm: Formats, defs: seq<Event>, tail: seq<Event>,
                  names: Result<seq<string>>, checked: bool)
    requires start < Pow256(8) && DefinitionsLegal(defs) && LayoutTheorems.Ranked(fm, rank)
    requires Disciplined(steps) && FitsIds(Run(steps)) && Run(steps).events == defs + tail
    requires FormatsIn(defs + tail) == fm
    requires tail != [] && OnlyZeros(fm, tail) && tail[|tail| - 1].Sampled?
    requires tail[|tail| - 1].typeName in fm && names != Shape(fm, tail[|tail| - 1].typeName)
    requires var p := FeedAll(NewParser(), Stream(start, MsgIds(Run(steps)), defs), checked);
      p.Ok? ==>
        var r := FeedAll(p.value, Packets(MsgIds(Run(steps)), tail), checked);
        r.Ok? ==> LastHas(r.value.delivered, names)
    ensures AllSerialize(fm, Run(steps).events, ZeroValues(fm, rank, Run(steps).events))
    ensures !HandsOn(start, steps, ZeroValues(fm, rank, Run(steps).events), checked)
  {
    TailOutput(start, steps, defs, tail, checked);
    ZerosBehind(fm, defs, tail);
    assert (defs + tail)[|defs + tail| - 1] == tail[|tail| - 1];
    NotHandedOn(start, steps, rank, fm, checked, names);
  }

  /** What an orderly run of zeros hands on is not what was stored. */
  predicate Misdelivers(start: nat, steps: seq<Step>, rank: map<string, nat>, fm: Formats, checked: bool)
    requires LayoutTheorems.Ranked(fm, rank)
  {
    var events := Run(steps).events;
    && Disciplined(steps) && FitsIds(Run(steps)) && FormatsIn(events) == fm
    && AllSerialize(fm, events, ZeroValues(fm, rank, events))
    && !HandsOn(start, steps, ZeroValues(fm, rank, events), checked)
  }

  lemma RacePairMixed(start: nat, ids: map<string, nat>, rank: map<string, nat>, defs: seq<Event>, m: string, k: nat,
                      checked: bool)
    requires start < Pow256(8) && DefinitionsLegal(defs) && 0 < k < INSTANCES && GoodIds(ids)
    requires LayoutTheorems.Ranked(FormatsIn(defs), rank) && Storable(FormatsIn(defs), m) &&
      Storable(FormatsIn(defs), Suffixed(m, k))
    requires m in ids && Suffixed(m, k) in ids
    ensures var fm := FormatsIn(defs);
      Flatten(fm, fm.Keys, fm[m].fields).Ok? && Flatten(fm, fm.Keys, fm[Suffixed(m, k)].fields).Ok?
    ensures var p := FeedAll(NewParser(), Stream(start, ids, defs), checked);
      p.Ok? &&
      var r := FeedAll(p.value, Packets(ids, Races.Pair(FormatsIn(defs), m, k, false)), checked);
      r.Ok? ==> LastHas(r.value.delivered, Shape(FormatsIn(defs), Suffixed(m, k)))
  {
    var p := Races.PairReady(start, ids, rank, defs, m, k, checked);
    var x, y := Zero(p.formats, m, k), Zero(p.formats, Suffixed(m, k), 0);
    TheyMeet(defs, m, k, x, y);
    PairMixes(p, ids, rank, defs, y, x, Suffixed(m, k), checked);
  }

  /** A run in which the race hands on zeros under the columns of another type. */
  lemma RaceMixes(start: nat, rank: map<string, nat>, defs: seq<Event>, m: string, k: nat, checked: bool)
      returns (steps: seq<Step>)
    requires start < Pow256(8) && DefinitionsLegal(defs) && 0 < k < INSTANCES
    requires LayoutTheorems.Ranked(FormatsIn(defs), rank) && Storable(FormatsIn(defs), m) &&
      Storable(FormatsIn(defs), Suffixed(m, k))
    requires Shape(FormatsIn(defs), m) != Shape(FormatsIn(defs), Suffixed(m, k))
    ensures Misdelivers(start, steps, rank, FormatsIn(defs), checked)
  {
    steps := Races.PairRun(defs, rank, m, k, false);
    RaceRunMixes(start, rank, defs, m, k, steps, checked);
  }

  lemma LastsZero(fm: Formats, first: seq<Event>, a: Event, b: Event, tail: seq<Event>)
    requires tail == first + [a, b] && OnlyZeros(fm, first)
    requires a.Sampled? && IsZeros(fm, a) && b.Sampled? && IsZeros(fm, b)
    ensures OnlyZeros(fm, tail) && tail != [] && tail[|tail| - 1] == b
  {
  }

  lemma RaceRunMixes(start: nat, rank: map<string, nat>, defs: seq<Event>, m: string, k: nat, steps: seq<Step>,
                     checked: bool)
    requires start < Pow256(8) && DefinitionsLegal(defs) && 0 < k < INSTANCES
    requires LayoutTheorems.Ranked(FormatsIn(defs), rank) && Storable(FormatsIn(defs), m) &&
      Storable(FormatsIn(defs), Suffixed(m, k))
    requires Shape(FormatsIn(defs), m) != Shape(FormatsIn(defs), Suffixed(m, k))
    requires var fm := FormatsIn(defs);
      && Flatten(fm, fm.Keys, fm[m].fields).Ok? && Flatten(fm, fm.Keys, fm[Suffixed(m, k)].fields).Ok?
      && RunOf(steps, fm, defs + Races.Pair(fm, m, k, false), m, Suffixed(m, k))
    ensures Misdelivers(start, steps, rank, FormatsIn(defs), checked)
  {
    var fm := FormatsIn(defs);
    LastsZero(fm, [], Zero(fm, Suffixed(m, k), 0), Zero(fm, m, k), Races.Pair(fm, m, k, false));
    RacePairMixed(start, MsgIds(Run(steps)), rank, defs, m, k, checked);
    TailMixes(start, steps, rank, fm, defs, Races.Pair(fm, m, k, false), Shape(fm, Suffixed(m, k)), checked);
  }

  lemma MeetingPairMixed(start: nat, ids: map<string, nat>, rank: map<string, nat>, defs: seq<Event>, m: string,
                         checked: bool)
    requires start < Pow256(8) && DefinitionsLegal(defs) && GoodIds(ids)
    requires LayoutTheorems.Ranked(FormatsIn(defs), rank) && Storable(FormatsIn(defs), m) &&
      Storable(FormatsIn(defs), Suffixed(m, 0))
    requires m in ids && Suffixed(m, 0) in ids
    ensures var fm := FormatsIn(defs);
      Flatten(fm, fm.Keys, fm[m].fields).Ok? && Flatten(fm, fm.Keys, fm[Suffixed(m, 0)].fields).Ok?
    ensures var p := FeedAll(NewParser(), Stream(start, ids, defs), checked);
      p.Ok? &&
      var r := FeedAll(p.value, Packets(ids, Met(FormatsIn(defs), m, false)), checked);
      r.Ok? ==> LastHas(r.value.delivered, Shape(FormatsIn(defs), Suffixed(m, 0)))
  {
    DefinitionsFed(start, ids, defs, checked);
    MeetingMixes(FeedAll(NewParser(), Stream(start, ids, defs), checked).value, ids, rank, defs, m, checked);
  }

  /** The same with one caller, when the namesake is that of instance 0. */
  lemma CallsMix(start: nat, rank: map<string, nat>, defs: seq<Event>, m: string, checked: bool)
      returns (calls: seq<Call>)
    requires start < Pow256(8) && DefinitionsLegal(defs)
    requires LayoutTheorems.Ranked(FormatsIn(defs), rank) && Storable(FormatsIn(defs), m) &&
      Storable(FormatsIn(defs), Suffixed(m, 0))
    requires Shape(FormatsIn(defs), m) != Shape(FormatsIn(defs), Suffixed(m, 0))
    ensures Misdelivers(start, Serial.SerialSteps(calls), rank, FormatsIn(defs), checked)
  {
    calls := MeetingRun(defs, rank, m, false);
    CallsRunMix(start, rank, defs, m, Serial.SerialSteps(calls), checked);
  }

  lemma MetZeros(fm: Formats, m: string)
    requires m in fm && Suffixed(m, 0) in fm
    requires Flatten(fm, fm.Keys, fm[m].fields).Ok? && Flatten(fm, fm.Keys, fm[Suffixed(m, 0)].fields).Ok?
    ensures var tail := Met(fm, m, false);
      OnlyZeros(fm, tail) && tail != [] && tail[|tail| - 1].Sampled? && tail[|tail| - 1].typeName == m
  {
    LastsZero(fm, [Zero(fm, m, 0)], Zero(fm, Suffixed(m, 0), 0), Zero(fm, m, 1), Met(fm, m, false));
  }

  lemma CallsRunMix(start: nat, rank: map<string, nat>, defs: seq<Event>, m: string, steps: seq<Step>, checked: bool)
    requires start < Pow256(8) && DefinitionsLegal(defs)
    requires LayoutTheorems.Ranked(FormatsIn(defs), rank) && Storable(FormatsIn(defs), m) &&
      Storable(FormatsIn(defs), Suffixed(m, 0))
    requires Shape(FormatsIn(defs), m) != Shape(FormatsIn(defs), Suffixed(m, 0))
    requires var fm := FormatsIn(defs);
      && Flatten(fm, fm.Keys, fm[m].fields).Ok? && Flatten(fm, fm.Keys, fm[Suffixed(m, 0)].fields).Ok?
      && RunOf(steps, fm, defs + Met(fm, m, false), m, Suffixed(m, 0))
    ensures Misdelivers(start, steps, rank, FormatsIn(defs), checked)
  {
    var fm := FormatsIn(defs);
    MetZeros(fm, m);
    MeetingPairMixed(start, MsgIds(Run(steps)), rank, defs, m, checked);
    TailMixes(start, steps, rank, fm, defs, Met(fm, m, false), Shape(fm, Suffixed(m, 0)), checked);
  }

  lemma MeetingMixes(p: Parser, ids: map<string, nat>, rank: map<string, nat>, defs: seq<Event>, m: string,
                     checked: bool)
    requires DefinitionsLegal(defs) && Known(p, ids, defs) && p.timeseries == map[] && GoodIds(ids)
    requires LayoutTheorems.Ranked(p.formats, rank) && Storable(p.formats, m) && Storable(p.formats, Suffixed(m, 0))
    requires m in ids && Suffixed(m, 0) in ids
    ensures Flatten(p.formats, p.formats.Keys, p.formats[m].fields).Ok?
    ensures Flatten(p.formats, p.formats.Keys, p.formats[Suffixed(m, 0)].fields).Ok?
    ensures var r := FeedAll(p, Packets(ids, [Zero(p.formats, m, 0)] + Meeting(p.formats, m, false)), checked);
      r.Ok? ==> LastHas(r.value.delivered, Shape(p.formats, Suffixed(m, 0)))
  {
    var fm, n := p.formats, Suffixed(m, 0);
    ZeroLegal(fm, rank, n, 0);
    ZeroLegal(fm, rank, m, 1);
    MeetingReady(p, ids, rank, defs, m, checked);
    var e, x, y := Zero(fm, m, 0), Zero(fm, m, 1), Zero(fm, n, 0);
    var r := Feed(p, Packet(ids, e), checked).value;
    TheyMeet(defs + [e], m, 0, x, y);
    PairMixes(r, ids, rank, defs + [e], y, x, n, checked);
    OneFed(p, ids, e, [y, x], checked);
  }

  // ---- the theorems ----

  lemma MixupOf(fm: Formats, bound: nat) returns (m: string, k: nat)
    requires !NoMixup(fm, bound)
    ensures Storable(fm, m) && k < bound && Storable(fm, Suffixed(m, k)) && Shape(fm, m) != Shape(fm, Suffixed(m, k))
  {
    m, k :| Storable(fm, m) && 0 <= k < bound && Storable(fm, Suffixed(m, k)) &&
      Shape(fm, m) != Shape(fm, Suffixed(m, k));
  }

  lemma NoMixupDelivers(start: nat, rank: map<string, nat>, fm: Formats, checked: bool)
    requires start < Pow256(8) && LayoutTheorems.Ranked(fm, rank) && NoMixup(fm, INSTANCES)
    ensures AlwaysDelivered(start, fm, checked)
  {
    forall steps: seq<Step>, samples: seq<seq<Samples.Item>> |
      Disciplined(steps) && FitsIds(Run(steps)) && FormatsIn(Run(steps).events) == fm &&
      AllSerialize(FormatsIn(Run(steps).events), Run(steps).events, samples)
      ensures HandsOn(start, steps, samples, checked)
    {
      DisciplineKeepsOrder(steps);
      OutputDelivered(start, steps, rank, samples, checked);
    }
  }

  lemma NoMixupSerial(start: nat, rank: map<string, nat>, fm: Formats, checked: bool)
    requires start < Pow256(8) && LayoutTheorems.Ranked(fm, rank) && NoMixup(fm, 1)
    ensures SerialAlwaysDelivered(start, fm, checked)
  {
    forall calls: seq<Call>, samples: seq<seq<Samples.Item>> |
      Disciplined(Serial.SerialSteps(calls)) && FitsIds(Run(Serial.SerialSteps(calls))) &&
      FormatsIn(Run(Serial.SerialSteps(calls)).events) == fm &&
      AllSerialize(FormatsIn(Run(Serial.SerialSteps(calls)).events), Run(Serial.SerialSteps(calls)).events, samples)
      ensures HandsOn(start, Serial.SerialSteps(calls), samples, checked)
    {
      Serial.SerialDelivered(start, calls, rank, samples, checked);
    }
  }

  lemma StepsMix(start: nat, fm: Formats, rank: map<string, nat>, steps: seq<Step>, checked: bool)
    requires LayoutTheorems.Ranked(fm, rank) && Misdelivers(start, steps, rank, fm, checked)
    ensures !AlwaysDelivered(start, fm, checked)
  {
    var samples := ZeroValues(fm, rank, Run(steps).events);
    assert AllSerialize(FormatsIn(Run(steps).events), Run(steps).events, samples);
  }

  lemma CallsRefuteDelivery(start: nat, fm: Formats, rank: map<string, nat>, calls: seq<Call>, checked: bool)
    requires LayoutTheorems.Ranked(fm, rank) && Misdelivers(start, Serial.SerialSteps(calls), rank, fm, checked)
    ensures !SerialAlwaysDelivered(start, fm, checked)
  {
    var samples := ZeroValues(fm, rank, Run(Serial.SerialSteps(calls)).events);
    var events := Run(Serial.SerialSteps(calls)).events;
    assert AllSerialize(FormatsIn(events), events, samples);
  }

  /** Everything that concurrent callers store in order is handed on exactly, time, leaves and columns, if and only if
      no type is named like an instance, 0 to 255, of a type with other columns. */
  lemma AlwaysDeliveredIff(start: nat, rank: map<string, nat>, defs: seq<Event>, checked: bool)
    requires start < Pow256(8) && DefinitionsLegal(defs) && LayoutTheorems.Ranked(FormatsIn(defs), rank)
    ensures AlwaysDelivered(start, FormatsIn(defs), checked) <==> NoMixup(FormatsIn(defs), 256)
  {
    var fm := FormatsIn(defs);
    if NoMixup(fm, INSTANCES) {
      NoMixupDelivers(start, rank, fm, checked);
    } else {
      var m, k := MixupOf(fm, INSTANCES);
      if k == 0 {
        var calls := CallsMix(start, rank, defs, m, checked);
        StepsMix(start, fm, rank, Serial.SerialSteps(calls), checked);
      } else {
        var steps := RaceMixes(start, rank, defs, m, k, checked);
        StepsMix(start, fm, rank, steps, checked);
      }
    }
  }

  lemma MixupRefutes(start: nat, rank: map<string, nat>, defs: seq<Event>, bound: nat, checked: bool)
    requires start < Pow256(8) && DefinitionsLegal(defs) && LayoutTheorems.Ranked(FormatsIn(defs), rank)
    requires bound == 1 && !NoMixup(FormatsIn(defs), bound)
    ensures !SerialAlwaysDelivered(start, FormatsIn(defs), checked)
  {
    var fm := FormatsIn(defs);
    var m, k := MixupOf(fm, bound);
    assert k == 0;
    var calls := CallsMix(start, rank, defs, m, checked);
    CallsRefuteDelivery(start, fm, rank, calls, checked);
  }

  /** One caller at a time: if and only if no type is named like instance 0 of a type with other columns. */
  lemma SerialDeliveredIff(start: nat, rank: map<string, nat>, defs: seq<Event>, checked: bool)
    requires start < Pow256(8) && DefinitionsLegal(defs) && LayoutTheorems.Ranked(FormatsIn(defs), rank)
    ensures SerialAlwaysDelivered(start, FormatsIn(defs), checked) <==> NoMixup(FormatsIn(defs), 1)
  {
    if NoMixup(FormatsIn(defs), 1) {
      NoMixupSerial(start, rank, FormatsIn(defs), checked);
    } else {
      MixupRefutes(start, rank, defs, 1, checked);
    }
  }
}
