/** The test program and its client: which of the samples that its threads store can reach the data handler. */
module TestArrivals {
  import FormatRoundTrip
  import Encoder
  import opened Events
  import opened Streams
  import opened Callers
  import opened Arrivals
  import opened TestTypes
  import opened TestProgram
  import A = ApiStream
  import Bytes
  import EndToEnd
  import Exactness
  import Allocation
  import FormatText
  import L = Pipeline
  import Layout
  import LayoutTheorems
  import P = Payloads
  import S = Streamer
  import Samples
  import Serial
  import SharedSeries
  import TestSizes
  import Text

  // ---- the definitions ----

  lemma {:induction false} TerminatedLength(parts: seq<string>, bound: nat)
    requires forall i :: 0 <= i < |parts| ==> |parts[i]| <= bound
    ensures |Text.Terminated(parts, ';')| <= (bound + 1) * |parts|
  {
    if parts != [] { TerminatedLength(parts[1..], bound); }
  }

  /** A declaration of at most 18 characters. */
  predicate Short(d: FormatRoundTrip.Declaration) {
    |d.other| <= 9 && |d.name| <= 5 && (d.size.Some? ==> d.size.value < 10)
  }

  predicate AllShort(ds: seq<FormatRoundTrip.Declaration>) {
    forall i :: 0 <= i < |ds| ==> Short(ds[i])
  }

  lemma SectionLength(d: FormatRoundTrip.Declaration)
    requires Short(d)
    ensures |FormatRoundTrip.Section(d)| <= 18
  {
    if d.size.Some? { assert |Text.Dec(d.size.value)| == 1; }
    assert |FormatText.Word(d.type_)| <= 8;
  }

  lemma FormatSmall(name: string, ds: seq<FormatRoundTrip.Declaration>)
    requires |name| == 9 && |ds| <= 6 && AllShort(ds)
    ensures Arrivals.Small(Formatted(name, ds))
  {
    forall i | 0 <= i < |ds| ensures |FormatRoundTrip.Sections(ds)[i]| <= 18 { SectionLength(ds[i]); }
    TerminatedLength(FormatRoundTrip.Sections(ds), 18);
  }

  lemma FieldsShort()
    ensures AllShort(FIELDS0) && AllShort(FIELDS1) && AllShort(FIELDS2) && AllShort(FIELDS3) && AllShort(FIELDS4)
  {
  }

  lemma FiveSmall(a: Event, b: Event, c: Event, d: Event, e: Event)
    ensures AllSmall([a, b, c, d, e]) <==>
      Arrivals.Small(a) && Arrivals.Small(b) && Arrivals.Small(c) && Arrivals.Small(d) && Arrivals.Small(e)
  {
    var five := [a, b, c, d, e];
    assert five[0] == a && five[1] == b && five[2] == c && five[3] == d && five[4] == e;
  }

  lemma RegistrationsSmall()
    ensures AllSmall(REGISTRATIONS)
  {
    FieldsShort();
    FormatSmall("DataType0", FIELDS0);
    FormatSmall("DataType1", FIELDS1);
    FormatSmall("DataType2", FIELDS2);
    FormatSmall("DataType3", FIELDS3);
    FormatSmall("DataType4", FIELDS4);
    FiveSmall(Formatted("DataType0", FIELDS0), Formatted("DataType1", FIELDS1), Formatted("DataType2", FIELDS2),
              Formatted("DataType3", FIELDS3), Formatted("DataType4", FIELDS4));
  }

  /** The log's name fits its info's packet. */
  predicate NameFits(logname: string) {
    4 + |Encoder.InfoKey("replay", logname)| + |logname| <= 249
  }

  lemma ShortInfo(key: string, value: string)
    requires |key| <= 20 && |value| < 10
    ensures Arrivals.Small(Informed(key, value))
  {
    assert |Text.Dec(|value|)| == 1;
  }

  lemma ParamSmall(key: string, bits: nat)
    requires |key| <= 20
    ensures Arrivals.Small(Parameterised(key, bits))
  {
  }

  lemma FourSmall(a: Event, b: Event, c: Event, d: Event)
    ensures AllSmall([a, b, c, d]) <==> Arrivals.Small(a) && Arrivals.Small(b) && Arrivals.Small(c) && Arrivals.Small(d)
  {
    var four := [a, b, c, d];
    assert four[0] == a && four[1] == b && four[2] == c && four[3] == d;
  }

  lemma PropertiesSmallIff(logname: string)
    ensures AllSmall(Properties(logname)) <==> NameFits(logname)
  {
    ShortInfo("company", "EDEL LLC");
    ShortInfo("sys_name", "RBPi4");
    ParamSmall("int32_t param1", 123);
    FourSmall(Informed("company", "EDEL LLC"), Informed("sys_name", "RBPi4"), Informed("replay", logname),
              Parameterised("int32_t param1", 123));
  }

  lemma AllSmallAppend(a: seq<Event>, b: seq<Event>)
    ensures AllSmall(a + b) <==> AllSmall(a) && AllSmall(b)
  {
    forall i | 0 <= i < |a| ensures (a + b)[i] == a[i] {}
    forall i | 0 <= i < |b| ensures (a + b)[|a| + i] == b[i] {}
  }

  /** Of the program's definitions only the info with the log's name can be too long. */
  lemma DefinitionsSmallIff(logname: string)
    ensures AllSmall(Definitions(logname)) <==> NameFits(logname)
  {
    PropertiesSmallIff(logname);
    RegistrationsSmall();
    AllSmallAppend(Properties(logname), REGISTRATIONS);
    ParamSmall("float param2", 0xC040A3D7);
    AllSmallAppend(Properties(logname) + REGISTRATIONS, LAST_PARAM);
  }

  // ---- what the threads store, and that nothing else comes before it ----

  ghost predicate OfThread(fm: Layout.Formats, c: Caller) {
    match c.call
    case Store(name, _, _, data) => IsSample(fm, name, data)
    case Say(e) => c.stage.Returned? || e.Logged?
  }

  ghost predicate Values(fm: Layout.Formats, events: seq<Event>) {
    forall j :: 0 <= j < |events| && events[j].Sampled? ==> IsSample(fm, events[j].typeName, events[j].data)
  }

  ghost predicate Storing(w: World, fm: Layout.Formats, defs: seq<Event>) {
    && (forall i :: 0 <= i < |w.callers| ==> OfThread(fm, w.callers[i]))
    && Values(fm, w.events) && L.Opening(w.events) == defs
  }

  lemma {:induction false} NoneSampled(fm: Layout.Formats, defs: seq<Event>)
    requires Exactness.DefinitionsLegal(defs)
    ensures Values(fm, defs) && L.Opening(defs) == defs
  {
    Exactness.DefinitionsFirst(map[], defs);
    forall j | 0 <= j < |defs| ensures !defs[j].Sampled? { L.NotStarted(defs, j); }
  }

  lemma PrologueStores(logname: string)
    requires Lognamed(logname)
    ensures Storing(Run(Prologue(logname)), FormatsIn(Definitions(logname)), Definitions(logname))
  {
    ProgramLegal(logname);
    Exactness.SaysRun(Definitions(logname));
    NoneSampled(FormatsIn(Definitions(logname)), Definitions(logname));
  }

  lemma BeginStores(w: World, fm: Layout.Formats, defs: seq<Event>, call: Call)
    requires Storing(w, fm, defs) && ThreadCall(w, fm, call)
    ensures Storing(Take(w, Begin(call)), fm, defs)
  {
    var v := Take(w, Begin(call));
    forall i | 0 <= i < |v.callers| ensures OfThread(fm, v.callers[i]) {
      if i < |w.callers| { assert v.callers[i] == w.callers[i]; }
    }
  }

  lemma MoveStores(w: World, v: World, fm: Layout.Formats, i: nat, stage: Stage)
    requires i < |w.callers| && v.callers == Moved(w.callers, i, stage)
    requires forall j :: 0 <= j < |w.callers| ==> OfThread(fm, w.callers[j])
    requires w.callers[i].call.Store? || stage.Returned?
    ensures forall j :: 0 <= j < |v.callers| ==> OfThread(fm, v.callers[j])
  {
    forall j | 0 <= j < |v.callers| ensures OfThread(fm, v.callers[j]) { assert OfThread(fm, w.callers[j]); }
  }

  lemma OpeningKept(events: seq<Event>, e: Event)
    requires e.Sampled? || Started(events)
    ensures L.Opening(events + [e]) == L.Opening(events)
  {
    LastOf(events, e);
  }

  lemma EnqueueStores(w: World, fm: Layout.Formats, defs: seq<Event>, i: nat, msgId: nat, multiId: nat)
    requires Inv(w) && A.Orderly(w) && Storing(w, fm, defs)
    requires i < |w.callers| && w.callers[i].stage == EnqueueNext(msgId, multiId)
    ensures Storing(Enqueue(w, i, Built(w.callers[i].call, msgId, multiId)), fm, defs)
  {
    var call := w.callers[i].call;
    var m := Built(call, msgId, multiId);
    var v := Enqueue(w, i, m);
    assert OfThread(fm, w.callers[i]);
    MoveStores(w, v, fm, i, Returned);
    if m.Some? {
      A.EnqueuedLegal(w, i, msgId, multiId);
      OpeningKept(w.events, m.value.1);
    }
  }

  lemma AdvanceStores(w: World, fm: Layout.Formats, defs: seq<Event>, i: nat)
    requires Inv(w) && A.Orderly(w) && Storing(w, fm, defs)
    ensures Storing(Take(w, Advance(i)), fm, defs)
  {
    if i < |w.callers| {
      var v := Take(w, Advance(i));
      match w.callers[i].stage {
        case MsgIdNext => if w.callers[i].call.Store? { MoveStores(w, v, fm, i, v.callers[i].stage); }
        case MultiIdNext(id) => if w.callers[i].call.Store? { MoveStores(w, v, fm, i, v.callers[i].stage); }
        case EnqueueNext(id, multi) => EnqueueStores(w, fm, defs, i, id, multi);
        case Returned =>
      }
    }
  }

  /** However the threads interleave: what is enqueued before the first sample are the program's definitions, and every
      sample is a serialized value of its type. */
  lemma {:induction false} ThreadsStore(logname: string, steps: seq<Step>)
    requires Lognamed(logname) && ThreadSteps(logname, steps)
    ensures Storing(Run(Prologue(logname) + steps), FormatsIn(Definitions(logname)), Definitions(logname))
  {
    if steps == [] {
      assert Prologue(logname) + steps == Prologue(logname);
      PrologueStores(logname);
    } else {
      var before, s := steps[..|steps| - 1], steps[|steps| - 1];
      ThreadsStore(logname, before);
      ThreadsDisciplined(logname, before);
      StepStores(Prologue(logname) + before, FormatsIn(Definitions(logname)), Definitions(logname), s);
      assert Prologue(logname) + steps == Prologue(logname) + before + [s];
    }
  }

  lemma StepStores(before: seq<Step>, fm: Layout.Formats, defs: seq<Event>, s: Step)
    requires A.Disciplined(before) && Storing(Run(before), fm, defs)
    requires s.Begin? ==> ThreadCall(Run(before), fm, s.call)
    ensures Storing(Run(before + [s]), fm, defs)
  {
    Serial.RunNext(before, s);
    match s {
      case Begin(call) => BeginStores(Run(before), fm, defs, call);
      case Advance(i) =>
        A.DisciplineKeepsOrder(before);
        RunKeepsInv(before);
        AdvanceStores(Run(before), fm, defs, i);
    }
  }

  // ---- what can arrive ----

  lemma ValueFits(fm: Layout.Formats, name: string, data: seq<Bytes.byte>)
    requires HasTypes(fm) && fm.Keys == NAMES && IsSample(fm, name, data)
    ensures |name| == 9 && |data| == TestSizes.ValueSize(name)
    ensures 11 + |name| + |data| <= 249 <==> name != "DataType4"
  {
    var items :| EndToEnd.Serializes(fm, name, data, items);
    assert name in fm.Keys;
    TypeName(name);
    TestSizes.SerializedValue(fm, name, data, items);
  }

  /** A sample of the test program can leave as data if and only if it is not of DataType4, whose packets have 496
      bytes, and the log's name fits the packet of its info. */
  lemma TestSampleArrivesIff(rt: bool, start: nat, logname: string, steps: seq<Step>, i: nat)
    requires Lognamed(logname) && ThreadSteps(logname, steps)
    requires var events := Run(Prologue(logname) + steps).events; i < |events| && events[i].Sampled?
    ensures var w := Run(Prologue(logname) + steps); var e := w.events[i];
      P.CanBeSent(rt, A.Output(start, w), Packet(MsgIds(w), e)) <==> e.typeName != "DataType4" && NameFits(logname)
  {
    var all := Prologue(logname) + steps;
    ProgramRuns(logname, steps);
    DefinitionsSmallIff(logname);
    FittingTypes(logname, all, i);
    A.DisciplineKeepsOrder(all);
    SampleArrivesIff(rt, start, all, i);
  }

  lemma ProgramFormats(logname: string)
    ensures var fm := FormatsIn(Definitions(logname));
      && HasTypes(fm) && fm.Keys == NAMES && LayoutTheorems.Ranked(fm, RANK)
      && SharedSeries.NoMixup(fm, SharedSeries.INSTANCES) && SharedSeries.NoClash(fm, SharedSeries.INSTANCES)
  {
    var fm := FormatsIn(Definitions(logname));
    DefinitionsRegister(logname);
    TypesRanked(fm);
    NamesApart(fm, SharedSeries.INSTANCES);
    SharedSeries.NoMixupNoClash(fm, SharedSeries.INSTANCES);
  }

  /** What is so of the program's run. */
  ghost predicate RunsProgram(logname: string, all: seq<Step>) {
    var w, fm := Run(all), FormatsIn(Definitions(logname));
    && A.Disciplined(all) && FormatsIn(w.events) == fm && L.Opening(w.events) == Definitions(logname)
    && Values(fm, w.events) && |Allocation.FirstSeen(w.names)| <= |NAMES|
  }

  lemma ProgramRuns(logname: string, steps: seq<Step>)
    requires Lognamed(logname) && ThreadSteps(logname, steps)
    ensures RunsProgram(logname, Prologue(logname) + steps)
  {
    ThreadsDisciplined(logname, steps);
    ThreadsStore(logname, steps);
    Allocation.FewNames(Run(Prologue(logname) + steps).names, NAMES);
  }

  lemma DefinitionsCount(logname: string)
    ensures |Definitions(logname)| == 10
  {
  }

  lemma ProgramFeeds(rt: bool, start: nat, logname: string, all: seq<Step>)
    requires start < Bytes.Pow256(8) && RunsProgram(logname, all)
    ensures L.Feeds(S.Start(rt), start, all, RANK)
  {
    ProgramFormats(logname);
    DefinitionsCount(logname);
  }

  /** The samples that fit are those not of DataType4. */
  lemma FittingTypes(logname: string, all: seq<Step>, k: nat)
    requires RunsProgram(logname, all) && k < |Run(all).events| && Run(all).events[k].Sampled?
    ensures Arrivals.Small(Run(all).events[k]) <==> Run(all).events[k].typeName != "DataType4"
  {
    var e := Run(all).events[k];
    DefinitionsRegister(logname);
    ValueFits(FormatsIn(Definitions(logname)), e.typeName, e.data);
  }

  lemma ProgramReady(rt: bool, start: nat, logname: string, all: seq<Step>)
    requires start < Bytes.Pow256(8) && NameFits(logname) && RunsProgram(logname, all)
    ensures L.Feeds(S.Start(rt), start, all, RANK) && DefinitionsSmall(all)
    ensures SharedSeries.NoMixup(FormatsIn(Run(all).events), SharedSeries.INSTANCES)
  {
    ProgramFormats(logname);
    ProgramFeeds(rt, start, logname, all);
    DefinitionsSmallIff(logname);
  }

  lemma ProgramRead(rt: bool, start: nat, logname: string, all: seq<Step>, samples: seq<seq<Samples.Item>>,
                    buffers: seq<seq<Bytes.byte>>) returns (actions: seq<S.Action>)
    requires start < Bytes.Pow256(8) && NameFits(logname) && RunsProgram(logname, all) && FittingPackets(all) != []
    requires Offers(start, all, samples, buffers)
    ensures AllLeave(S.Run(S.Start(rt), actions), start, all) && ReadsFitting(start, all, samples, buffers)
  {
    ProgramReady(rt, start, logname, all);
    actions := FittingSamplesRead(rt, start, all, RANK, samples, buffers);
  }

  lemma SomeFits(logname: string, all: seq<Step>)
    requires RunsProgram(logname, all)
    ensures var events := Run(all).events;
      forall k :: k in FittingSamples(events) <==>
        0 <= k < |events| && events[k].Sampled? && events[k].typeName != "DataType4"
    ensures var events := Run(all).events;
      (exists i :: 0 <= i < |events| && events[i].Sampled? && events[i].typeName != "DataType4") ==>
        FittingPackets(all) != []
  {
    var events := Run(all).events;
    forall k | 0 <= k < |events| && events[k].Sampled?
      ensures Arrivals.Small(events[k]) <==> events[k].typeName != "DataType4"
    {
      FittingTypes(logname, all, k);
    }
    if i :| 0 <= i < |events| && events[i].Sampled? && events[i].typeName != "DataType4" {
      assert i in FittingSamples(events);
    }
  }

  /** With a log name that fits there is a run, and a network, with which the client's data handler gets every value of
      the other four types: in the order stored, with its time and its leaves, and each twice. */
  lemma TestSamplesRead(rt: bool, start: nat, logname: string, steps: seq<Step>, samples: seq<seq<Samples.Item>>,
                        buffers: seq<seq<Bytes.byte>>) returns (actions: seq<S.Action>)
    requires start < Bytes.Pow256(8) && Lognamed(logname) && NameFits(logname) && ThreadSteps(logname, steps)
    requires var events := Run(Prologue(logname) + steps).events;
      exists i :: 0 <= i < |events| && events[i].Sampled? && events[i].typeName != "DataType4"
    requires Offers(start, Prologue(logname) + steps, samples, buffers)
    ensures AllLeave(S.Run(S.Start(rt), actions), start, Prologue(logname) + steps)
    ensures ReadsFitting(start, Prologue(logname) + steps, samples, buffers)
    ensures var events := Run(Prologue(logname) + steps).events;
      forall k :: k in FittingSamples(events) <==>
        0 <= k < |events| && events[k].Sampled? && events[k].typeName != "DataType4"
  {
    var all := Prologue(logname) + steps;
    ProgramRuns(logname, steps);
    SomeFits(logname, all);
    actions := ProgramRead(rt, start, logname, all, samples, buffers);
  }
}
