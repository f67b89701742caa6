/** The threads of the test program with the types and annotations they use: what they store may be stored, and under
    which names it is delivered. */
module TestThreads {
  import opened Bytes
  import opened Samples
  import opened Serializers
  import opened TestTypes
  import opened TestProgram
  import opened Callers
  import Allocation
  import Instances
  import Events
  import Streams
  import TestSizes
  import Text
  import TypeCollisions

  // ---- what is stored ----

  /** Any values of the five types, under any annotation, may be stored at any time while the threads run. */
  lemma ValuesMayBeStored(w: World, logname: string, annotation: string, timestamp: nat,
                          d0: DataType0, d1: DataType1, d2: DataType2, d3: DataType3, d4: DataType4)
    requires Is0(d0) && Is1(d1) && Is2(d2) && Is3(d3) && Is4(d4) && timestamp < 0x1_0000_0000_0000_0000
    ensures var fm := Streams.FormatsIn(Definitions(logname));
      && ThreadCall(w, fm, Store("DataType0", annotation, timestamp, EncodeTree(Tree0(d0))))
      && ThreadCall(w, fm, Store("DataType1", annotation, timestamp, EncodeTree(Tree1(d1))))
      && ThreadCall(w, fm, Store("DataType2", annotation, timestamp, EncodeTree(Tree2(d2))))
      && ThreadCall(w, fm, Store("DataType3", annotation, timestamp, EncodeTree(Tree3(d3))))
      && ThreadCall(w, fm, Store("DataType4", annotation, timestamp, EncodeTree(Tree4(d4))))
  {
    var fm := Streams.FormatsIn(Definitions(logname));
    Pow256Values();
    DefinitionsRegister(logname);
    SerializersFit(fm, d0, d1, d2, d3, d4);
    TestSizes.SerializedValue(fm, "DataType0", EncodeTree(Tree0(d0)), Items0(d0));
    TestSizes.SerializedValue(fm, "DataType1", EncodeTree(Tree1(d1)), Items1(d1));
    TestSizes.SerializedValue(fm, "DataType2", EncodeTree(Tree2(d2)), Items2(d2));
    TestSizes.SerializedValue(fm, "DataType3", EncodeTree(Tree3(d3)), Items3(d3));
    TestSizes.SerializedValue(fm, "DataType4", EncodeTree(Tree4(d4)), Items4(d4));
  }

  // ---- under which names ----

  /** The annotations of each type, over all threads. */
  function Annotations(name: string): set<string> {
    if name == "DataType0" then {"d01", "d02", "d03"}
    else if name == "DataType1" then {"d1"}
    else if name == "DataType2" then {"d2"}
    else if name == "DataType3" then {"d3"}
    else if name == "DataType4" then {"d4"}
    else {}
  }

  /** Only these are stored. */
  predicate OwnAnnotations(steps: seq<Step>) {
    forall s :: s in steps && s.Begin? && s.call.Store? ==>
      s.call.typeName in NAMES && s.call.annotation in Annotations(s.call.typeName)
  }

  predicate Annotated(w: World) {
    && (forall i :: 0 <= i < |w.callers| && w.callers[i].call.Store? ==>
          w.callers[i].call.typeName in NAMES &&
          w.callers[i].call.annotation in Annotations(w.callers[i].call.typeName))
    && (forall i :: 0 <= i < |w.taken| ==> w.taken[i].1 in Annotations(w.taken[i].0))
    && (forall n :: n in w.names ==> n in NAMES)
  }

  lemma TakeAnnotated(w: World, s: Step)
    requires Annotated(w)
    requires s.Begin? && s.call.Store? ==>
      s.call.typeName in NAMES && s.call.annotation in Annotations(s.call.typeName)
    ensures Annotated(Take(w, s))
  {
    var v := Take(w, s);
    if s.Advance? && s.caller < |w.callers| {
      forall j | 0 <= j < |v.callers| ensures v.callers[j].call == w.callers[j].call { }
    }
  }

  lemma {:induction false} RunAnnotated(steps: seq<Step>)
    requires OwnAnnotations(steps)
    ensures Annotated(Run(steps))
  {
    if steps != [] {
      var before, s := steps[..|steps| - 1], steps[|steps| - 1];
      assert forall b :: b in before ==> b in steps;
      RunAnnotated(before);
      TakeAnnotated(Run(before), s);
    }
  }

  lemma {:induction false} AskedFor(taken: seq<(string, string)>, n: string)
    requires forall i :: 0 <= i < |taken| ==> taken[i].1 in Annotations(taken[i].0)
    ensures forall a :: a in Instances.AnnotationsTaken(taken, n) ==> a in Annotations(n)
  {
    if taken != [] { AskedFor(taken[..|taken| - 1], n); }
  }

  /** A sample's multi id is below the number of its type's annotations. */
  lemma FewInstances(steps: seq<Step>, j: nat)
    requires OwnAnnotations(steps) && j < |Run(steps).events| && Run(steps).events[j].Sampled?
    ensures var e := Run(steps).events[j]; e.typeName in NAMES && e.multiId < |Annotations(e.typeName)| <= 3
  {
    var w := Run(steps);
    RunAnnotated(steps);
    Allocation.FewNames(w.names, NAMES);
    Instances.SampleInstance(steps, j);
    var e := w.events[j];
    AskedFew(w.taken, e.typeName);
    SampleType(steps, j);
    ThreeAtMost(e.typeName);
    SmallRemainder(e.multiId, Instances.IndexOf(Allocation.FirstSeen(Instances.AnnotationsTaken(w.taken, e.typeName)),
                                                w.callers[w.order[j]].call.annotation));
  }

  lemma SmallRemainder(n: nat, k: nat)
    requires n == k % 256
    ensures n <= k
  {
  }

  lemma AskedFew(taken: seq<(string, string)>, n: string)
    requires forall i :: 0 <= i < |taken| ==> taken[i].1 in Annotations(taken[i].0)
    ensures |Allocation.FirstSeen(Instances.AnnotationsTaken(taken, n))| <= |Annotations(n)|
  {
    AskedFor(taken, n);
    Allocation.FewNames(Instances.AnnotationsTaken(taken, n), Annotations(n));
  }

  lemma SampleType(steps: seq<Step>, j: nat)
    requires OwnAnnotations(steps) && j < |Run(steps).events| && Run(steps).events[j].Sampled?
    ensures Run(steps).events[j].typeName in NAMES
  {
    RunAnnotated(steps);
    Instances.RunEventsFrom(steps);
  }

  lemma ThreeAtMost(name: string)
    ensures |Annotations(name)| == if name == "DataType0" then 3 else if name in NAMES then 1 else 0
  {
  }

  lemma {:induction false} NoInstances(events: seq<Events.Event>, n: string)
    requires forall j :: 0 <= j < |events| && events[j].Sampled? && events[j].typeName == n ==> events[j].multiId == 0
    ensures !Streams.HasInstances(events, n)
  {
    if events != [] { NoInstances(events[..|events| - 1], n); }
  }

  lemma {:induction false} FirstIsOne(events: seq<Events.Event>, n: string, bound: nat)
    requires forall j :: 0 <= j < |events| && events[j].Sampled? && events[j].typeName == n ==>
      events[j].multiId < bound
    ensures var first := Streams.FirstInstance(events, n); first.Some? ==> first.value < bound
  {
    if events != [] { FirstIsOne(events[..|events| - 1], n, bound); }
  }

  /** However the calls of the threads interleave: data of four of the types is delivered under the type's own name;
      that of DataType0, of which there are three instances, under its own or under the first enqueued instance's. */
  lemma DeliveredUnder(steps: seq<Step>)
    requires OwnAnnotations(steps)
    ensures var events := Run(steps).events;
      && Streams.KnownAs(events, "DataType1") == "DataType1" && Streams.KnownAs(events, "DataType2") == "DataType2"
      && Streams.KnownAs(events, "DataType3") == "DataType3" && Streams.KnownAs(events, "DataType4") == "DataType4"
      && Streams.KnownAs(events, "DataType0") in ["DataType0", "DataType0.00", "DataType0.01", "DataType0.02"]
  {
    var events := Run(steps).events;
    forall j | 0 <= j < |events| && events[j].Sampled? ensures events[j].multiId < |Annotations(events[j].typeName)| {
      FewInstances(steps, j);
    }
    OwnName(events, "DataType1");
    OwnName(events, "DataType2");
    OwnName(events, "DataType3");
    OwnName(events, "DataType4");
    ThreeAtMost("DataType0");
    FirstIsOne(events, "DataType0", 3);
    ThreeNames(events);
  }

  lemma OwnName(events: seq<Events.Event>, n: string)
    requires n in NAMES && n != "DataType0"
    requires forall j :: 0 <= j < |events| && events[j].Sampled? ==>
      events[j].multiId < |Annotations(events[j].typeName)|
    ensures Streams.KnownAs(events, n) == n
  {
    ThreeAtMost(n);
    NoInstances(events, n);
  }

  lemma ThreeNames(events: seq<Events.Event>)
    requires var first := Streams.FirstInstance(events, "DataType0"); first.Some? ==> first.value < 3
    ensures Streams.KnownAs(events, "DataType0") in ["DataType0", "DataType0.00", "DataType0.01", "DataType0.02"]
  {
    var names := ["DataType0", "DataType0.00", "DataType0.01", "DataType0.02"];
    var n := "DataType0";
    Suffixes(0, "00");
    Suffixes(1, "01");
    Suffixes(2, "02");
    assert n + "." + "00" == names[1] && n + "." + "01" == names[2] && n + "." + "02" == names[3];
    assert names[0] in names && names[1] in names && names[2] in names && names[3] in names;
  }

  lemma Suffixes(k: nat, digits: string)
    requires Text.Dec2(k) == digits
    ensures TypeCollisions.Suffixed("DataType0", k) == "DataType0" + "." + digits
  {
  }
}
