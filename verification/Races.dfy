/** Exactly when everything many callers can do in order is accepted: the first sample enqueued of a type may be of any
    of its 256 instances. */
module Races {
  import Bytes
  import opened Outcomes
  import opened Layout
  import LayoutTheorems
  import Parser
  import Encoder
  import opened Allocation
  import TypeCollisions
  import opened SharedSeries
  import opened Events
  import opened Streams
  import opened Callers
  import opened ApiStream
  import Instances
  import opened Serial
  import opened Clashes
  import opened Exactness

  /** Whatever callers do in order, however their steps interleave, is accepted if they register these formats. */
  ghost predicate AlwaysAccepted(start: nat, fm: Formats, checked: bool) {
    forall steps: seq<Step> | Disciplined(steps) && FitsIds(Run(steps)) && FormatsIn(Run(steps).events) == fm ::
      Accepted(Parser.NewParser(), Output(start, Run(steps)), checked)
  }

  // ---- the annotations of the instances in a race ----

  /** The annotation of instance `j`. */
  function Ticks(j: nat): (s: string)
    ensures |s| == j
  {
    seq(j, _ => '+')
  }

  /** The annotations of the first `j` instances. */
  function Asked(j: nat): (r: seq<string>)
    ensures |r| == j
  {
    seq(j, i requires 0 <= i < j => Ticks(i))
  }

  /** The first `j` instances of `m`. */
  function Takes(m: string, j: nat): seq<(string, string)> {
    seq(j, i requires 0 <= i < j => (m, Ticks(i)))
  }

  function Repeats(m: string, j: nat): seq<string> {
    seq(j, _ => m)
  }

  lemma NextInRace(m: string, j: nat)
    ensures Asked(j + 1) == Asked(j) + [Ticks(j)] && Takes(m, j + 1) == Takes(m, j) + [(m, Ticks(j))]
    ensures Repeats(m, j + 1) == Repeats(m, j) + [m]
  {
  }

  lemma {:induction false} TakesAsk(m: string, n: string, j: nat)
    ensures Instances.AnnotationsTaken(Takes(m, j), n) == if n == m then Asked(j) else []
  {
    if j > 0 {
      TakesAsk(m, n, j - 1);
      NextInRace(m, j - 1);
      Instances.TakenNext(Takes(m, j - 1), m, Ticks(j - 1), n);
    }
  }

  lemma {:induction false} AskedOnce(j: nat)
    ensures FirstSeen(Asked(j)) == Asked(j)
  {
    if j > 0 {
      AskedOnce(j - 1);
      NextInRace("", j - 1);
      assert Asked(j)[..j - 1] == Asked(j - 1);
    }
  }

  /** Instance `j` gets the multi id `j`. */
  lemma RacersId(j: nat)
    requires j < Encoder.MULTI_IDS
    ensures InstanceIs(Asked(j + 1), Ticks(j), j)
  {
    AskedOnce(j + 1);
    CallsAreSequential(Asked(j + 1), Encoder.MULTI_IDS);
    assert Asked(j + 1)[j] == Ticks(j);
    Remainder(j, 0, j, Encoder.MULTI_IDS);
  }

  // ---- the race ----

  /** Instances `0` to `j` of `m` have their ids, and none has enqueued; the last caller is about to, for `j`. */
  predicate Racing(steps: seq<Step>, fm: Formats, m: string, j: nat, events: seq<Event>)
    requires m in fm && Flatten(fm, fm.Keys, fm[m].fields).Ok?
  {
    var w := Run(steps);
    && StoredIn(steps, fm, Repeats(m, j + 1), Takes(m, j + 1), events) && m in MsgIds(w) && w.callers != []
    && w.callers[|w.callers| - 1] == Caller(StoreZero(fm, m, Ticks(j)), EnqueueNext(MsgIds(w)[m], j))
  }

  /** A call takes its ids and goes no further. */
  function TakeSteps(steps: seq<Step>, call: Call): seq<Step> {
    var i := |Run(steps).callers|;
    steps + [Begin(call)] + [Advance(i)] + [Advance(i)]
  }

  lemma TakesIds(steps: seq<Step>, call: Call)
    requires call.Store? && Disciplined(steps) && MayBegin(Run(steps), call) && AllRegistered(Run(steps))
    ensures var w, v := Run(steps), Run(TakeSteps(steps, call));
      && Disciplined(TakeSteps(steps, call)) && AllRegistered(v) && v.names == w.names + [call.typeName]
      && v.taken == w.taken + [(call.typeName, call.annotation)] && v.events == w.events
      && call.typeName in MsgIds(v) && call.annotation in TableOf(v.api, MsgIds(v)[call.typeName]).ids
      && v.callers == w.callers + [Caller(call, EnqueueNext(MsgIds(v)[call.typeName],
                                              TableOf(v.api, MsgIds(v)[call.typeName]).ids[call.annotation]))]
  {
    var i := |Run(steps).callers|;
    DisciplineNext(steps, Begin(call));
    DisciplineNext(steps + [Begin(call)], Advance(i));
    DisciplineNext(steps + [Begin(call)] + [Advance(i)], Advance(i));
    RunNext(steps, Begin(call));
    RunNext(steps + [Begin(call)], Advance(i));
    RunNext(steps + [Begin(call)] + [Advance(i)], Advance(i));
    StoreTakes(Run(steps), call);
  }

  lemma RacersFit(m: string, j: nat)
    ensures |FirstSeen(Repeats(m, j))| <= 1
  {
    FewNames(Repeats(m, j), {m});
  }

  /** One more instance joins the race. */
  lemma Joins(steps: seq<Step>, fm: Formats, rank: map<string, nat>, m: string, j: nat, events: seq<Event>)
      returns (more: seq<Step>)
    requires LayoutTheorems.Ranked(fm, rank) && Storable(fm, m) && j < Encoder.MULTI_IDS
    requires StoredIn(steps, fm, Repeats(m, j), Takes(m, j), events)
    ensures Flatten(fm, fm.Keys, fm[m].fields).Ok? && Racing(more, fm, m, j, events)
  {
    ZeroLegal(fm, rank, m, 0);
    var call := StoreZero(fm, m, Ticks(j));
    ZeroStored(Run(steps), fm, rank, m, Ticks(j));
    more := TakeSteps(steps, call);
    TakesIds(steps, call);
    NextInRace(m, j);
    RacersFit(m, j + 1);
    var multiId := LastTable(more, m, Ticks(j));
    TakesAsk(m, m, j + 1);
    RacersId(j);
    InstanceUnique(Asked(j + 1), Ticks(j), multiId, j);
  }

  lemma {:induction false} Race(defs: seq<Event>, rank: map<string, nat>, m: string, j: nat) returns (steps: seq<Step>)
    requires DefinitionsLegal(defs) && LayoutTheorems.Ranked(FormatsIn(defs), rank) && Storable(FormatsIn(defs), m) &&
      j < Encoder.MULTI_IDS
    ensures var fm := FormatsIn(defs); Flatten(fm, fm.Keys, fm[m].fields).Ok? && Racing(steps, fm, m, j, defs)
  {
    if j == 0 {
      SaysRun(defs);
      steps := SerialSteps(Says(defs));
    } else {
      steps := Race(defs, rank, m, j - 1);
    }
    steps := Joins(steps, FormatsIn(defs), rank, m, j, defs);
  }

  // ---- the last of the race enqueues first ----

  lemma EnqueuesZero(w: World, fm: Formats, rank: map<string, nat>, i: nat, m: string, a: string, id: nat, k: nat)
    requires LayoutTheorems.Ranked(fm, rank) && Storable(fm, m) && Flatten(fm, fm.Keys, fm[m].fields).Ok? &&
      AllRegistered(w)
    requires i < |w.callers| && w.callers[i] == Caller(StoreZero(fm, m, a), EnqueueNext(id, k))
    ensures var v := Take(w, Advance(i));
      && AllRegistered(v) && v.names == w.names && v.taken == w.taken && v.events == w.events + [Zero(fm, m, k)]
  {
    ZeroLegal(fm, rank, m, 0);
    StoreBuilt(fm, StoreZero(fm, m, a), id, k);
  }

  /** The call waiting to enqueue instance `k` does so. */
  lemma Released(steps: seq<Step>, fm: Formats, rank: map<string, nat>, names: seq<string>,
                 taken: seq<(string, string)>,
                 events: seq<Event>, i: nat, m: string, a: string, id: nat, k: nat)
    requires LayoutTheorems.Ranked(fm, rank) && Storable(fm, m) && StoredIn(steps, fm, names, taken, events)
    requires Flatten(fm, fm.Keys, fm[m].fields).Ok? && i < |Run(steps).callers|
    requires Run(steps).callers[i] == Caller(StoreZero(fm, m, a), EnqueueNext(id, k))
    ensures StoredIn(steps + [Advance(i)], fm, names, taken, events + [Zero(fm, m, k)])
  {
    EnqueuesZero(Run(steps), fm, rank, i, m, a, id, k);
    DisciplineNext(steps, Advance(i));
    RunNext(steps, Advance(i));
    LastOf(events, Zero(fm, m, k));
  }

  lemma NamesakeId()
    ensures InstanceIs([""], "", 0)
  {
    Instances.CallsNext([], "", Encoder.MULTI_IDS);
    assert [] + [""] == [""];
  }

  lemma NamesakeAsks(m: string, n: string, j: nat)
    requires m != n
    ensures Instances.AnnotationsTaken(Takes(m, j) + [(n, "")], n) == [""]
    ensures |FirstSeen(Repeats(m, j) + [n])| <= Encoder.MSG_IDS
  {
    TakesAsk(m, n, j);
    Instances.TakenNext(Takes(m, j), n, "", n);
    assert [] + [""] == [""];
    FewNames(Repeats(m, j) + [n], {m, n});
  }

  /** The last of the race enqueues, and a sample of another type is stored, in either order. */
  lemma Overtakes(steps: seq<Step>, fm: Formats, rank: map<string, nat>, m: string, k: nat, n: string,
                  events: seq<Event>,
                  instanceFirst: bool)
      returns (more: seq<Step>)
    requires LayoutTheorems.Ranked(fm, rank) && Storable(fm, m) && Storable(fm, n) && m != n
    requires Flatten(fm, fm.Keys, fm[m].fields).Ok? && Racing(steps, fm, m, k, events)
    ensures Flatten(fm, fm.Keys, fm[n].fields).Ok?
    ensures StoredIn(more, fm, Repeats(m, k + 1) + [n], Takes(m, k + 1) + [(n, "")],
                     if instanceFirst then events + [Zero(fm, m, k)] + [Zero(fm, n, 0)]
                     else events + [Zero(fm, n, 0)] + [Zero(fm, m, k)])
  {
    var i, id, j: nat := |Run(steps).callers| - 1, MsgIds(Run(steps))[m], 0;
    var names, taken := Repeats(m, k + 1), Takes(m, k + 1);
    NamesakeAsks(m, n, k + 1);
    NamesakeId();
    if instanceFirst {
      Released(steps, fm, rank, names, taken, events, i, m, Ticks(k), id, k);
      more, j := OneStored(steps + [Advance(i)], fm, rank, names, taken, events + [Zero(fm, m, k)], n, "");
      InstanceUnique([""], "", j, 0);
    } else {
      more, j := OneStored(steps, fm, rank, names, taken, events, n, "");
      InstanceUnique([""], "", j, 0);
      OthersStay(Run(steps), StoreZero(fm, n, ""), i);
      Released(more, fm, rank, names + [n], taken + [(n, "")], events + [Zero(fm, n, 0)], i, m, Ticks(k), id, k);
      more := more + [Advance(i)];
    }
  }

  lemma OthersStay(w: World, call: Call, i: nat)
    requires call.Store? && i < |w.callers|
    ensures i < |After(w, call).callers| && After(w, call).callers[i] == w.callers[i]
  {
  }

  /** Any instance may be the first to enqueue, and then names the series of its type: with concurrent callers data of
      `m` can be delivered under each of `m.00` to `m.255`. */
  lemma AnyInstanceFirst(defs: seq<Event>, rank: map<string, nat>, m: string, k: nat) returns (steps: seq<Step>)
    requires DefinitionsLegal(defs) && 0 < k < INSTANCES
    requires LayoutTheorems.Ranked(FormatsIn(defs), rank) && Storable(FormatsIn(defs), m)
    ensures Disciplined(steps) && FitsIds(Run(steps)) && KnownAs(Run(steps).events, m) == TypeCollisions.Suffixed(m, k)
  {
    var fm := FormatsIn(defs);
    steps := Race(defs, rank, m, k);
    var i := |Run(steps).callers| - 1;
    Released(steps, fm, rank, Repeats(m, k + 1), Takes(m, k + 1), defs, i, m, Ticks(k), MsgIds(Run(steps))[m], k);
    steps := steps + [Advance(i)];
    RacersFit(m, k + 1);
    NoSamples(defs, m);
    LastOf(defs, Zero(fm, m, k));
  }

  // ---- the theorem ----

  /** An instance of `m` and a sample of its namesake, in either order. */
  function Pair(fm: Formats, m: string, k: nat, instanceFirst: bool): seq<Event>
    requires m in fm && TypeCollisions.Suffixed(m, k) in fm && Flatten(fm, fm.Keys, fm[m].fields).Ok?
    requires Flatten(fm, fm.Keys, fm[TypeCollisions.Suffixed(m, k)].fields).Ok?
  {
    var x, y := Zero(fm, m, k), Zero(fm, TypeCollisions.Suffixed(m, k), 0);
    if instanceFirst then [x, y] else [y, x]
  }

  lemma PairJoin(events: seq<Event>, a: Event, b: Event)
    ensures events + [a] + [b] == events + [a, b]
  {
  }

  /** The race behind the definitions. */
  lemma PairRun(defs: seq<Event>, rank: map<string, nat>, m: string, k: nat, instanceFirst: bool)
      returns (steps: seq<Step>)
    requires DefinitionsLegal(defs) && 0 < k < INSTANCES
    requires LayoutTheorems.Ranked(FormatsIn(defs), rank) && Storable(FormatsIn(defs), m) &&
      Storable(FormatsIn(defs), TypeCollisions.Suffixed(m, k))
    ensures var fm := FormatsIn(defs);
      Flatten(fm, fm.Keys, fm[m].fields).Ok? && Flatten(fm, fm.Keys, fm[TypeCollisions.Suffixed(m, k)].fields).Ok?
    ensures var fm := FormatsIn(defs);
      RunOf(steps, fm, defs + Pair(fm, m, k, instanceFirst), m, TypeCollisions.Suffixed(m, k))
  {
    var fm, n := FormatsIn(defs), TypeCollisions.Suffixed(m, k);
    assert |n| > |m|;
    steps := Race(defs, rank, m, k);
    steps := Overtakes(steps, fm, rank, m, k, n, defs, instanceFirst);
    NamesakeAsks(m, n, k + 1);
    PairJoin(defs, Zero(fm, m, k), Zero(fm, n, 0));
    PairJoin(defs, Zero(fm, n, 0), Zero(fm, m, k));
    assert Repeats(m, k + 1)[0] == m;
    StoredRun(steps, fm, Repeats(m, k + 1) + [n], Takes(m, k + 1) + [(n, "")], defs + Pair(fm, m, k, instanceFirst), m,
              n);
  }

  /** The parser behind the definitions knows what it needs for the pair. */
  lemma PairReady(start: nat, ids: map<string, nat>, rank: map<string, nat>, defs: seq<Event>, m: string, k: nat,
                  checked: bool)
      returns (p: Parser.Parser)
    requires start < Bytes.Pow256(8) && DefinitionsLegal(defs) && 0 < k < INSTANCES && GoodIds(ids)
    requires LayoutTheorems.Ranked(FormatsIn(defs), rank) && Storable(FormatsIn(defs), m) &&
      Storable(FormatsIn(defs), TypeCollisions.Suffixed(m, k))
    requires m in ids && TypeCollisions.Suffixed(m, k) in ids
    ensures FeedAll(Parser.NewParser(), Stream(start, ids, defs), checked) == Ok(p)
    ensures Known(p, ids, defs) && p.timeseries == map[] && Before(defs, m, k) && p.formats == FormatsIn(defs)
    ensures Flatten(p.formats, p.formats.Keys, p.formats[m].fields).Ok?
    ensures Flatten(p.formats, p.formats.Keys, p.formats[TypeCollisions.Suffixed(m, k)].fields).Ok?
    ensures IsZero(p.formats, ids, Zero(p.formats, m, k)) &&
      IsZero(p.formats, ids, Zero(p.formats, TypeCollisions.Suffixed(m, k), 0))
  {
    ZeroLegal(FormatsIn(defs), rank, m, k);
    ZeroLegal(FormatsIn(defs), rank, TypeCollisions.Suffixed(m, k), 0);
    NoSamples(defs, m);
    NoSamples(defs, TypeCollisions.Suffixed(m, k));
    DefinitionsFed(start, ids, defs, checked);
    p := FeedAll(Parser.NewParser(), Stream(start, ids, defs), checked).value;
  }

  /** What a clash with an instance above 0 leads to. */
  lemma RaceRejected(start: nat, rank: map<string, nat>, defs: seq<Event>, m: string, k: nat, checked: bool)
      returns (steps: seq<Step>)
    requires start < Bytes.Pow256(8) && DefinitionsLegal(defs) && 0 < k < INSTANCES
    requires LayoutTheorems.Ranked(FormatsIn(defs), rank) && Storable(FormatsIn(defs), m) &&
      Storable(FormatsIn(defs), TypeCollisions.Suffixed(m, k))
    requires Columns(FormatsIn(defs), m) != Columns(FormatsIn(defs), TypeCollisions.Suffixed(m, k))
    ensures var w := Run(steps);
      && Disciplined(steps) && FitsIds(w) && FormatsIn(w.events) == FormatsIn(defs)
      && !Accepted(Parser.NewParser(), Output(start, w), checked)
  {
    var fm := FormatsIn(defs);
    var instanceFirst := Columns(fm, m) < Columns(fm, TypeCollisions.Suffixed(m, k));
    steps := PairRun(defs, rank, m, k, instanceFirst);
    PairRejected(start, rank, defs, m, k, steps, instanceFirst, checked);
  }

  lemma PairRejected(start: nat, rank: map<string, nat>, defs: seq<Event>, m: string, k: nat, steps: seq<Step>,
                     instanceFirst: bool, checked: bool)
    requires start < Bytes.Pow256(8) && DefinitionsLegal(defs) && 0 < k < INSTANCES
    requires LayoutTheorems.Ranked(FormatsIn(defs), rank) && Storable(FormatsIn(defs), m) &&
      Storable(FormatsIn(defs), TypeCollisions.Suffixed(m, k))
    requires Columns(FormatsIn(defs), m) != Columns(FormatsIn(defs), TypeCollisions.Suffixed(m, k))
    requires instanceFirst == (Columns(FormatsIn(defs), m) < Columns(FormatsIn(defs), TypeCollisions.Suffixed(m, k)))
    requires var fm := FormatsIn(defs);
      && Flatten(fm, fm.Keys, fm[m].fields).Ok? && Flatten(fm, fm.Keys, fm[TypeCollisions.Suffixed(m, k)].fields).Ok?
      && RunOf(steps, fm, defs + Pair(fm, m, k, instanceFirst), m, TypeCollisions.Suffixed(m, k))
    ensures !Accepted(Parser.NewParser(), Output(start, Run(steps)), checked)
  {
    var fm, ids := FormatsIn(defs), MsgIds(Run(steps));
    var p := PairReady(start, ids, rank, defs, m, k, checked);
    ClashFails(p, ids, rank, defs, m, k, Zero(fm, m, k), Zero(fm, TypeCollisions.Suffixed(m, k), 0), checked);
    TailRejected(start, steps, defs, Pair(fm, m, k, instanceFirst), checked);
  }

  lemma StepsRefute(start: nat, fm: Formats, steps: seq<Step>, checked: bool)
    requires Disciplined(steps) && FitsIds(Run(steps)) && FormatsIn(Run(steps).events) == fm
    requires !Accepted(Parser.NewParser(), Output(start, Run(steps)), checked)
    ensures !AlwaysAccepted(start, fm, checked)
  {
  }

  /** Everything that concurrent callers do in order is accepted if and only if no type is named like an instance,
      0 to 255, of a type with more or fewer columns. */
  lemma AlwaysAcceptedIff(start: nat, rank: map<string, nat>, defs: seq<Event>, checked: bool)
    requires start < Bytes.Pow256(8) && DefinitionsLegal(defs) && LayoutTheorems.Ranked(FormatsIn(defs), rank)
    ensures AlwaysAccepted(start, FormatsIn(defs), checked) <==> NoClash(FormatsIn(defs), 256)
  {
    var fm := FormatsIn(defs);
    if NoClash(fm, INSTANCES) {
      forall steps: seq<Step> | Disciplined(steps) && FitsIds(Run(steps)) && FormatsIn(Run(steps).events) == fm
        ensures Accepted(Parser.NewParser(), Output(start, Run(steps)), checked)
      {
        StreamAccepted(start, steps, rank, checked);
      }
    } else {
      var m, k := ClashOf(fm, INSTANCES);
      if k == 0 {
        var calls := MeetingRejected(start, rank, defs, m, checked);
        StepsRefute(start, fm, SerialSteps(calls), checked);
      } else {
        var steps := RaceRejected(start, rank, defs, m, k, checked);
        StepsRefute(start, fm, steps, checked);
      }
    }
  }
}
