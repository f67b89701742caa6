/** One caller at a time: every call returns before the next begins. The first sample of each type is then of instance
    0, and less is asked of the types' names. */
module Serial {
  import Bytes
  import opened Outcomes
  import Layout
  import LayoutTheorems
  import Samples
  import Parser
  import opened Encoder
  import opened Allocation
  import SharedSeries
  import opened Events
  import opened Streams
  import opened EndToEnd
  import opened Callers
  import opened ApiStream
  import opened Instances

  /** The steps of one call from its beginning to its return, `i` calls having begun before. */
  function CallSteps(call: Call, i: nat): seq<Step> {
    if call.Store? then [Begin(call)] + [Advance(i)] + [Advance(i)] + [Advance(i)] else [Begin(call)] + [Advance(i)]
  }

  function SerialSteps(calls: seq<Call>): seq<Step> {
    if calls == [] then []
    else SerialSteps(calls[..|calls| - 1]) + CallSteps(calls[|calls| - 1], |calls| - 1)
  }

  /** The world after the whole call. */
  function After(w: World, call: Call): World {
    match call
    case Store(name, annotation, _, _) =>
      var b := WithIds(w.api, name, annotation);
      var id := b.msgIds.ids[name];
      var v := w.(api := b, names := w.names + [name], taken := w.taken + [(name, annotation)]);
      Sending(v, call, Built(call, id, TableOf(b, id).ids[annotation]))
    case Say(_) => Sending(w, call, Built(call, 0, 0))
  }

  function Sending(w: World, call: Call, m: Option<(seq<Bytes.byte>, Event)>): World {
    var v := w.(callers := w.callers + [Caller(call, Returned)]);
    if m.None? then v
    else v.(queue := w.queue + [m.value.0], events := w.events + [m.value.1], order := w.order + [|w.callers|])
  }

  lemma RunNext(steps: seq<Step>, s: Step)
    ensures Run(steps + [s]) == Take(Run(steps), s)
  {
    assert (steps + [s])[..|steps|] == steps;
  }

  lemma MovedLast(callers: seq<Caller>, call: Call, stage: Stage, next: Stage)
    ensures Moved(callers + [Caller(call, stage)], |callers|, next) == callers + [Caller(call, next)]
  {
  }

  lemma SayAfter(w: World, e: Event)
    ensures Take(Take(w, Begin(Say(e))), Advance(|w.callers|)) == After(w, Say(e))
  {
    MovedLast(w.callers, Say(e), EnqueueNext(0, 0), Returned);
  }

  /** The ids a store takes, one after the other. */
  lemma StoreTakes(w: World, call: Call)
    requires call.Store?
    ensures var i := |w.callers|; var b := WithIds(w.api, call.typeName, call.annotation);
      var id := b.msgIds.ids[call.typeName];
      Take(Take(Take(w, Begin(call)), Advance(i)), Advance(i)) ==
      w.(api := b, names := w.names + [call.typeName], taken := w.taken + [(call.typeName, call.annotation)],
         callers := w.callers + [Caller(call, EnqueueNext(id, TableOf(b, id).ids[call.annotation]))])
  {
    var id := WithIds(w.api, call.typeName, call.annotation).msgIds.ids[call.typeName];
    MovedLast(w.callers, call, MsgIdNext, MultiIdNext(id));
    var next := EnqueueNext(id, TableOf(WithIds(w.api, call.typeName, call.annotation), id).ids[call.annotation]);
    MovedLast(w.callers, call, MultiIdNext(id), next);
  }

  lemma StoreAfter(w: World, call: Call)
    requires call.Store?
    ensures var i := |w.callers|;
      Take(Take(Take(Take(w, Begin(call)), Advance(i)), Advance(i)), Advance(i)) == After(w, call)
  {
    StoreTakes(w, call);
    var b := WithIds(w.api, call.typeName, call.annotation);
    var id := b.msgIds.ids[call.typeName];
    MovedLast(w.callers, call, EnqueueNext(id, TableOf(b, id).ids[call.annotation]), Returned);
  }

  lemma StepsJoin(steps: seq<Step>, a: Step, b: Step)
    ensures steps + ([a] + [b]) == steps + [a] + [b]
    ensures steps + ([a] + [b] + [b] + [b]) == steps + [a] + [b] + [b] + [b]
  {
  }

  /** A call that runs by itself. */
  lemma CallAlone(steps: seq<Step>, call: Call)
    ensures Run(steps + CallSteps(call, |Run(steps).callers|)) == After(Run(steps), call)
  {
    var w, i := Run(steps), |Run(steps).callers|;
    StepsJoin(steps, Begin(call), Advance(i));
    RunNext(steps, Begin(call));
    RunNext(steps + [Begin(call)], Advance(i));
    if call.Store? {
      StoreAlone(steps, call, i);
    } else {
      SayAfter(w, call.event);
    }
  }

  lemma StoreAlone(steps: seq<Step>, call: Call, i: nat)
    requires call.Store? && i == |Run(steps).callers|
    ensures Run(steps + [Begin(call)] + [Advance(i)] + [Advance(i)] + [Advance(i)]) == After(Run(steps), call)
  {
    RunNext(steps, Begin(call));
    RunNext(steps + [Begin(call)], Advance(i));
    RunNext(steps + [Begin(call)] + [Advance(i)], Advance(i));
    RunNext(steps + [Begin(call)] + [Advance(i)] + [Advance(i)], Advance(i));
    StoreAfter(Run(steps), call);
  }

  lemma AfterCount(w: World, call: Call)
    ensures |After(w, call).callers| == |w.callers| + 1
  {
  }

  lemma LastAlone(before: seq<Step>, steps: seq<Step>, call: Call)
    requires steps == before + CallSteps(call, |Run(before).callers|)
    ensures Run(steps) == After(Run(before), call) && |Run(steps).callers| == |Run(before).callers| + 1
  {
    CallAlone(before, call);
    AfterCount(Run(before), call);
  }

  lemma {:induction false} SerialCount(calls: seq<Call>)
    ensures |Run(SerialSteps(calls)).callers| == |calls|
    ensures calls != [] ==>
      Run(SerialSteps(calls)) == After(Run(SerialSteps(calls[..|calls| - 1])), calls[|calls| - 1])
  {
    if calls != [] {
      SerialCount(calls[..|calls| - 1]);
      LastAlone(SerialSteps(calls[..|calls| - 1]), SerialSteps(calls), calls[|calls| - 1]);
    }
  }

  lemma {:induction false} DisciplineBefore(a: seq<Step>, b: seq<Step>)
    requires Disciplined(a + b)
    ensures Disciplined(a)
  {
    if b == [] {
      assert a + b == a;
    } else {
      assert (a + b)[..|a + b| - 1] == a + b[..|b| - 1];
      DisciplineBefore(a, b[..|b| - 1]);
    }
  }

  function CallRest(call: Call, i: nat): seq<Step> {
    if call.Store? then [Advance(i)] + [Advance(i)] + [Advance(i)] else [Advance(i)]
  }

  lemma CallStepsHead(before: seq<Step>, call: Call, i: nat)
    ensures before + CallSteps(call, i) == before + [Begin(call)] + CallRest(call, i)
  {
    assert CallSteps(call, i) == [Begin(call)] + CallRest(call, i);
  }

  lemma LastMayBegin(calls: seq<Call>)
    requires calls != [] && Disciplined(SerialSteps(calls))
    ensures var before := SerialSteps(calls[..|calls| - 1]);
      Disciplined(before) && MayBegin(Run(before), calls[|calls| - 1])
  {
    var before, call, i := SerialSteps(calls[..|calls| - 1]), calls[|calls| - 1], |calls| - 1;
    var rest := CallRest(call, i);
    CallStepsHead(before, call, i);
    DisciplineBefore(before + [Begin(call)], rest);
    assert (before + [Begin(call)])[..|before|] == before;
    DisciplineBefore(before, [Begin(call)]);
  }

  // ---- instances ----

  /** Type `n` was stored with more than one annotation. */
  predicate Several(w: World, n: string) {
    |FirstSeen(AnnotationsTaken(w.taken, n))| > 1
  }

  /** The id of the last of `names`. */
  lemma LastId(names: seq<string>)
    requires names != []
    ensures var name, order := names[|names| - 1], FirstSeen(names); var ids := AfterCalls(names, 256).ids;
      && name in ids && order != [] && (|order| == 1 ==> ids[name] == 0)
      && (name !in FirstSeen(names[..|names| - 1]) && |order| == 2 ==> ids[name] == 1)
  {
    CallsAreSequential(names, MULTI_IDS);
    var name, order := names[|names| - 1], FirstSeen(names);
    assert name in order;
    var k :| 0 <= k < |order| && order[k] == name;
  }

  /** What is so of each type's instances. */
  predicate FromZero(w: World, n: string) {
    && FirstInstance(w.events, n) == (if AnnotationsTaken(w.taken, n) == [] then None else Some(0))
    && (HasInstances(w.events, n) <==> Several(w, n))
  }

  /** A store carries 0 if its type is new, and a positive multi id when it brings the second instance. */
  lemma StoreFromZero(w: World, v: World, call: Call, multiId: nat, n: string)
    requires call.Store? && FromZero(w, n) && v.taken == w.taken + [(call.typeName, call.annotation)]
    requires v.events == w.events + [Sampled(call.typeName, multiId, call.timestamp, call.data)]
    requires var names := AnnotationsTaken(v.taken, call.typeName); var ids := AfterCalls(names, MULTI_IDS).ids;
      call.annotation in ids && ids[call.annotation] == multiId
    ensures FromZero(v, n)
  {
    LastOf(w.events, Sampled(call.typeName, multiId, call.timestamp, call.data));
    TakenNext(w.taken, call.typeName, call.annotation, n);
    if call.typeName == n {
      var names := AnnotationsTaken(v.taken, n);
      assert names[..|names| - 1] == AnnotationsTaken(w.taken, n);
      LastId(names);
    }
  }

  lemma SayFromZero(w: World, call: Call, n: string)
    requires call.Say? && FromZero(w, n)
    ensures FromZero(After(w, call), n)
  {
    var v := After(w, call);
    if |v.events| > |w.events| { LastOf(w.events, v.events[|w.events|]); }
  }

  /** A legal store is enqueued. */
  lemma StoreBuilt(fm: Layout.Formats, call: Call, id: nat, multi: nat)
    requires call.Store? && Legal(fm, Sampled(call.typeName, 0, call.timestamp, call.data))
    ensures Built(call, id, multi).Some? &&
            Built(call, id, multi).value.1 == Sampled(call.typeName, multi, call.timestamp, call.data)
  {
  }

  lemma {:induction false} SerialFromZero(calls: seq<Call>, n: string)
    requires Disciplined(SerialSteps(calls)) && |FirstSeen(Run(SerialSteps(calls)).names)| <= 65536
    ensures FromZero(Run(SerialSteps(calls)), n)
  {
    if calls != [] {
      var before, call := calls[..|calls| - 1], calls[|calls| - 1];
      var w, v := Run(SerialSteps(before)), Run(SerialSteps(calls));
      SerialCount(calls);
      LastMayBegin(calls);
      if call.Store? {
        FirstSeenGrows(w.names, [call.typeName]);
        SerialFromZero(before, n);
        TablesFollow(SerialSteps(calls));
        assert TableFollows(v, call.typeName);
        var id := MsgIds(v)[call.typeName];
        StoreBuilt(FormatsIn(w.events), call, id, TableOf(v.api, id).ids[call.annotation]);
        StoreFromZero(w, v, call, TableOf(v.api, id).ids[call.annotation], n);
      } else {
        SerialFromZero(before, n);
        SayFromZero(w, call, n);
      }
    }
  }

  /** One caller at a time: a type's data goes under its own name until a second instance is stored, and from then on
      under that of instance 0, for every instance. */
  lemma SerialNames(calls: seq<Call>, n: string)
    requires Disciplined(SerialSteps(calls)) && |FirstSeen(Run(SerialSteps(calls)).names)| <= 65536
    ensures var w := Run(SerialSteps(calls));
      KnownAs(w.events, n) == if Several(w, n) then n + ".00" else n
  {
    SerialFromZero(calls, n);
    SuffixIs(n, 0, 0);
  }

  lemma SerialFirsts(calls: seq<Call>)
    requires Disciplined(SerialSteps(calls)) && |FirstSeen(Run(SerialSteps(calls)).names)| <= 65536
    ensures FirstsBelow(Run(SerialSteps(calls)).events, 1)
  {
    forall n | FirstInstance(Run(SerialSteps(calls)).events, n).Some?
      ensures FirstInstance(Run(SerialSteps(calls)).events, n).value < 1
    {
      SerialFromZero(calls, n);
    }
  }

  // ---- whole streams ----

  /** What one caller's run comes to. */
  lemma SerialStream(start: nat, calls: seq<Call>)
    requires Disciplined(SerialSteps(calls)) && |FirstSeen(Run(SerialSteps(calls)).names)| <= 65536
    ensures var w := Run(SerialSteps(calls));
      && Output(start, w) == Stream(start, MsgIds(w), w.events) && GoodIds(MsgIds(w)) && LegalRun(MsgIds(w), w.events)
      && OrderKept(w.events) && FirstsBelow(w.events, 1)
  {
    var steps := SerialSteps(calls);
    DisciplineKeepsOrder(steps);
    OutputIs(start, steps);
    RunIds(steps);
    SerialFirsts(calls);
  }

  /** One caller at a time: only types named like instance 0 of another matter. */
  lemma SerialAccepted(start: nat, calls: seq<Call>, rank: map<string, nat>, checked: bool)
    requires start < Bytes.Pow256(8) && Disciplined(SerialSteps(calls))
    requires |FirstSeen(Run(SerialSteps(calls)).names)| <= 65536
    requires var w := Run(SerialSteps(calls));
      var fm := FormatsIn(w.events);
      Started(w.events) ==> LayoutTheorems.Ranked(fm, rank) && SharedSeries.NoClash(fm, 1)
    ensures Accepted(Parser.NewParser(), Output(start, Run(SerialSteps(calls))), checked)
  {
    var w := Run(SerialSteps(calls));
    SerialStream(start, calls);
    AcceptedIff(start, MsgIds(w), rank, w.events, 1, checked);
  }

  lemma SerialDelivered(start: nat, calls: seq<Call>, rank: map<string, nat>, samples: seq<seq<Samples.Item>>,
                        checked: bool)
    requires start < Bytes.Pow256(8) && Disciplined(SerialSteps(calls))
    requires |FirstSeen(Run(SerialSteps(calls)).names)| <= 65536
    requires var events := Run(SerialSteps(calls)).events;
      Started(events) ==> LayoutTheorems.Ranked(FormatsIn(events), rank) && SharedSeries.NoMixup(FormatsIn(events), 1)
    requires var events := Run(SerialSteps(calls)).events; AllSerialize(FormatsIn(events), events, samples)
    ensures var w := Run(SerialSteps(calls)); var r := FeedAll(Parser.NewParser(), Output(start, w), checked);
      r.Ok? && r.value.delivered == Repeated(Deliveries(FormatsIn(w.events), w.events, samples), checked)
  {
    var w := Run(SerialSteps(calls));
    SerialStream(start, calls);
    assert Output(start, w) == Stream(start, MsgIds(w), w.events);
    StreamDelivered(start, MsgIds(w), rank, w.events, samples, 1, checked);
  }
}
