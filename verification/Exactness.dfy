/** Exactly when everything one caller at a time can produce is accepted, for given registrations. */
module Exactness {
  import opened Bytes
  import opened Outcomes
  import opened Layout
  import LayoutTheorems
  import opened Parser
  import opened Encoder
  import opened Allocation
  import TypeCollisions
  import opened SharedSeries
  import opened Events
  import opened Streams
  import opened Callers
  import opened ApiStream
  import opened Serial
  import opened Clashes
  import opened Instances

  // ---- the registrations, and what follows them ----

  /** Registrations, parameters and infos. */
  predicate DefinitionsLegal(defs: seq<Event>) {
    forall i :: 0 <= i < |defs| ==> !defs[i].Sampled? && !defs[i].Logged? && Legal(map[], defs[i])
  }

  function Says(defs: seq<Event>): (r: seq<Call>)
    ensures |r| == |defs|
  {
    seq(|defs|, i requires 0 <= i < |defs| => Say(defs[i]))
  }

  /** The world in which only `defs` were said. */
  predicate OnlySaid(w: World, defs: seq<Event>) {
    && w.events == defs && w.api == NEW_API && w.names == [] && w.taken == []
    && forall i :: 0 <= i < |w.callers| ==> w.callers[i].call.Say? && w.callers[i].stage == Returned
  }

  lemma {:induction false} DefinitionsFirst(ids: map<string, nat>, defs: seq<Event>)
    requires DefinitionsLegal(defs)
    ensures LegalRun(ids, defs) && OrderKept(defs) && !Started(defs)
  {
    if defs != [] { DefinitionsFirst(ids, defs[..|defs| - 1]); }
  }

  lemma {:induction false} NoSamples(defs: seq<Event>, n: string)
    requires DefinitionsLegal(defs)
    ensures FirstInstance(defs, n) == None && !HasInstances(defs, n)
  {
    if defs != [] { NoSamples(defs[..|defs| - 1], n); }
  }

  lemma NoFirsts(defs: seq<Event>)
    requires DefinitionsLegal(defs)
    ensures FirstsBelow(defs, 1)
  {
    forall n ensures FirstInstance(defs, n) == None { NoSamples(defs, n); }
  }

  lemma DisciplineNext(steps: seq<Step>, s: Step)
    requires Disciplined(steps) && (s.Begin? ==> MayBegin(Run(steps), s.call))
    ensures Disciplined(steps + [s])
  {
    assert (steps + [s])[..|steps|] == steps;
  }

  lemma DisciplineCall(steps: seq<Step>, call: Call, i: nat)
    requires Disciplined(steps) && MayBegin(Run(steps), call)
    ensures Disciplined(steps + CallSteps(call, i))
  {
    DisciplineNext(steps, Begin(call));
    DisciplineNext(steps + [Begin(call)], Advance(i));
    StepsJoin(steps, Begin(call), Advance(i));
    if call.Store? {
      DisciplineNext(steps + [Begin(call)] + [Advance(i)], Advance(i));
      DisciplineNext(steps + [Begin(call)] + [Advance(i)] + [Advance(i)], Advance(i));
    }
  }

  lemma SerialNext(calls: seq<Call>, call: Call)
    ensures Run(SerialSteps(calls + [call])) == After(Run(SerialSteps(calls)), call)
    ensures SerialSteps(calls + [call]) == SerialSteps(calls) + CallSteps(call, |calls|)
  {
    SerialCount(calls + [call]);
    assert (calls + [call])[..|calls|] == calls;
  }

  lemma DisciplineSerial(calls: seq<Call>, call: Call)
    requires Disciplined(SerialSteps(calls)) && MayBegin(Run(SerialSteps(calls)), call)
    ensures Disciplined(SerialSteps(calls + [call]))
  {
    SerialNext(calls, call);
    DisciplineCall(SerialSteps(calls), call, |calls|);
  }

  lemma SaidOne(w: World, defs: seq<Event>, e: Event)
    requires OnlySaid(w, defs) && !e.Sampled? && !e.Logged? && Legal(map[], e)
    ensures MayBegin(w, Say(e)) && OnlySaid(After(w, Say(e)), defs + [e])
  {
    OtherIsNotData(map[], map[], e);
  }

  lemma SaysNext(before: seq<Event>, e: Event)
    requires DefinitionsLegal(before + [e])
    ensures DefinitionsLegal(before) && !e.Sampled? && !e.Logged? && Legal(map[], e)
    ensures Says(before + [e]) == Says(before) + [Say(e)]
  {
    assert (before + [e])[|before|] == e;
    forall i | 0 <= i < |before| ensures !before[i].Sampled? && !before[i].Logged? && Legal(map[], before[i]) {
      assert before[i] == (before + [e])[i];
    }
  }

  lemma {:induction false} SaysRun(defs: seq<Event>)
    requires DefinitionsLegal(defs)
    ensures Disciplined(SerialSteps(Says(defs))) && OnlySaid(Run(SerialSteps(Says(defs))), defs)
  {
    if defs != [] {
      var before, e := defs[..|defs| - 1], defs[|defs| - 1];
      Split(defs);
      SaysNext(before, e);
      SaysRun(before);
      SaidOne(Run(SerialSteps(Says(before))), before, e);
      DisciplineSerial(Says(before), Say(e));
      SerialNext(Says(before), Say(e));
    }
  }

  /** The parser behind the definitions. */
  lemma DefinitionsFed(start: nat, ids: map<string, nat>, defs: seq<Event>, checked: bool)
    requires start < Pow256(8) && GoodIds(ids) && DefinitionsLegal(defs)
    ensures var r := FeedAll(NewParser(), Stream(start, ids, defs), checked);
      r.Ok? && Known(r.value, ids, defs) && r.value.timeseries == map[]
  {
    HeaderFed(start, checked);
    DefinitionsFirst(ids, defs);
    NoFirsts(defs);
    var first := [FileHeader(start), FLAG_BITS];
    FeedAppend(NewParser(), first, Packets(ids, defs), checked);
    StreamFed(FeedAll(NewParser(), first, checked).value, ids, map[], defs, 1, checked);
  }

  lemma PacketsAppend(ids: map<string, nat>, a: seq<Event>, b: seq<Event>)
    ensures Packets(ids, a + b) == Packets(ids, a) + Packets(ids, b)
  {
  }

  lemma {:induction false} FeedFails(p: Parser, a: seq<seq<byte>>, b: seq<seq<byte>>, checked: bool)
    requires FeedAll(p, a, checked).Err?
    ensures FeedAll(p, a + b, checked).Err?
  {
    if b == [] {
      assert a + b == a;
    } else {
      assert (a + b)[..|a + b| - 1] == a + b[..|b| - 1];
      FeedFails(p, a, b[..|b| - 1], checked);
    }
  }

  /** What follows the definitions. */
  lemma TailFed(start: nat, ids: map<string, nat>, defs: seq<Event>, tail: seq<Event>, checked: bool)
    requires start < Pow256(8) && GoodIds(ids) && DefinitionsLegal(defs)
    ensures FeedAll(NewParser(), Stream(start, ids, defs), checked).Ok?
    ensures FeedAll(NewParser(), Stream(start, ids, defs + tail), checked) ==
            FeedAll(FeedAll(NewParser(), Stream(start, ids, defs), checked).value, Packets(ids, tail), checked)
  {
    DefinitionsFed(start, ids, defs, checked);
    PacketsAppend(ids, defs, tail);
    Text.Reassociate([FileHeader(start), FLAG_BITS], Packets(ids, defs), Packets(ids, tail));
    FeedAppend(NewParser(), Stream(start, ids, defs), Packets(ids, tail), checked);
  }

  // ---- one caller at a time ----

  /** Whatever one caller does in order is accepted, if it registers these formats. */
  ghost predicate SerialAlwaysAccepted(start: nat, fm: Formats, checked: bool) {
    forall calls: seq<Call> | Disciplined(SerialSteps(calls)) && FitsIds(Run(SerialSteps(calls))) &&
                              FormatsIn(Run(SerialSteps(calls)).events) == fm ::
      Accepted(NewParser(), Output(start, Run(SerialSteps(calls))), checked)
  }

  /** At most 65536 types asked for an id. */
  predicate FitsIds(w: World) {
    |FirstSeen(w.names)| <= MSG_IDS
  }

  /** A store of zeros. */
  function StoreZero(fm: Formats, n: string, annotation: string): Call
    requires n in fm && Flatten(fm, fm.Keys, fm[n].fields).Ok?
  {
    Store(n, annotation, 0, TypeCollisions.ZeroData(fm, n))
  }

  /** A store of zeros may begin behind the definitions, and enqueues its sample. */
  lemma ZeroStored(w: World, fm: Formats, rank: map<string, nat>, n: string, annotation: string)
    requires LayoutTheorems.Ranked(fm, rank) && Storable(fm, n) && FormatsIn(w.events) == fm
    requires forall i :: 0 <= i < |w.callers| && Registers(w.callers[i]) ==> w.callers[i].stage == Returned
    ensures Flatten(fm, fm.Keys, fm[n].fields).Ok? && MayBegin(w, StoreZero(fm, n, annotation))
    ensures var b := WithIds(w.api, n, annotation); var id := b.msgIds.ids[n];
      After(w, StoreZero(fm, n, annotation)).events == w.events + [Zero(fm, n, TableOf(b, id).ids[annotation])]
  {
    ZeroLegal(fm, rank, n, 0);
    var b := WithIds(w.api, n, annotation);
    var id := b.msgIds.ids[n];
    StoreBuilt(fm, StoreZero(fm, n, annotation), id, TableOf(b, id).ids[annotation]);
  }

  /** Every registration has returned. */
  predicate AllRegistered(w: World) {
    forall i :: 0 <= i < |w.callers| && Registers(w.callers[i]) ==> w.callers[i].stage.Returned?
  }

  /** The multi id of `annotation` when its type asked for ids with these annotations. */
  predicate InstanceIs(asked: seq<string>, annotation: string, multiId: nat) {
    var ids := AfterCalls(asked, MULTI_IDS).ids;
    annotation in ids && ids[annotation] == multiId
  }

  /** A world in which these types were stored with these annotations. */
  predicate StoredIn(steps: seq<Step>, fm: Formats, names: seq<string>, taken: seq<(string, string)>,
                     events: seq<Event>) {
    var w := Run(steps);
    && Disciplined(steps) && AllRegistered(w) && w.names == names && w.taken == taken
    && w.events == events && FormatsIn(events) == fm
  }

  /** One more store of zeros. */
  lemma OneStored(steps: seq<Step>, fm: Formats, rank: map<string, nat>, names: seq<string>,
                  taken: seq<(string, string)>,
                  events: seq<Event>, n: string, annotation: string)
      returns (more: seq<Step>, multiId: nat)
    requires LayoutTheorems.Ranked(fm, rank) && Storable(fm, n) && StoredIn(steps, fm, names, taken, events)
    requires |FirstSeen(names + [n])| <= MSG_IDS
    ensures Flatten(fm, fm.Keys, fm[n].fields).Ok?
    ensures InstanceIs(AnnotationsTaken(taken + [(n, annotation)], n), annotation, multiId)
    ensures StoredIn(more, fm, names + [n], taken + [(n, annotation)], events + [Zero(fm, n, multiId)])
    ensures more == steps + CallSteps(StoreZero(fm, n, annotation), |Run(steps).callers|)
    ensures Run(more) == After(Run(steps), StoreZero(fm, n, annotation))
  {
    ZeroLegal(fm, rank, n, 0);
    var call := StoreZero(fm, n, annotation);
    more := steps + CallSteps(call, |Run(steps).callers|);
    ZeroStored(Run(steps), fm, rank, n, annotation);
    StoreKept(Run(steps), call);
    DisciplineCall(steps, call, |Run(steps).callers|);
    CallAlone(steps, call);
    multiId := LastTable(more, n, annotation);
    LastOf(events, Zero(fm, n, multiId));
  }

  lemma StoreKept(w: World, call: Call)
    requires call.Store? && AllRegistered(w)
    ensures var v := After(w, call);
      && AllRegistered(v) && v.names == w.names + [call.typeName]
      && v.taken == w.taken + [(call.typeName, call.annotation)]
      && v.api == WithIds(w.api, call.typeName, call.annotation)
  {
  }

  /** The multi id found in a type's table is the place of its annotation. */
  lemma LastTable(steps: seq<Step>, n: string, annotation: string) returns (multiId: nat)
    requires var w := Run(steps); FitsIds(w) && n in MsgIds(w) && annotation in TableOf(w.api, MsgIds(w)[n]).ids
    ensures var w := Run(steps); multiId == TableOf(w.api, MsgIds(w)[n]).ids[annotation]
    ensures InstanceIs(AnnotationsTaken(Run(steps).taken, n), annotation, multiId)
  {
    var w := Run(steps);
    TablesFollow(steps);
    assert TableFollows(w, n);
    multiId := TableOf(w.api, MsgIds(w)[n]).ids[annotation];
  }

  // ---- a type and its namesake, one caller at a time ----

  /** What type `t` asked for after the stores of the run below. */
  lemma AskedInTurn(m: string, n: string, t: string)
    ensures AnnotationsTaken([(m, "a")], t) == if t == m then ["a"] else []
    ensures m != n && t == m ==> AnnotationsTaken([(m, "a"), (m, "b")], t) == ["a", "b"]
    ensures m != n && t == n ==> AnnotationsTaken([(m, "a"), (n, "a")], t) == ["a"]
    ensures m != n && t == n ==> AnnotationsTaken([(m, "a"), (m, "b"), (n, "a")], t) == ["a"]
    ensures m != n && t == m ==> AnnotationsTaken([(m, "a"), (n, "a"), (m, "b")], t) == ["a", "b"]
  {
    TakenNext([], m, "a", t);
    assert [] + [(m, "a")] == [(m, "a")] && [] + ["a"] == ["a"] && ["a"] + ["b"] == ["a", "b"];
    TakenNext([(m, "a")], m, "b", t);
    TakenNext([(m, "a")], n, "a", t);
    assert [(m, "a")] + [(m, "b")] == [(m, "a"), (m, "b")] && [(m, "a")] + [(n, "a")] == [(m, "a"), (n, "a")];
    TakenNext([(m, "a"), (m, "b")], n, "a", t);
    TakenNext([(m, "a"), (n, "a")], m, "b", t);
    assert [(m, "a"), (m, "b")] + [(n, "a")] == [(m, "a"), (m, "b"), (n, "a")];
    assert [(m, "a"), (n, "a")] + [(m, "b")] == [(m, "a"), (n, "a"), (m, "b")];
  }

  lemma FirstIds()
    ensures InstanceIs(["a"], "a", 0) && InstanceIs(["a", "b"], "b", 1)
  {
    TwoNames("a", "b");
  }

  lemma TwoNames(a: string, b: string)
    requires a != b
    ensures InstanceIs([a], a, 0) && InstanceIs([a, b], b, 1)
  {
    CallsNext([], a, MULTI_IDS);
    CallsNext([a], b, MULTI_IDS);
    assert [] + [a] == [a] && [a] + [b] == [a, b];
  }

  lemma InstanceUnique(asked: seq<string>, annotation: string, i: nat, j: nat)
    requires InstanceIs(asked, annotation, i) && InstanceIs(asked, annotation, j)
    ensures i == j
  {
  }

  /** One more store of zeros when there is one caller at a time. */
  lemma NextStored(calls: seq<Call>, fm: Formats, rank: map<string, nat>, names: seq<string>,
                   taken: seq<(string, string)>,
                   events: seq<Event>, n: string, annotation: string)
      returns (more: seq<Call>, multiId: nat)
    requires LayoutTheorems.Ranked(fm, rank) && Storable(fm, n) &&
      StoredIn(SerialSteps(calls), fm, names, taken, events)
    requires |FirstSeen(names + [n])| <= MSG_IDS
    ensures Flatten(fm, fm.Keys, fm[n].fields).Ok?
    ensures InstanceIs(AnnotationsTaken(taken + [(n, annotation)], n), annotation, multiId)
    ensures StoredIn(SerialSteps(more), fm, names + [n], taken + [(n, annotation)], events + [Zero(fm, n, multiId)])
  {
    var steps: seq<Step>;
    steps, multiId := OneStored(SerialSteps(calls), fm, rank, names, taken, events, n, annotation);
    more := calls + [StoreZero(fm, n, annotation)];
    SerialCount(calls);
    SerialNext(calls, StoreZero(fm, n, annotation));
  }

  /** Two stores behind a first one. */
  lemma TwoStored(calls: seq<Call>, fm: Formats, rank: map<string, nat>, first: string, events: seq<Event>,
                  m: string, a: string, n: string, b: string)
      returns (more: seq<Call>, i: nat, j: nat)
    requires LayoutTheorems.Ranked(fm, rank) && Storable(fm, m) && Storable(fm, n)
    requires StoredIn(SerialSteps(calls), fm, [first], [(first, "a")], events)
    ensures Flatten(fm, fm.Keys, fm[m].fields).Ok? && Flatten(fm, fm.Keys, fm[n].fields).Ok?
    ensures InstanceIs(AnnotationsTaken([(first, "a"), (m, a)], m), a, i)
    ensures InstanceIs(AnnotationsTaken([(first, "a"), (m, a), (n, b)], n), b, j)
    ensures StoredIn(SerialSteps(more), fm, [first, m, n], [(first, "a"), (m, a), (n, b)],
                     events + [Zero(fm, m, i)] + [Zero(fm, n, j)])
  {
    FewNames([first] + [m], {first, m});
    FewNames([first, m] + [n], {first, m, n});
    OneMore(first, m, n);
    OneMore((first, "a"), (m, a), (n, b));
    more, i := NextStored(calls, fm, rank, [first], [(first, "a")], events, m, a);
    more, j := NextStored(more, fm, rank, [first, m], [(first, "a"), (m, a)], events + [Zero(fm, m, i)], n, b);
  }

  lemma OneMore<X>(a: X, b: X, c: X)
    ensures [a] + [b] == [a, b] && [a, b] + [c] == [a, b, c]
  {
  }

  lemma FirstStored(defs: seq<Event>, rank: map<string, nat>, m: string) returns (calls: seq<Call>)
    requires DefinitionsLegal(defs) && LayoutTheorems.Ranked(FormatsIn(defs), rank) && Storable(FormatsIn(defs), m)
    ensures var fm := FormatsIn(defs);
      && Flatten(fm, fm.Keys, fm[m].fields).Ok?
      && StoredIn(SerialSteps(calls), fm, [m], [(m, "a")], defs + [Zero(fm, m, 0)])
  {
    SaysRun(defs);
    FewNames([] + [m], {m});
    var i: nat;
    calls, i := NextStored(Says(defs), FormatsIn(defs), rank, [], [], defs, m, "a");
    AskedInTurn(m, m, m);
    FirstIds();
    InstanceUnique(["a"], "a", i, 0);
    assert [] + [(m, "a")] == [(m, "a")] && [] + [m] == [m];
  }

  lemma InstanceThenNamesake(first: seq<Call>, fm: Formats, rank: map<string, nat>, m: string, n: string,
                             events: seq<Event>)
      returns (calls: seq<Call>)
    requires LayoutTheorems.Ranked(fm, rank) && Storable(fm, m) && Storable(fm, n) && m != n
    requires StoredIn(SerialSteps(first), fm, [m], [(m, "a")], events)
    ensures Flatten(fm, fm.Keys, fm[m].fields).Ok? && Flatten(fm, fm.Keys, fm[n].fields).Ok?
    ensures StoredIn(SerialSteps(calls), fm, [m, m, n], [(m, "a"), (m, "b"), (n, "a")],
                     events + [Zero(fm, m, 1)] + [Zero(fm, n, 0)])
  {
    AskedInTurn(m, n, m);
    AskedInTurn(m, n, n);
    FirstIds();
    var i: nat, j: nat;
    calls, i, j := TwoStored(first, fm, rank, m, events, m, "b", n, "a");
    InstanceUnique(["a", "b"], "b", i, 1);
    InstanceUnique(["a"], "a", j, 0);
  }

  lemma NamesakeThenInstance(first: seq<Call>, fm: Formats, rank: map<string, nat>, m: string, n: string,
                             events: seq<Event>)
      returns (calls: seq<Call>)
    requires LayoutTheorems.Ranked(fm, rank) && Storable(fm, m) && Storable(fm, n) && m != n
    requires StoredIn(SerialSteps(first), fm, [m], [(m, "a")], events)
    ensures Flatten(fm, fm.Keys, fm[m].fields).Ok? && Flatten(fm, fm.Keys, fm[n].fields).Ok?
    ensures StoredIn(SerialSteps(calls), fm, [m, n, m], [(m, "a"), (n, "a"), (m, "b")],
                     events + [Zero(fm, n, 0)] + [Zero(fm, m, 1)])
  {
    AskedInTurn(m, n, m);
    AskedInTurn(m, n, n);
    FirstIds();
    var i: nat, j: nat;
    calls, i, j := TwoStored(first, fm, rank, m, events, n, "a", m, "b");
    InstanceUnique(["a"], "a", i, 0);
    InstanceUnique(["a", "b"], "b", j, 1);
  }

  /** A sample of `m`; then its second instance and a sample of its namesake, in either order. */
  function Met(fm: Formats, m: string, instanceFirst: bool): seq<Event>
    requires m in fm && TypeCollisions.Suffixed(m, 0) in fm && Flatten(fm, fm.Keys, fm[m].fields).Ok?
    requires Flatten(fm, fm.Keys, fm[TypeCollisions.Suffixed(m, 0)].fields).Ok?
  {
    [Zero(fm, m, 0)] + Meeting(fm, m, instanceFirst)
  }

  function Meeting(fm: Formats, m: string, instanceFirst: bool): seq<Event>
    requires m in fm && TypeCollisions.Suffixed(m, 0) in fm && Flatten(fm, fm.Keys, fm[m].fields).Ok?
    requires Flatten(fm, fm.Keys, fm[TypeCollisions.Suffixed(m, 0)].fields).Ok?
  {
    var x, y := Zero(fm, m, 1), Zero(fm, TypeCollisions.Suffixed(m, 0), 0);
    if instanceFirst then [x, y] else [y, x]
  }

  /** An orderly run of these messages in which both types have ids. */
  predicate RunOf(steps: seq<Step>, fm: Formats, events: seq<Event>, m: string, n: string) {
    && Disciplined(steps) && FitsIds(Run(steps)) && Run(steps).events == events && FormatsIn(events) == fm
    && GoodIds(MsgIds(Run(steps))) && m in MsgIds(Run(steps)) && n in MsgIds(Run(steps))
  }

  lemma {:induction false} SeenAll(names: seq<string>, n: string)
    requires n in names
    ensures n in FirstSeen(names)
  {
    if n in names[..|names| - 1] {
      SeenAll(names[..|names| - 1], n);
    } else {
      assert n == names[|names| - 1];
    }
  }

  lemma NamesHaveIds(steps: seq<Step>, names: seq<string>, m: string, n: string)
    requires Run(steps).names == names && m in names && n in names && |FirstSeen(names)| <= MSG_IDS
    ensures var ids := MsgIds(Run(steps)); GoodIds(ids) && m in ids && n in ids
  {
    RunIds(steps);
    RunKeepsInv(steps);
    CallsAreSequential(names, MSG_IDS);
    SeenAll(names, m);
    SeenAll(names, n);
  }

  lemma StoredRun(steps: seq<Step>, fm: Formats, names: seq<string>, taken: seq<(string, string)>, events: seq<Event>,
                  m: string, n: string)
    requires StoredIn(steps, fm, names, taken, events) && m in names && n in names && |FirstSeen(names)| <= MSG_IDS
    ensures RunOf(steps, fm, events, m, n)
  {
    NamesHaveIds(steps, names, m, n);
  }

  lemma MeetingRun(defs: seq<Event>, rank: map<string, nat>, m: string, instanceFirst: bool) returns (calls: seq<Call>)
    requires DefinitionsLegal(defs)
    requires var fm := FormatsIn(defs);
      LayoutTheorems.Ranked(fm, rank) && Storable(fm, m) && Storable(fm, TypeCollisions.Suffixed(m, 0))
    ensures var fm := FormatsIn(defs);
      Flatten(fm, fm.Keys, fm[m].fields).Ok? && Flatten(fm, fm.Keys, fm[TypeCollisions.Suffixed(m, 0)].fields).Ok?
    ensures var fm := FormatsIn(defs);
      RunOf(SerialSteps(calls), fm, defs + Met(fm, m, instanceFirst), m, TypeCollisions.Suffixed(m, 0))
  {
    var fm, n := FormatsIn(defs), TypeCollisions.Suffixed(m, 0);
    assert |n| > |m|;
    var first := FirstStored(defs, rank, m);
    calls := MetRun(first, fm, rank, m, n, defs + [Zero(fm, m, 0)], instanceFirst);
    ThreeJoin(defs, Zero(fm, m, 0), Meeting(fm, m, instanceFirst));
  }

  lemma MetRun(first: seq<Call>, fm: Formats, rank: map<string, nat>, m: string, n: string, events: seq<Event>,
               instanceFirst: bool)
      returns (calls: seq<Call>)
    requires LayoutTheorems.Ranked(fm, rank) && Storable(fm, m) && Storable(fm, n) && m != n
    requires StoredIn(SerialSteps(first), fm, [m], [(m, "a")], events)
    ensures Flatten(fm, fm.Keys, fm[m].fields).Ok? && Flatten(fm, fm.Keys, fm[n].fields).Ok?
    ensures RunOf(SerialSteps(calls), fm,
                  if instanceFirst then events + [Zero(fm, m, 1)] + [Zero(fm, n, 0)]
                  else events + [Zero(fm, n, 0)] + [Zero(fm, m, 1)], m, n)
  {
    if instanceFirst {
      calls := InstanceThenNamesake(first, fm, rank, m, n, events);
      FewNames([m, m, n], {m, n});
      StoredRun(SerialSteps(calls), fm, [m, m, n], [(m, "a"), (m, "b"), (n, "a")],
                events + [Zero(fm, m, 1)] + [Zero(fm, n, 0)], m, n);
    } else {
      calls := NamesakeThenInstance(first, fm, rank, m, n, events);
      FewNames([m, n, m], {m, n});
      StoredRun(SerialSteps(calls), fm, [m, n, m], [(m, "a"), (n, "a"), (m, "b")],
                events + [Zero(fm, n, 0)] + [Zero(fm, m, 1)], m, n);
    }
  }

  lemma ThreeJoin(defs: seq<Event>, e: Event, pair: seq<Event>)
    requires |pair| == 2
    ensures defs + [e] + [pair[0]] + [pair[1]] == defs + ([e] + pair)
  {
  }

  lemma OneFed(p: Parser, ids: map<string, nat>, e: Event, more: seq<Event>, checked: bool)
    requires Feed(p, Packet(ids, e), checked).Ok?
    ensures FeedAll(p, Packets(ids, [e] + more), checked) ==
            FeedAll(Feed(p, Packet(ids, e), checked).value, Packets(ids, more), checked)
  {
    PacketsAppend(ids, [e], more);
    FeedNext(p, [], Packet(ids, e), checked);
    assert [] + [Packet(ids, e)] == [Packet(ids, e)] == Packets(ids, [e]);
    FeedAppend(p, [Packet(ids, e)], Packets(ids, more), checked);
  }

  /** The first sample of a type opens a series of its own name, and the type meets its namesake next. */
  lemma MeetingReady(p: Parser, ids: map<string, nat>, rank: map<string, nat>, defs: seq<Event>, m: string,
                     checked: bool)
    requires DefinitionsLegal(defs) && Known(p, ids, defs) && p.timeseries == map[] && GoodIds(ids)
    requires LayoutTheorems.Ranked(p.formats, rank) && Storable(p.formats, m) && m in ids
    ensures Flatten(p.formats, p.formats.Keys, p.formats[m].fields).Ok?
    ensures var e := Zero(p.formats, m, 0); var r := Feed(p, Packet(ids, e), checked);
      && r.Ok? && Known(r.value, ids, defs + [e]) && r.value.formats == p.formats
      && TypeCollisions.Suffixed(m, 0) !in r.value.timeseries && Before(defs + [e], m, 0)
  {
    ZeroLegal(p.formats, rank, m, 0);
    FirstBefore(defs, Zero(p.formats, m, 0), m, TypeCollisions.Suffixed(m, 0));
    FirstAlone(p, ids, rank, defs, m, TypeCollisions.Suffixed(m, 0), checked);
  }

  lemma FirstAlone(p: Parser, ids: map<string, nat>, rank: map<string, nat>, events: seq<Event>, m: string, n: string,
                   checked: bool)
    requires Known(p, ids, events) && p.timeseries == map[] && GoodIds(ids) && n != m
    requires LayoutTheorems.Ranked(p.formats, rank) && Storable(p.formats, m) && m in ids
    requires Flatten(p.formats, p.formats.Keys, p.formats[m].fields).Ok?
    requires KnownAs(events + [Zero(p.formats, m, 0)], m) == m
    requires FormatsIn(events + [Zero(p.formats, m, 0)]) == FormatsIn(events)
    ensures var e := Zero(p.formats, m, 0); var r := Feed(p, Packet(ids, e), checked);
      && r.Ok? && Known(r.value, ids, events + [e]) && r.value.formats == p.formats && n !in r.value.timeseries
  {
    FirstOpens(p, ids, rank, events, m, 0, m, checked);
  }

  lemma FirstBefore(defs: seq<Event>, e: Event, m: string, n: string)
    requires DefinitionsLegal(defs) && e.Sampled? && e.typeName == m && e.multiId == 0 &&
      n == TypeCollisions.Suffixed(m, 0)
    ensures KnownAs(defs + [e], m) == m && Before(defs + [e], m, 0) && FormatsIn(defs + [e]) == FormatsIn(defs)
    ensures n != m
  {
    NoSamples(defs, m);
    NoSamples(defs, n);
    assert |n| > |m|;
    LastOf(defs, e);
  }

  lemma MeetingFails(p: Parser, ids: map<string, nat>, rank: map<string, nat>, defs: seq<Event>, m: string,
                     checked: bool)
    requires DefinitionsLegal(defs) && Known(p, ids, defs) && p.timeseries == map[] && GoodIds(ids)
    requires LayoutTheorems.Ranked(p.formats, rank) && Storable(p.formats, m) &&
      Storable(p.formats, TypeCollisions.Suffixed(m, 0))
    requires m in ids && TypeCollisions.Suffixed(m, 0) in ids &&
      Columns(p.formats, m) != Columns(p.formats, TypeCollisions.Suffixed(m, 0))
    ensures Flatten(p.formats, p.formats.Keys, p.formats[m].fields).Ok?
    ensures Flatten(p.formats, p.formats.Keys, p.formats[TypeCollisions.Suffixed(m, 0)].fields).Ok?
    ensures
      var columns := Columns(p.formats, TypeCollisions.Suffixed(m, 0));
      var pair := Meeting(p.formats, m, Columns(p.formats, m) < columns);
      FeedAll(p, Packets(ids, [Zero(p.formats, m, 0)] + pair), checked).Err?
  {
    var fm, n := p.formats, TypeCollisions.Suffixed(m, 0);
    ZeroLegal(fm, rank, n, 0);
    ZeroLegal(fm, rank, m, 1);
    MeetingReady(p, ids, rank, defs, m, checked);
    var e, pair := Zero(fm, m, 0), Meeting(fm, m, Columns(fm, m) < Columns(fm, n));
    var r := Feed(p, Packet(ids, e), checked).value;
    ClashFails(r, ids, rank, defs + [e], m, 0, Zero(fm, m, 1), Zero(fm, n, 0), checked);
    OneFed(p, ids, e, pair, checked);
  }

  /** What is made of a run's output is what is made of its samples behind the definitions. */
  lemma TailOutput(start: nat, steps: seq<Step>, defs: seq<Event>, tail: seq<Event>, checked: bool)
    requires start < Pow256(8) && DefinitionsLegal(defs)
    requires Disciplined(steps) && FitsIds(Run(steps)) && Run(steps).events == defs + tail
    ensures var ids := MsgIds(Run(steps));
      && FeedAll(NewParser(), Stream(start, ids, defs), checked).Ok?
      && FeedAll(NewParser(), Output(start, Run(steps)), checked) ==
         FeedAll(FeedAll(NewParser(), Stream(start, ids, defs), checked).value, Packets(ids, tail), checked)
  {
    RunIds(steps);
    OutputIs(start, steps);
    TailFed(start, MsgIds(Run(steps)), defs, tail, checked);
  }

  /** A run whose samples fail behind the definitions is not accepted. */
  lemma TailRejected(start: nat, steps: seq<Step>, defs: seq<Event>, tail: seq<Event>, checked: bool)
    requires start < Pow256(8) && DefinitionsLegal(defs)
    requires Disciplined(steps) && FitsIds(Run(steps)) && Run(steps).events == defs + tail
    requires var p := FeedAll(NewParser(), Stream(start, MsgIds(Run(steps)), defs), checked);
      p.Ok? ==> FeedAll(p.value, Packets(MsgIds(Run(steps)), tail), checked).Err?
    ensures !Accepted(NewParser(), Output(start, Run(steps)), checked)
  {
    TailOutput(start, steps, defs, tail, checked);
  }

  /** What a clash leads to: one caller's calls, in order, whose stream is rejected. */
  lemma MeetingRejected(start: nat, rank: map<string, nat>, defs: seq<Event>, m: string, checked: bool)
      returns (calls: seq<Call>)
    requires start < Pow256(8) && DefinitionsLegal(defs)
    requires LayoutTheorems.Ranked(FormatsIn(defs), rank) && Storable(FormatsIn(defs), m) &&
      Storable(FormatsIn(defs), TypeCollisions.Suffixed(m, 0))
    requires Columns(FormatsIn(defs), m) != Columns(FormatsIn(defs), TypeCollisions.Suffixed(m, 0))
    ensures var w := Run(SerialSteps(calls));
      && Disciplined(SerialSteps(calls)) && FitsIds(w) && FormatsIn(w.events) == FormatsIn(defs)
      && !Accepted(NewParser(), Output(start, w), checked)
  {
    var fm := FormatsIn(defs);
    var instanceFirst := Columns(fm, m) < Columns(fm, TypeCollisions.Suffixed(m, 0));
    calls := MeetingRun(defs, rank, m, instanceFirst);
    MetRejected(start, rank, defs, m, SerialSteps(calls), instanceFirst, checked);
  }

  lemma MetRejected(start: nat, rank: map<string, nat>, defs: seq<Event>, m: string, steps: seq<Step>,
                    instanceFirst: bool,
                    checked: bool)
    requires start < Pow256(8) && DefinitionsLegal(defs)
    requires LayoutTheorems.Ranked(FormatsIn(defs), rank) && Storable(FormatsIn(defs), m) &&
      Storable(FormatsIn(defs), TypeCollisions.Suffixed(m, 0))
    requires Columns(FormatsIn(defs), m) != Columns(FormatsIn(defs), TypeCollisions.Suffixed(m, 0))
    requires instanceFirst == (Columns(FormatsIn(defs), m) < Columns(FormatsIn(defs), TypeCollisions.Suffixed(m, 0)))
    requires var fm := FormatsIn(defs);
      && Flatten(fm, fm.Keys, fm[m].fields).Ok? && Flatten(fm, fm.Keys, fm[TypeCollisions.Suffixed(m, 0)].fields).Ok?
      && RunOf(steps, fm, defs + Met(fm, m, instanceFirst), m, TypeCollisions.Suffixed(m, 0))
    ensures !Accepted(NewParser(), Output(start, Run(steps)), checked)
  {
    var ids := MsgIds(Run(steps));
    DefinitionsFed(start, ids, defs, checked);
    MeetingFails(FeedAll(NewParser(), Stream(start, ids, defs), checked).value, ids, rank, defs, m, checked);
    TailRejected(start, steps, defs, Met(FormatsIn(defs), m, instanceFirst), checked);
  }

  lemma ClashOf(fm: Formats, bound: nat) returns (m: string, k: nat)
    requires !NoClash(fm, bound)
    ensures Storable(fm, m) && k < bound && Storable(fm, TypeCollisions.Suffixed(m, k))
    ensures Columns(fm, m) != Columns(fm, TypeCollisions.Suffixed(m, k))
  {
    m, k :| Storable(fm, m) && 0 <= k < bound && Storable(fm, TypeCollisions.Suffixed(m, k)) &&
      Columns(fm, m) != Columns(fm, TypeCollisions.Suffixed(m, k));
  }

  lemma CallsRefute(start: nat, fm: Formats, calls: seq<Call>, checked: bool)
    requires Disciplined(SerialSteps(calls)) && FitsIds(Run(SerialSteps(calls)))
    requires FormatsIn(Run(SerialSteps(calls)).events) == fm
    requires !Accepted(NewParser(), Output(start, Run(SerialSteps(calls))), checked)
    ensures !SerialAlwaysAccepted(start, fm, checked)
  {
  }

  lemma NoClashAccepted(start: nat, rank: map<string, nat>, fm: Formats, checked: bool)
    requires start < Pow256(8) && LayoutTheorems.Ranked(fm, rank) && NoClash(fm, 1)
    ensures SerialAlwaysAccepted(start, fm, checked)
  {
    forall calls: seq<Call> | Disciplined(SerialSteps(calls)) && FitsIds(Run(SerialSteps(calls))) &&
                              FormatsIn(Run(SerialSteps(calls)).events) == fm
      ensures Accepted(NewParser(), Output(start, Run(SerialSteps(calls))), checked)
    {
      SerialAccepted(start, calls, rank, checked);
    }
  }

  lemma MeetingRefutes(start: nat, rank: map<string, nat>, defs: seq<Event>, m: string, checked: bool)
    requires start < Pow256(8) && DefinitionsLegal(defs)
    requires LayoutTheorems.Ranked(FormatsIn(defs), rank) && Storable(FormatsIn(defs), m) &&
      Storable(FormatsIn(defs), TypeCollisions.Suffixed(m, 0))
    requires Columns(FormatsIn(defs), m) != Columns(FormatsIn(defs), TypeCollisions.Suffixed(m, 0))
    ensures !SerialAlwaysAccepted(start, FormatsIn(defs), checked)
  {
    var calls := MeetingRejected(start, rank, defs, m, checked);
    CallsRefute(start, FormatsIn(defs), calls, checked);
  }

  lemma ClashRejected(start: nat, rank: map<string, nat>, defs: seq<Event>, bound: nat, checked: bool)
    requires start < Pow256(8) && DefinitionsLegal(defs) && LayoutTheorems.Ranked(FormatsIn(defs), rank)
    requires bound == 1 && !NoClash(FormatsIn(defs), bound)
    ensures !SerialAlwaysAccepted(start, FormatsIn(defs), checked)
  {
    var m, k := ClashOf(FormatsIn(defs), bound);
    assert k == 0;
    MeetingRefutes(start, rank, defs, m, checked);
  }

  /** One caller at a time: everything done in order is accepted if and only if no type is named like instance 0 of a
      type with more or fewer columns. */
  lemma SerialAcceptedIff(start: nat, rank: map<string, nat>, defs: seq<Event>, checked: bool)
    requires start < Pow256(8) && DefinitionsLegal(defs) && LayoutTheorems.Ranked(FormatsIn(defs), rank)
    ensures SerialAlwaysAccepted(start, FormatsIn(defs), checked) <==> NoClash(FormatsIn(defs), 1)
  {
    var fm := FormatsIn(defs);
    if NoClash(fm, 1) {
      NoClashAccepted(start, rank, fm, checked);
    } else {
      ClashRejected(start, rank, defs, 1, checked);
    }
  }
}
