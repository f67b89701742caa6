/** What the parser makes of everything concurrent callers of the API produce. */
module ApiStream {
  import Bytes
  import opened Outcomes
  import LayoutTheorems
  import Samples
  import Parser
  import opened Encoder
  import Allocation
  import SharedSeries
  import opened Events
  import opened Streams
  import opened EndToEnd
  import opened Callers

  // ---- callers that keep to the order ----

  predicate Registers(c: Caller) {
    c.call.Say? && c.call.event.Formatted?
  }

  /** A call may begin: a store when every registration has returned, a registration before any store, a logged
      message when some sample is stored; and its arguments are legal. */
  predicate MayBegin(w: World, call: Call) {
    match call
    case Store(name, _, timestamp, data) =>
      Legal(FormatsIn(w.events), Sampled(name, 0, timestamp, data)) &&
      forall i :: 0 <= i < |w.callers| && Registers(w.callers[i]) ==> w.callers[i].stage.Returned?
    case Say(e) =>
      !e.Sampled? && Legal(map[], e) && (e.Logged? ==> Started(w.events)) &&
      (e.Formatted? ==> forall i :: 0 <= i < |w.callers| ==> !w.callers[i].call.Store?)
  }

  /** Every call in the run began when it might. */
  predicate Disciplined(steps: seq<Step>) {
    steps != [] ==>
      var before, s := steps[..|steps| - 1], steps[|steps| - 1];
      Disciplined(before) && (s.Begin? ==> MayBegin(Run(before), s.call))
  }

  predicate CallerLegal(events: seq<Event>, c: Caller) {
    match c.call
    case Store(name, _, timestamp, data) => Legal(FormatsIn(events), Sampled(name, 0, timestamp, data))
    case Say(e) => !e.Sampled? && Legal(map[], e) && (e.Logged? ==> Started(events))
  }

  predicate CallersLegal(w: World) {
    forall i :: 0 <= i < |w.callers| ==> CallerLegal(w.events, w.callers[i])
  }

  /** No store has begun while a registration is under way, and none before the first sample is none at all. */
  predicate Separate(w: World) {
    && (forall i, j ::
          0 <= i < |w.callers| && 0 <= j < |w.callers| && w.callers[i].call.Store? && Registers(w.callers[j]) ==>
          w.callers[j].stage.Returned?)
    && (Started(w.events) ==> exists i :: 0 <= i < |w.callers| && w.callers[i].call.Store?)
  }

  predicate Orderly(w: World) {
    OrderKept(w.events) && LegalRun(MsgIds(w), w.events) && CallersLegal(w) && Separate(w)
  }

  lemma {:induction false} LegalRunExtends(ids: map<string, nat>, more: map<string, nat>, events: seq<Event>)
    requires LegalRun(ids, events) && forall n :: n in ids ==> n in more
    ensures LegalRun(more, events)
  {
    if events != [] { LegalRunExtends(ids, more, events[..|events| - 1]); }
  }

  lemma BeginLegal(w: World, call: Call)
    requires CallersLegal(w) && MayBegin(w, call)
    ensures CallersLegal(Take(w, Begin(call)))
  {
    var v := Take(w, Begin(call));
    forall i | 0 <= i < |v.callers| ensures CallerLegal(v.events, v.callers[i]) {
      if i < |w.callers| { assert v.callers[i] == w.callers[i]; }
    }
  }

  lemma BeginSeparate(w: World, call: Call)
    requires Separate(w) && MayBegin(w, call)
    ensures Separate(Take(w, Begin(call)))
  {
    var v := Take(w, Begin(call));
    assert forall i :: 0 <= i < |w.callers| ==> v.callers[i] == w.callers[i];
    if Started(w.events) {
      var i :| 0 <= i < |w.callers| && w.callers[i].call.Store?;
      assert v.callers[i].call.Store?;
    }
  }

  lemma BeginOrderly(w: World, call: Call)
    requires Orderly(w) && MayBegin(w, call)
    ensures Orderly(Take(w, Begin(call)))
  {
    BeginLegal(w, call);
    BeginSeparate(w, call);
  }

  lemma MoveSeparate(w: World, v: World, i: nat, stage: Stage)
    requires Separate(w) && i < |w.callers| && v.callers == Moved(w.callers, i, stage) && v.events == w.events
    requires Registers(w.callers[i]) ==> stage.Returned?
    ensures Separate(v)
  {
    assert forall j :: 0 <= j < |v.callers| ==> v.callers[j].call == w.callers[j].call;
    if Started(w.events) {
      var j :| 0 <= j < |w.callers| && w.callers[j].call.Store?;
      assert v.callers[j].call.Store?;
    }
  }

  /** A step that moves a call on without enqueueing. */
  lemma MoveOrderly(w: World, v: World, i: nat, stage: Stage)
    requires Orderly(w) && i < |w.callers| && v.callers == Moved(w.callers, i, stage) && v.events == w.events
    requires forall n :: n in MsgIds(w) ==> n in MsgIds(v)
    requires Registers(w.callers[i]) ==> stage.Returned?
    ensures Orderly(v)
  {
    LegalRunExtends(MsgIds(w), MsgIds(v), w.events);
    MoveSeparate(w, v, i, stage);
    forall j | 0 <= j < |v.callers| ensures CallerLegal(v.events, v.callers[j]) {
      assert v.callers[j].call == w.callers[j].call && CallerLegal(w.events, w.callers[j]);
    }
  }

  /** While a registration is under way no store has begun. */
  lemma RegistrationFirst(w: World, i: nat)
    requires Separate(w) && i < |w.callers| && Registers(w.callers[i]) && !w.callers[i].stage.Returned?
    ensures !Started(w.events) && forall j :: 0 <= j < |w.callers| ==> !w.callers[j].call.Store?
  {
  }

  /** The message a call enqueues is legal where it comes to stand. */
  lemma EnqueuedLegal(w: World, i: nat, msgId: nat, multiId: nat)
    requires Inv(w) && Orderly(w) && i < |w.callers| && w.callers[i].stage == EnqueueNext(msgId, multiId)
    requires Built(w.callers[i].call, msgId, multiId).Some?
    ensures var e := Built(w.callers[i].call, msgId, multiId).value.1;
      && Legal(FormatsIn(w.events), e) && (e.Sampled? ==> e.typeName in MsgIds(w) && w.callers[i].call.Store?)
      && (e.Formatted? ==> !Started(w.events)) && (e.Logged? ==> Started(w.events))
  {
    assert CallerLegal(w.events, w.callers[i]);
    assert Knows(w.api, w.callers[i]);
    assert Bounded(TableOf(w.api, msgId), MULTI_IDS);
    var e := Built(w.callers[i].call, msgId, multiId).value.1;
    if e.Formatted? { RegistrationFirst(w, i); }
  }

  /** Calls stay legal when a message is enqueued: formats only change while no store has begun. */
  lemma CallersStayLegal(w: World, e: Event)
    requires CallersLegal(w)
    requires e.Formatted? && !Started(w.events) ==> forall i :: 0 <= i < |w.callers| ==> !w.callers[i].call.Store?
    ensures forall i :: 0 <= i < |w.callers| ==> CallerLegal(w.events + [e], w.callers[i])
  {
    LastOf(w.events, e);
    forall i | 0 <= i < |w.callers| ensures CallerLegal(w.events + [e], w.callers[i]) {
      assert CallerLegal(w.events, w.callers[i]);
    }
  }

  lemma NothingEnqueued(w: World, i: nat)
    requires Orderly(w) && i < |w.callers|
    ensures Orderly(Enqueue(w, i, None))
  {
    MoveOrderly(w, Enqueue(w, i, None), i, Returned);
  }

  /** A legal message in its place keeps the run orderly. */
  lemma MessageOrderly(w: World, v: World, e: Event)
    requires Orderly(w) && v.callers == w.callers && v.api == w.api && v.events == w.events + [e]
    requires Legal(FormatsIn(w.events), e) && (e.Sampled? ==> e.typeName in MsgIds(w))
    requires e.Sampled? ==> exists i :: 0 <= i < |w.callers| && w.callers[i].call.Store?
    requires (e.Formatted? ==> !Started(w.events)) && (e.Logged? ==> Started(w.events))
    requires e.Formatted? ==> forall i :: 0 <= i < |w.callers| ==> !w.callers[i].call.Store?
    ensures Orderly(v)
  {
    LastOf(w.events, e);
    CallersStayLegal(w, e);
  }

  lemma EnqueueOrderly(w: World, i: nat, msgId: nat, multiId: nat)
    requires Inv(w) && Orderly(w) && i < |w.callers| && w.callers[i].stage == EnqueueNext(msgId, multiId)
    ensures Orderly(Enqueue(w, i, Built(w.callers[i].call, msgId, multiId)))
  {
    var m := Built(w.callers[i].call, msgId, multiId);
    var u, v := Enqueue(w, i, None), Enqueue(w, i, m);
    NothingEnqueued(w, i);
    if m.Some? {
      EnqueuedLegal(w, i, msgId, multiId);
      if m.value.1.Formatted? { RegistrationFirst(w, i); }
      assert u.callers[i].call == w.callers[i].call;
      MessageOrderly(u, v, m.value.1);
    }
  }

  lemma TakeOrderly(w: World, s: Step)
    requires Inv(w) && Orderly(w) && (s.Begin? ==> MayBegin(w, s.call))
    ensures Orderly(Take(w, s))
  {
    match s {
      case Begin(call) => BeginOrderly(w, call);
      case Advance(i) =>
        if i < |w.callers| {
          var call := w.callers[i].call;
          match w.callers[i].stage {
            case MsgIdNext =>
              if call.Store? { MoveOrderly(w, Take(w, s), i, Take(w, s).callers[i].stage); }
            case MultiIdNext(id) =>
              if call.Store? { MoveOrderly(w, Take(w, s), i, Take(w, s).callers[i].stage); }
            case EnqueueNext(id, multi) => EnqueueOrderly(w, i, id, multi);
            case Returned =>
          }
        }
    }
  }

  /** Calls that begin in order leave their messages in order, however their steps interleave. */
  lemma {:induction false} DisciplineKeepsOrder(steps: seq<Step>)
    requires Disciplined(steps)
    ensures Orderly(Run(steps))
  {
    if steps != [] {
      DisciplineKeepsOrder(steps[..|steps| - 1]);
      RunKeepsInv(steps[..|steps| - 1]);
      TakeOrderly(Run(steps[..|steps| - 1]), steps[|steps| - 1]);
    }
  }

  // ---- whole streams ----

  /** Everything in the queue, header and flags included. */
  function Output(start: nat, w: World): seq<seq<Bytes.byte>> {
    [FileHeader(start), FLAG_BITS] + w.queue
  }

  lemma OutputIs(start: nat, steps: seq<Step>)
    ensures var w := Run(steps); Output(start, w) == Stream(start, MsgIds(w), w.events)
  {
    RunKeepsInv(steps);
  }

  /** What is asked of a run besides its order: at most 65536 types, legal messages, acyclic formats. */
  predicate LegalOutput(w: World, rank: map<string, nat>) {
    && |Allocation.FirstSeen(w.names)| <= 65536 && LegalRun(MsgIds(w), w.events)
    && (Started(w.events) ==> LayoutTheorems.Ranked(FormatsIn(w.events), rank))
  }

  /** In every interleaving: what the callers produce is accepted, by `parse` or by `check_ulog_valid`, if and only if
      formats come before the first sample and logged messages after it. */
  lemma OutputAcceptedIff(start: nat, steps: seq<Step>, rank: map<string, nat>, checked: bool)
    requires start < Bytes.Pow256(8) && LegalOutput(Run(steps), rank)
    requires Started(Run(steps).events) ==> SharedSeries.NoClash(FormatsIn(Run(steps).events), 256)
    ensures var w := Run(steps); Accepted(Parser.NewParser(), Output(start, w), checked) <==> OrderKept(w.events)
  {
    var w := Run(steps);
    OutputIs(start, steps);
    RunIds(steps);
    FirstsAreBytes(MsgIds(w), w.events);
    AcceptedIff(start, MsgIds(w), rank, w.events, SharedSeries.INSTANCES, checked);
  }

  /** The parser accepts every stream that concurrent callers produce when registrations return before the first store
      begins and logged messages begin after the first sample is stored. */
  lemma StreamAccepted(start: nat, steps: seq<Step>, rank: map<string, nat>, checked: bool)
    requires start < Bytes.Pow256(8) && Disciplined(steps) && |Allocation.FirstSeen(Run(steps).names)| <= 65536
    requires var w := Run(steps);
      var fm := FormatsIn(w.events);
      Started(w.events) ==> LayoutTheorems.Ranked(fm, rank) && SharedSeries.NoClash(fm, 256)
    ensures Accepted(Parser.NewParser(), Output(start, Run(steps)), checked)
  {
    DisciplineKeepsOrder(steps);
    OutputAcceptedIff(start, steps, rank, checked);
  }

  /** And it hands on every sample, in the order of enqueueing, with its time and exactly its leaves. */
  lemma OutputDelivered(start: nat, steps: seq<Step>, rank: map<string, nat>, samples: seq<seq<Samples.Item>>,
                        checked: bool)
    requires start < Bytes.Pow256(8) && LegalOutput(Run(steps), rank) && OrderKept(Run(steps).events)
    requires Started(Run(steps).events) ==> SharedSeries.NoMixup(FormatsIn(Run(steps).events), 256)
    requires AllSerialize(FormatsIn(Run(steps).events), Run(steps).events, samples)
    ensures var w := Run(steps); var r := FeedAll(Parser.NewParser(), Output(start, w), checked);
      r.Ok? && r.value.delivered == Repeated(Deliveries(FormatsIn(w.events), w.events, samples), checked)
  {
    var w := Run(steps);
    OutputIs(start, steps);
    RunIds(steps);
    FirstsAreBytes(MsgIds(w), w.events);
    StreamDelivered(start, MsgIds(w), rank, w.events, samples, SharedSeries.INSTANCES, checked);
  }
}
