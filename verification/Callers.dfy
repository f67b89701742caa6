/** The API as its concurrent callers see it. Storing a sample takes three steps that each happen under a lock of their
    own: the message id, the multi id, and the enqueueing; the steps of different calls interleave at will. Every other
    call only enqueues. */
module Callers {
  import opened Bytes
  import opened Outcomes
  import opened Encoder
  import Allocation
  import opened Events
  import Streams

  datatype Call = Store(typeName: string, annotation: string, timestamp: nat, data: seq<byte>) | Say(event: Event)

  /** What a call does next. */
  datatype Stage =
    | MsgIdNext                               // get_msg_id
    | MultiIdNext(msgId: nat)                 // get_multi_id
    | EnqueueNext(msgId: nat, multiId: nat)   // to_io
    | Returned

  datatype Caller = Caller(call: Call, stage: Stage)

  /** The id tables, the calls begun so far, and the queue behind header and flags. */
  datatype World = World(
    api: Api, callers: seq<Caller>, queue: seq<seq<byte>>,
    events: seq<Event>,              // what the messages in the queue were built from
    order: seq<nat>,                 // which call each came from
    names: seq<string>,              // the types that asked for a message id, in turn
    taken: seq<(string, string)>)    // the instances that asked for a multi id, in turn

  datatype Step = Begin(call: Call) | Advance(caller: nat)

  const START := World(NEW_API, [], [], [], [], [], [])

  function TableOf(a: Api, msgId: nat): Ids {
    if msgId in a.multiIds then a.multiIds[msgId] else NO_IDS
  }

  /** One step; a call that has returned takes none. */
  function Take(w: World, s: Step): World {
    match s
    case Begin(call) => w.(callers := w.callers + [Caller(call, if call.Store? then MsgIdNext else EnqueueNext(0, 0))])
    case Advance(i) => if i < |w.callers| then Proceed(w, i, w.callers[i].call) else w
  }

  function Proceed(w: World, i: nat, call: Call): World
    requires i < |w.callers|
  {
    match w.callers[i].stage
    case MsgIdNext => if call.Store? then TakeMsgId(w, i, call.typeName) else w
    case MultiIdNext(msgId) => if call.Store? then TakeMultiId(w, i, msgId, call.typeName, call.annotation) else w
    case EnqueueNext(msgId, multiId) => Enqueue(w, i, Built(call, msgId, multiId))
    case Returned => w
  }

  function Moved(callers: seq<Caller>, i: nat, stage: Stage): seq<Caller>
    requires i < |callers|
  {
    callers[i := callers[i].(stage := stage)]
  }

  function TakeMsgId(w: World, i: nat, name: string): World
    requires i < |w.callers|
  {
    var msgIds := WithId(w.api.msgIds, name, MSG_IDS);
    w.(api := w.api.(msgIds := msgIds), callers := Moved(w.callers, i, MultiIdNext(msgIds.ids[name])),
       names := w.names + [name])
  }

  function TakeMultiId(w: World, i: nat, msgId: nat, name: string, annotation: string): World
    requires i < |w.callers|
  {
    var table := WithId(TableOf(w.api, msgId), annotation, MULTI_IDS);
    w.(api := w.api.(multiIds := w.api.multiIds[msgId := table]),
       callers := Moved(w.callers, i, EnqueueNext(msgId, table.ids[annotation])),
       taken := w.taken + [(name, annotation)])
  }

  /** The message of a call, given its ids, and what it is built from; nothing when an assertion fails. */
  function Built(call: Call, msgId: nat, multiId: nat): Option<(seq<byte>, Event)> {
    match call
    case Store(name, _, timestamp, data) =>
      var r := PacketBytes(multiId, msgId, name, timestamp, data);
      if r.Ok? && r.value.Some? then Some((r.value.value, Sampled(name, multiId, timestamp, data))) else None
    case Say(e) => if e.Sampled? || Packet(map[], e) == [] then None else Some((Packet(map[], e), e))
  }

  function Enqueue(w: World, i: nat, m: Option<(seq<byte>, Event)>): World
    requires i < |w.callers|
  {
    var v := w.(callers := Moved(w.callers, i, Returned));
    if m.None? then v
    else v.(queue := w.queue + [m.value.0], events := w.events + [m.value.1], order := w.order + [i])
  }

  function Run(steps: seq<Step>): World {
    if steps == [] then START else Take(Run(steps[..|steps| - 1]), steps[|steps| - 1])
  }

  function MsgIds(w: World): map<string, nat> {
    w.api.msgIds.ids
  }

  // ---- the queue holds the packets of the events, under the ids of now and of later ----

  /** The ids a call has taken are those the tables hold. */
  predicate Knows(a: Api, c: Caller) {
    c.call.Store? ==>
      match c.stage
      case MultiIdNext(id) => c.call.typeName in a.msgIds.ids && a.msgIds.ids[c.call.typeName] == id
      case EnqueueNext(id, multi) =>
        c.call.typeName in a.msgIds.ids && a.msgIds.ids[c.call.typeName] == id &&
        c.call.annotation in TableOf(a, id).ids && TableOf(a, id).ids[c.call.annotation] == multi
      case _ => true
  }

  /** `b` holds every id of `a`. */
  ghost predicate Extends(a: Api, b: Api) {
    && (forall n :: n in a.msgIds.ids ==> n in b.msgIds.ids && b.msgIds.ids[n] == a.msgIds.ids[n])
    && (forall id, n :: n in TableOf(a, id).ids ==>
          n in TableOf(b, id).ids && TableOf(b, id).ids[n] == TableOf(a, id).ids[n])
  }

  predicate Sendable(ids: map<string, nat>, e: Event) {
    e.Sampled? ==> e.typeName in ids && |e.data| >= 8
  }

  predicate QueueKnown(w: World) {
    w.queue == Packets(MsgIds(w), w.events) && forall j :: 0 <= j < |w.events| ==> Sendable(MsgIds(w), w.events[j])
  }

  predicate CallersKnow(w: World) {
    forall i :: 0 <= i < |w.callers| ==> Knows(w.api, w.callers[i])
  }

  predicate Bounded(t: Ids, modulus: nat) {
    t.cntr < modulus && forall n :: n in t.ids ==> t.ids[n] < modulus
  }

  predicate ApiBounded(a: Api) {
    Bounded(a.msgIds, MSG_IDS) && forall id :: id in a.multiIds ==> Bounded(a.multiIds[id], MULTI_IDS)
  }

  ghost predicate Inv(w: World) {
    QueueKnown(w) && CallersKnow(w) && ApiBounded(w.api) && w.api.msgIds == Allocation.AfterCalls(w.names, MSG_IDS) &&
    |w.order| == |w.events|
  }

  lemma ExtendKnows(a: Api, b: Api, c: Caller)
    requires Extends(a, b) && Knows(a, c)
    ensures Knows(b, c)
  {
  }

  lemma PacketKept(ids: map<string, nat>, more: map<string, nat>, e: Event)
    requires Sendable(ids, e) && forall n :: n in ids ==> n in more && more[n] == ids[n]
    ensures Packet(more, e) == Packet(ids, e)
  {
  }

  lemma PacketsKept(ids: map<string, nat>, more: map<string, nat>, events: seq<Event>)
    requires forall j :: 0 <= j < |events| ==> Sendable(ids, events[j])
    requires forall n :: n in ids ==> n in more && more[n] == ids[n]
    ensures Packets(more, events) == Packets(ids, events)
  {
    forall j | 0 <= j < |events| ensures Packet(more, events[j]) == Packet(ids, events[j]) {
      PacketKept(ids, more, events[j]);
    }
  }

  lemma MovedKnow(w: World, v: World, i: nat, stage: Stage)
    requires CallersKnow(w) && i < |w.callers| && Extends(w.api, v.api) && v.callers == Moved(w.callers, i, stage)
    requires Knows(v.api, v.callers[i])
    ensures CallersKnow(v)
  {
    forall j | 0 <= j < |v.callers| ensures Knows(v.api, v.callers[j]) {
      if j != i { ExtendKnows(w.api, v.api, w.callers[j]); }
    }
  }

  lemma BeginKeepsInv(w: World, call: Call)
    requires Inv(w)
    ensures Inv(Take(w, Begin(call)))
  {
    var v := Take(w, Begin(call));
    forall j | 0 <= j < |v.callers| ensures Knows(v.api, v.callers[j]) {
      if j < |w.callers| { assert v.callers[j] == w.callers[j]; }
    }
  }

  lemma MsgIdKeepsInv(w: World, i: nat)
    requires Inv(w) && i < |w.callers| && w.callers[i].call.Store? && w.callers[i].stage == MsgIdNext
    ensures Inv(TakeMsgId(w, i, w.callers[i].call.typeName))
    ensures Extends(w.api, TakeMsgId(w, i, w.callers[i].call.typeName).api)
  {
    var name := w.callers[i].call.typeName;
    var v := TakeMsgId(w, i, name);
    assert (w.names + [name])[..|w.names|] == w.names;
    PacketsKept(MsgIds(w), MsgIds(v), w.events);
    MovedKnow(w, v, i, MultiIdNext(MsgIds(v)[name]));
  }

  lemma MultiIdKeepsInv(w: World, i: nat, msgId: nat)
    requires Inv(w) && i < |w.callers| && w.callers[i].call.Store? && w.callers[i].stage == MultiIdNext(msgId)
    ensures var v := TakeMultiId(w, i, msgId, w.callers[i].call.typeName, w.callers[i].call.annotation);
      Inv(v) && Extends(w.api, v.api)
  {
    var call := w.callers[i].call;
    var v := TakeMultiId(w, i, msgId, call.typeName, call.annotation);
    assert Knows(w.api, w.callers[i]);
    MovedKnow(w, v, i, v.callers[i].stage);
  }

  lemma BuiltIs(call: Call, msgId: nat, multiId: nat, ids: map<string, nat>)
    requires Built(call, msgId, multiId).Some? && (call.Store? ==> call.typeName in ids && ids[call.typeName] == msgId)
    ensures var m := Built(call, msgId, multiId).value; m.0 == Packet(ids, m.1) && Sendable(ids, m.1)
  {
  }

  lemma EnqueueKeepsInv(w: World, i: nat, msgId: nat, multiId: nat)
    requires Inv(w) && i < |w.callers| && w.callers[i].stage == EnqueueNext(msgId, multiId)
    ensures Inv(Enqueue(w, i, Built(w.callers[i].call, msgId, multiId)))
  {
    var m := Built(w.callers[i].call, msgId, multiId);
    var v := Enqueue(w, i, m);
    assert Knows(w.api, w.callers[i]);
    MovedKnow(w, v, i, Returned);
    if m.Some? {
      BuiltIs(w.callers[i].call, msgId, multiId, MsgIds(w));
      Streams.PacketsNext(MsgIds(w), w.events, m.value.1);
    }
  }

  lemma TakeKeepsInv(w: World, s: Step)
    requires Inv(w)
    ensures Inv(Take(w, s)) && Extends(w.api, Take(w, s).api)
  {
    match s {
      case Begin(call) => BeginKeepsInv(w, call);
      case Advance(i) =>
        if i < |w.callers| {
          match w.callers[i].stage {
            case MsgIdNext => if w.callers[i].call.Store? { MsgIdKeepsInv(w, i); }
            case MultiIdNext(id) => if w.callers[i].call.Store? { MultiIdKeepsInv(w, i, id); }
            case EnqueueNext(id, multi) => EnqueueKeepsInv(w, i, id, multi);
            case Returned =>
          }
        }
    }
  }

  /** In every interleaving the queue holds exactly the packets of its events, under the ids that the tables hold now
      and will hold ever after. */
  lemma {:induction false} RunKeepsInv(steps: seq<Step>)
    ensures Inv(Run(steps))
  {
    if steps == [] {
      assert Packets(map[], []) == [];
    } else {
      RunKeepsInv(steps[..|steps| - 1]);
      TakeKeepsInv(Run(steps[..|steps| - 1]), steps[|steps| - 1]);
    }
  }

  /** With at most 65536 types each has an id of its own. */
  lemma RunIds(steps: seq<Step>)
    requires |Allocation.FirstSeen(Run(steps).names)| <= 65536
    ensures GoodIds(MsgIds(Run(steps)))
  {
    RunKeepsInv(steps);
    Allocation.IdsInjectiveIff(Run(steps).names, MSG_IDS);
  }
}
