/** The instances of a type: their multi ids in every interleaving of callers, and the names their data is delivered
    under. */
module Instances {
  import opened Outcomes
  import Text
  import opened Encoder
  import opened Allocation
  import TypeCollisions
  import Events
  import Streams
  import opened Callers

  /** The annotations with which type `n` asked for a multi id, in turn. */
  function AnnotationsTaken(taken: seq<(string, string)>, n: string): seq<string> {
    if taken == [] then []
    else
      var before, last := AnnotationsTaken(taken[..|taken| - 1], n), taken[|taken| - 1];
      if last.0 == n then before + [last.1] else before
  }

  lemma TakenNext(taken: seq<(string, string)>, name: string, annotation: string, n: string)
    ensures AnnotationsTaken(taken + [(name, annotation)], n) ==
      if name == n then AnnotationsTaken(taken, n) + [annotation] else AnnotationsTaken(taken, n)
  {
    assert (taken + [(name, annotation)])[..|taken|] == taken;
  }

  lemma CallsNext(names: seq<string>, name: string, modulus: nat)
    requires modulus > 0
    ensures AfterCalls(names + [name], modulus) == WithId(AfterCalls(names, modulus), name, modulus)
  {
    assert (names + [name])[..|names|] == names;
  }

  // ---- the tables of multi ids ----

  /** Type `n` has a table of its own annotations alone. */
  predicate TableFollows(w: World, n: string) {
    if n in MsgIds(w) then TableOf(w.api, MsgIds(w)[n]) == AfterCalls(AnnotationsTaken(w.taken, n), MULTI_IDS)
    else AnnotationsTaken(w.taken, n) == []
  }

  /** Only ids given to a type have a table. */
  predicate TablesOwned(a: Api) {
    forall id :: id in a.multiIds ==> id in a.msgIds.ids.Values
  }

  /** Each sample carries the multi id of its call's annotation. */
  predicate EventsFrom(w: World) {
    |w.order| == |w.events| &&
    forall j :: 0 <= j < |w.events| && w.events[j].Sampled? ==> EventFrom(w, w.order[j], w.events[j])
  }

  predicate EventFrom(w: World, i: nat, e: Events.Event)
    requires e.Sampled?
  {
    i < |w.callers| && w.callers[i].call.Store? && w.callers[i].call.typeName == e.typeName &&
    w.callers[i].call.timestamp == e.timestamp && w.callers[i].call.data == e.data && e.typeName in MsgIds(w) &&
    var table := TableOf(w.api, MsgIds(w)[e.typeName]).ids;
    w.callers[i].call.annotation in table && table[w.callers[i].call.annotation] == e.multiId
  }

  lemma {:induction false} FirstSeenGrows(names: seq<string>, more: seq<string>)
    ensures |FirstSeen(names)| <= |FirstSeen(names + more)|
  {
    if more == [] {
      assert names + more == names;
    } else {
      assert (names + more)[..|names + more| - 1] == names + more[..|more| - 1];
      FirstSeenGrows(names, more[..|more| - 1]);
    }
  }

  lemma NamesGrow(w: World, s: Step)
    ensures |FirstSeen(w.names)| <= |FirstSeen(Take(w, s).names)|
  {
    var v := Take(w, s);
    if |v.names| > |w.names| {
      FirstSeenGrows(w.names, [v.names[|w.names|]]);
    }
  }

  lemma MsgIdFollows(w: World, i: nat, n: string)
    requires Inv(w) && i < |w.callers| && w.callers[i].call.Store? && TableFollows(w, n) && TablesOwned(w.api)
    requires TableFollows(w, w.callers[i].call.typeName)
    requires var v := TakeMsgId(w, i, w.callers[i].call.typeName); Injective(MsgIds(v))
    ensures var v := TakeMsgId(w, i, w.callers[i].call.typeName); TableFollows(v, n) && TablesOwned(v.api)
  {
    var name := w.callers[i].call.typeName;
    var v := TakeMsgId(w, i, name);
    FreshIdUnowned(w.api, MsgIds(v), name);
    forall id | id in v.api.multiIds ensures id in MsgIds(v).Values {
      var m :| m in MsgIds(w) && MsgIds(w)[m] == id;
      assert MsgIds(v)[m] == id;
    }
  }

  /** A new type's id has no table yet. */
  lemma FreshIdUnowned(a: Api, ids: map<string, nat>, n: string)
    requires TablesOwned(a) && Injective(ids) && n in ids
    requires forall m :: m in a.msgIds.ids ==> m in ids && ids[m] == a.msgIds.ids[m]
    ensures n !in a.msgIds.ids ==> ids[n] !in a.multiIds
  {
    if n !in a.msgIds.ids {
      forall m | m in a.msgIds.ids ensures a.msgIds.ids[m] != ids[n] {
        assert ids[m] == a.msgIds.ids[m];
      }
    }
  }

  lemma MultiIdFollows(w: World, i: nat, msgId: nat, n: string)
    requires Inv(w) && i < |w.callers| && w.callers[i].call.Store? && w.callers[i].stage == MultiIdNext(msgId)
    requires TableFollows(w, n) && TablesOwned(w.api) && Injective(MsgIds(w))
    ensures var v := TakeMultiId(w, i, msgId, w.callers[i].call.typeName, w.callers[i].call.annotation);
      TableFollows(v, n) && TablesOwned(v.api)
  {
    var call := w.callers[i].call;
    assert Knows(w.api, w.callers[i]);
    TakenNext(w.taken, call.typeName, call.annotation, n);
    CallsNext(AnnotationsTaken(w.taken, n), call.annotation, MULTI_IDS);
    assert MsgIds(w)[call.typeName] in MsgIds(w).Values;
  }

  lemma TakeFollows(w: World, s: Step, n: string)
    requires Inv(w) && TablesOwned(w.api) && (forall m :: TableFollows(w, m)) && Injective(MsgIds(Take(w, s)))
    ensures TableFollows(Take(w, s), n) && TablesOwned(Take(w, s).api)
  {
    TakeKeepsInv(w, s);
    assert TableFollows(w, n);
    if s.Advance? && s.caller < |w.callers| && w.callers[s.caller].call.Store? {
      var i := s.caller;
      match w.callers[i].stage {
        case MsgIdNext =>
          assert TableFollows(w, w.callers[i].call.typeName);
          MsgIdFollows(w, i, n);
        case MultiIdNext(id) => MultiIdFollows(w, i, id, n);
        case _ =>
      }
    }
  }

  lemma InjectiveBefore(w: World, s: Step)
    requires Inv(w) && |FirstSeen(Take(w, s).names)| <= MSG_IDS
    ensures Injective(MsgIds(Take(w, s))) && |FirstSeen(w.names)| <= MSG_IDS
  {
    TakeKeepsInv(w, s);
    NamesGrow(w, s);
    IdsInjectiveIff(Take(w, s).names, MSG_IDS);
  }

  /** With at most 65536 types the multi ids of a type come from a table of its own annotations alone, in every
      interleaving. */
  lemma {:induction false} TablesFollow(steps: seq<Step>)
    requires |FirstSeen(Run(steps).names)| <= MSG_IDS
    ensures (forall n :: TableFollows(Run(steps), n)) && TablesOwned(Run(steps).api)
  {
    if steps != [] {
      var before, s := steps[..|steps| - 1], steps[|steps| - 1];
      RunKeepsInv(before);
      InjectiveBefore(Run(before), s);
      TablesFollow(before);
      forall n ensures TableFollows(Run(steps), n) { TakeFollows(Run(before), s, n); }
      TakeFollows(Run(before), s, "");
    }
  }

  // ---- the multi id of a sample ----

  lemma EventFromKept(w: World, v: World, i: nat, e: Events.Event)
    requires e.Sampled? && EventFrom(w, i, e) && Extends(w.api, v.api) && |w.callers| <= |v.callers|
    requires v.callers[i].call == w.callers[i].call
    ensures EventFrom(v, i, e)
  {
  }

  lemma CallsKept(w: World, s: Step)
    ensures var v := Take(w, s);
      |w.callers| <= |v.callers| && forall i :: 0 <= i < |w.callers| ==> v.callers[i].call == w.callers[i].call
  {
  }

  lemma EnqueuedFrom(w: World, i: nat, msgId: nat, multiId: nat)
    requires Inv(w) && i < |w.callers| && w.callers[i].stage == EnqueueNext(msgId, multiId)
    requires Built(w.callers[i].call, msgId, multiId).Some? && Built(w.callers[i].call, msgId, multiId).value.1.Sampled?
    ensures EventFrom(w, i, Built(w.callers[i].call, msgId, multiId).value.1)
  {
    assert Knows(w.api, w.callers[i]);
  }

  /** The calls of `w` go on, and at most one more message was enqueued, from one of them. */
  ghost predicate Continues(w: World, v: World) {
    && Extends(w.api, v.api) && |w.callers| <= |v.callers|
    && (forall i :: 0 <= i < |w.callers| ==> v.callers[i].call == w.callers[i].call)
    && |w.order| == |w.events| && |v.order| == |v.events| && AtMostOneMore(w, v)
  }

  ghost predicate AtMostOneMore(w: World, v: World) {
    || (v.events == w.events && v.order == w.order)
    || exists i: nat, e :: v.events == w.events + [e] && v.order == w.order + [i] && (e.Sampled? ==> EventFrom(w, i, e))
  }

  lemma ContinuedFrom(w: World, v: World)
    requires EventsFrom(w) && Continues(w, v)
    ensures EventsFrom(v)
  {
    forall j | 0 <= j < |v.events| && v.events[j].Sampled? ensures EventFrom(v, v.order[j], v.events[j]) {
      if j < |w.events| { assert v.events[j] == w.events[j] && v.order[j] == w.order[j]; }
      EventFromKept(w, v, v.order[j], v.events[j]);
    }
  }

  lemma EnqueueOneMore(w: World, i: nat, msgId: nat, multiId: nat)
    requires Inv(w) && i < |w.callers| && w.callers[i].stage == EnqueueNext(msgId, multiId)
    ensures AtMostOneMore(w, Enqueue(w, i, Built(w.callers[i].call, msgId, multiId)))
  {
    var m := Built(w.callers[i].call, msgId, multiId);
    if m.Some? {
      var e := m.value.1;
      if e.Sampled? { EnqueuedFrom(w, i, msgId, multiId); }
      assert Enqueue(w, i, m).events == w.events + [e] && Enqueue(w, i, m).order == w.order + [i];
    }
  }

  lemma TakeOneMore(w: World, s: Step)
    requires Inv(w)
    ensures AtMostOneMore(w, Take(w, s))
  {
    if s.Advance? && s.caller < |w.callers| && w.callers[s.caller].stage.EnqueueNext? {
      var stage := w.callers[s.caller].stage;
      EnqueueOneMore(w, s.caller, stage.msgId, stage.multiId);
    }
  }

  lemma TakeContinues(w: World, s: Step)
    requires Inv(w)
    ensures Continues(w, Take(w, s))
  {
    TakeKeepsInv(w, s);
    CallsKept(w, s);
    TakeOneMore(w, s);
  }

  lemma {:induction false} RunEventsFrom(steps: seq<Step>)
    ensures EventsFrom(Run(steps))
  {
    if steps != [] {
      RunEventsFrom(steps[..|steps| - 1]);
      RunKeepsInv(steps[..|steps| - 1]);
      TakeContinues(Run(steps[..|steps| - 1]), steps[|steps| - 1]);
      ContinuedFrom(Run(steps[..|steps| - 1]), Run(steps));
    }
  }

  function IndexOf(s: seq<string>, a: string): (i: nat)
    ensures i <= |s| && (a in s ==> i < |s| && s[i] == a)
  {
    if s == [] || s[0] == a then 0 else 1 + IndexOf(s[1..], a)
  }

  /** In every interleaving a sample's multi id is the place of its annotation among those its type asked ids for, in
      eight bits. */
  lemma SampleInstance(steps: seq<Step>, j: nat)
    requires |FirstSeen(Run(steps).names)| <= 65536 && j < |Run(steps).events| && Run(steps).events[j].Sampled?
    ensures var w := Run(steps);
      && |w.order| == |w.events| && w.order[j] < |w.callers| && w.callers[w.order[j]].call.Store?
      && var asked := FirstSeen(AnnotationsTaken(w.taken, w.events[j].typeName));
         var annotation := w.callers[w.order[j]].call.annotation;
         annotation in asked && w.events[j].multiId == IndexOf(asked, annotation) % 256
  {
    var w := Run(steps);
    RunEventsFrom(steps);
    TablesFollow(steps);
    var e := w.events[j];
    assert EventFrom(w, w.order[j], e) && TableFollows(w, e.typeName);
    CallsAreSequential(AnnotationsTaken(w.taken, e.typeName), MULTI_IDS);
  }

  /** Message id and multi id together tell the instances of a type apart, in every interleaving, if and only if the
      type has at most 256 of them. */
  lemma InstancesDistinctIff(steps: seq<Step>, n: string)
    requires |FirstSeen(Run(steps).names)| <= 65536
    ensures var w := Run(steps); var asked := AnnotationsTaken(w.taken, n);
      && (n in MsgIds(w) ==> TableOf(w.api, MsgIds(w)[n]) == AfterCalls(asked, MULTI_IDS))
      && (|FirstSeen(asked)| <= 256 <==> Injective(AfterCalls(asked, MULTI_IDS).ids))
  {
    TablesFollow(steps);
    assert TableFollows(Run(steps), n);
    IdsInjectiveIff(AnnotationsTaken(Run(steps).taken, n), MULTI_IDS);
  }

  // ---- the names of delivered samples ----

  /** The first message of type `n`. */
  function FirstSample(events: seq<Events.Event>, n: string): Option<nat> {
    if events == [] then None
    else
      var before, k := FirstSample(events[..|events| - 1], n), |events| - 1;
      if before.Some? then before else if events[k].Sampled? && events[k].typeName == n then Some(k) else None
  }

  lemma {:induction false} FirstSampleIs(events: seq<Events.Event>, n: string)
    ensures FirstSample(events, n).Some? <==> Streams.FirstInstance(events, n).Some?
    ensures FirstSample(events, n).Some? ==>
      var j := FirstSample(events, n).value;
      && j < |events| && events[j].Sampled? && events[j].typeName == n
      && events[j].multiId == Streams.FirstInstance(events, n).value
  {
    if events != [] { FirstSampleIs(events[..|events| - 1], n); }
  }

  lemma SuffixIs(n: string, j: nat, k: nat)
    ensures TypeCollisions.Suffixed(n, j) == TypeCollisions.Suffixed(n, k) <==> j == k
    ensures TypeCollisions.Suffixed(n, j) != n && TypeCollisions.Suffixed(n, 0) == n + ".00"
  {
    assert |TypeCollisions.Suffixed(n, j)| > |n|;
    assert Text.Dec2(0) == "00";
    if TypeCollisions.Suffixed(n, j) == TypeCollisions.Suffixed(n, k) {
      assert Text.Dec2(j) == TypeCollisions.Suffixed(n, j)[|n| + 1..];
      assert Text.Dec2(k) == TypeCollisions.Suffixed(n, k)[|n| + 1..];
      Text.Dec2Injective(j, k);
    }
  }

  /** The name under which data of type `n` is delivered: the type's own as long as every sample enqueued is of
      instance 0; else that of the instance whose sample was enqueued first, for every instance. It is `n.00` if and
      only if there is another instance and the first sample enqueued is of one that asked for its id in turn 0
      (or 256, 512, ...). */
  lemma DeliveredNames(steps: seq<Step>, n: string)
    requires |FirstSeen(Run(steps).names)| <= 65536 && FirstSample(Run(steps).events, n).Some?
    ensures var w := Run(steps); var j := FirstSample(w.events, n).value;
      && j < |w.events| == |w.order| && w.order[j] < |w.callers| && w.callers[w.order[j]].call.Store?
      && var turn := IndexOf(FirstSeen(AnnotationsTaken(w.taken, n)), w.callers[w.order[j]].call.annotation);
         && Streams.KnownAs(w.events, n) ==
              (if Streams.HasInstances(w.events, n) then TypeCollisions.Suffixed(n, turn % 256) else n)
         && (Streams.KnownAs(w.events, n) == n + ".00" <==> Streams.HasInstances(w.events, n) && turn % 256 == 0)
  {
    var w := Run(steps);
    FirstSampleIs(w.events, n);
    var j := FirstSample(w.events, n).value;
    SampleInstance(steps, j);
    SuffixIs(n, w.events[j].multiId, 0);
  }
}
