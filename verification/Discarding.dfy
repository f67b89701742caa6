/** What is dropped before the streamer runs: without the discard thread nothing, with it everything behind the
    definitions that it gets hold of. */
module Discarding {
  import opened Streamer
  import I = StreamerInvariants
  import T = StreamerTheorems
  import E = SyncEnds
  import P = Payloads

  // ---- without the thread ----

  predicate OnlyMainTakes(q: Stream) {
    q.discard.Absent? && q.taken == q.dequeued
  }

  lemma StepTakes(w: World, a: Action)
    requires OnlyMainTakes(w.stream)
    ensures OnlyMainTakes(Step(w, a).stream)
  {
  }

  lemma {:induction false} RunTakes(actions: seq<Action>)
    ensures OnlyMainTakes(Run(Start(false), actions).stream)
  {
    if actions != [] {
      RunTakes(actions[..|actions| - 1]);
      StepTakes(Run(Start(false), actions[..|actions| - 1]), actions[|actions| - 1]);
    }
  }

  /** Without real time every message behind the definitions goes to `main_loop` or still lies in the queue. */
  lemma NothingDropped(actions: seq<Action>)
    ensures var w := Run(Start(false), actions);
      w.stream.produced == w.s.definitions + w.stream.dequeued + w.stream.queue
  {
    RunTakes(actions);
    T.StreamConservation(false, actions);
  }

  // ---- with it ----

  /** The messages that `main_loop` did not get, and the one that the discard thread is about to take. */
  function Dropped(q: Stream): int {
    |q.taken| - |q.dequeued|
  }

  function Pending(q: Stream): nat {
    if q.discard.Drop? then 1 else 0
  }

  lemma StepDrops(w: World, a: Action)
    ensures Dropped(w.stream) <= Dropped(Step(w, a).stream)
    ensures w.s.running ==>
      Step(w, a).s.running && Dropped(Step(w, a).stream) + Pending(Step(w, a).stream) <=
                              Dropped(w.stream) + Pending(w.stream)
  {
    if a.SyncStep? { SyncDrops(w); }
    if a.HandlerStep? { assert Step(w, a).stream == w.stream; }
  }

  lemma SyncDrops(w: World)
    ensures var v := SyncLoop(w);
      (w.s.running ==> v.s.running) && v.stream.taken == w.stream.taken && v.stream.dequeued == w.stream.dequeued &&
      v.stream.discard == w.stream.discard
  {
    match w.s.sync {
      case Loop =>
      case Send(_) =>
      case Sleep =>
      case _ =>
    }
  }

  /** From where the streamer runs, whatever follows, the discard thread drops at most one message more: the one it was
      about to take. */
  lemma {:induction false} DropsOneMore(rt: bool, actions: seq<Action>, more: seq<Action>)
    requires Run(Start(rt), actions).s.running
    ensures var w, v := Run(Start(rt), actions), Run(Start(rt), actions + more);
      && v.s.running && Dropped(w.stream) <= Dropped(v.stream)
      && Dropped(v.stream) + Pending(v.stream) <= Dropped(w.stream) + Pending(w.stream)
  {
    if more == [] {
      assert actions + more == actions;
    } else {
      DropsOneMore(rt, actions, more[..|more| - 1]);
      assert (actions + more)[..|actions + more| - 1] == actions + more[..|more| - 1];
      StepDrops(Run(Start(rt), actions + more[..|more| - 1]), more[|more| - 1]);
    }
  }

  /** At the test of `running_`, while that is not set. */
  predicate Discards(w: World) {
    w.s.discarding && !w.s.running && w.stream.discard.Check?
  }

  /** `a` was dropped from the queue. */
  predicate DroppedFrom(w: World, v: World, a: seq<Message>) {
    && v.s == w.s && v.stream.dequeued == w.stream.dequeued && v.stream.produced == w.stream.produced
    && w.stream.queue == a + v.stream.queue && v.stream.taken == w.stream.taken + a
  }

  lemma DropsFirst(w: World)
    requires Discards(w) && w.stream.queue != []
    ensures var v := Run(w, [DiscardStep, DiscardStep, DiscardStep]);
      Discards(v) && DroppedFrom(w, v, [w.stream.queue[0]]) && |v.stream.queue| < |w.stream.queue|
  {
    E.RunThree(w, DiscardStep, DiscardStep, DiscardStep);
  }

  lemma DroppedOn(w: World, v: World, u: World, a: seq<Message>, b: seq<Message>)
    requires DroppedFrom(w, v, a) && DroppedFrom(v, u, b)
    ensures DroppedFrom(w, u, a + b)
  {
    assert a + (b + u.stream.queue) == a + b + u.stream.queue;
    assert w.stream.taken + a + b == w.stream.taken + (a + b);
  }

  lemma DroppedAll(w: World, first: seq<Action>, rest: seq<Action>, m: Message)
    requires DroppedFrom(w, Run(w, first), [m])
    requires DroppedFrom(Run(w, first), Run(Run(w, first), rest), Run(w, first).stream.queue)
    ensures DroppedFrom(w, Run(w, first + rest), w.stream.queue)
  {
    var v := Run(w, first);
    E.RunAppend(w, first, rest);
    DroppedOn(w, v, Run(v, rest), [m], v.stream.queue);
  }

  lemma {:induction false} DropsQueue(w: World) returns (more: seq<Action>)
    requires Discards(w)
    ensures DroppedFrom(w, Run(w, more), w.stream.queue)
    decreases |w.stream.queue|
  {
    if w.stream.queue == [] { return []; }
    var three := [DiscardStep, DiscardStep, DiscardStep];
    DropsFirst(w);
    var rest := DropsQueue(Run(w, three));
    DroppedAll(w, three, rest, w.stream.queue[0]);
    more := three + rest;
  }

  lemma BeginsToDiscard(w: World) returns (more: seq<Action>)
    requires w.s.discarding && !w.s.running && w.stream.discard.Wait?
    ensures var v := Run(w, more); Discards(v) && v.s == w.s && v.stream == w.stream.(discard := Check)
  {
    more := [DiscardStep];
    E.RunOne(w, DiscardStep);
  }

  /** Nothing has been taken, and the discard thread waits. */
  predicate Untouched(q: Stream, messages: seq<Message>) {
    q.produced == messages && q.taken == [] && q.dequeued == [] && q.discard.Wait?
  }

  lemma AllEnqueued(messages: seq<Message>)
    requires forall i :: 0 <= i < |messages| ==> |messages[i]| >= 3
    ensures var w := Run(Start(true), P.Enqueues(messages));
      E.Sound(w) && I.Collecting(w.s) && Untouched(w.stream, messages)
  {
    P.AllQueued(true, messages);
    P.QueuesAll(true, messages);
  }

  lemma CollectsAll(messages: seq<Message>) returns (actions: seq<Action>)
    requires forall i :: 0 <= i < |messages| ==> |messages[i]| >= 3
    requires !T.NoData(messages)
    ensures var w := Run(Start(true), actions); E.Sound(w) && w.s.sync.Loop? && Untouched(w.stream, messages)
  {
    AllEnqueued(messages);
    var all := P.Enqueues(messages);
    var collect := E.Collects(Run(Start(true), all));
    E.RunAppend(Start(true), all, collect);
    actions := all + collect;
  }

  lemma LoopDiscards(w: World, messages: seq<Message>)
    requires E.Sound(w) && w.s.sync.Loop? && Untouched(w.stream, messages)
    ensures w.s.discarding && !w.s.running && w.s.definitions == T.LeadingDefinitions(messages)
    ensures w.stream.queue == messages[|T.LeadingDefinitions(messages)|..]
  {
    E.LeadingAre(w);
    assert w.s.definitions + [] + w.stream.queue == messages;
  }

  /** In real time there is a run in which all data that was enqueued is dropped before the streamer runs. */
  lemma AllDropped(messages: seq<Message>) returns (actions: seq<Action>)
    requires forall i :: 0 <= i < |messages| ==> |messages[i]| >= 3
    requires !T.NoData(messages)
    ensures var w := Run(Start(true), actions);
      && w.stream.produced == messages && w.stream.queue == [] && w.stream.dequeued == [] && !w.s.running
      && w.s.definitions == T.LeadingDefinitions(messages)
      && w.stream.taken == messages[|T.LeadingDefinitions(messages)|..]
  {
    actions := CollectsAll(messages);
    var w := Run(Start(true), actions);
    LoopDiscards(w, messages);
    var begin := BeginsToDiscard(w);
    var drop := DropsQueue(Run(w, begin));
    E.RunAppend(w, begin, drop);
    E.RunAppend(Start(true), actions, begin + drop);
    actions := actions + (begin + drop);
    assert [] + w.stream.queue == w.stream.queue;
    TailEmpty(w.stream.queue, Run(Start(true), actions).stream.queue);
  }

  lemma TailEmpty(a: seq<Message>, b: seq<Message>)
    requires a == a + b
    ensures b == []
  {
    assert |a| == |a| + |b|;
  }
}
