/** Which messages can leave as LOGGING_DATA packets. */
module Payloads {
  import opened Streamer
  import I = StreamerInvariants
  import T = StreamerTheorems
  import E = SyncEnds

  // ---- what leaves fits, and was taken ----

  predicate SentTaken(q: Stream) {
    && (forall m :: m in q.datagrams ==> |m| <= 249 && m in q.dequeued)
    && (forall m :: m in q.dequeued ==> m in q.taken)
    && (q.main.Handling? ==> q.main.message in q.dequeued)
  }

  lemma MainSendsTaken(q: Stream, running: bool, state: StreamerState)
    requires SentTaken(q)
    ensures SentTaken(MainLoop(q, running, state))
  {
  }

  lemma StepSendsTaken(w: World, a: Action)
    requires SentTaken(w.stream)
    ensures SentTaken(Step(w, a).stream)
  {
    if a.MainStep? { MainSendsTaken(w.stream, w.s.running, w.s.state); }
  }

  /** In every run each datagram fits the payload, and is a message that `main_loop` took from the queue. */
  lemma {:induction false} RunSendsTaken(rt: bool, actions: seq<Action>)
    ensures SentTaken(Run(Start(rt), actions).stream)
  {
    if actions != [] {
      RunSendsTaken(rt, actions[..|actions| - 1]);
      StepSendsTaken(Run(Start(rt), actions[..|actions| - 1]), actions[|actions| - 1]);
    }
  }

  // ---- a run that sends all it can ----

  function Enqueues(messages: seq<Message>): seq<Action> {
    if messages == [] then []
    else Enqueues(messages[..|messages| - 1]) + [Enqueue(messages[|messages| - 1])]
  }

  /** These messages are queued, and nothing else has happened. */
  function Queued(rt: bool, messages: seq<Message>): World {
    Start(rt).(stream := Start(rt).stream.(queue := messages, produced := messages))
  }

  lemma QueuesOne(rt: bool, before: seq<Message>, m: Message)
    requires |m| >= 3
    ensures Step(Queued(rt, before), Enqueue(m)) == Queued(rt, before + [m])
  {
  }

  lemma {:induction false} QueuesAll(rt: bool, messages: seq<Message>)
    requires forall i :: 0 <= i < |messages| ==> |messages[i]| >= 3
    ensures Run(Start(rt), Enqueues(messages)) == Queued(rt, messages)
  {
    if messages != [] {
      var before, m := messages[..|messages| - 1], messages[|messages| - 1];
      QueuesAll(rt, before);
      T.RunThen(Start(rt), Enqueues(before), Enqueue(m));
      QueuesOne(rt, before, m);
      assert before + [m] == messages;
    }
  }

  function Fitting(messages: seq<Message>): set<Message> {
    set m | m in messages && |m| <= 249
  }

  /** `main_loop` is about to look at the queue, having seen RUNNING. */
  predicate Streaming(w: World) {
    w.s.running && w.stream.main == Draining(RUNNING)
  }

  lemma SendsFirst(w: World)
    requires Streaming(w) && w.stream.queue != []
    ensures var v := Run(w, [MainStep, MainStep, MainStep]); var m := w.stream.queue[0];
      && Streaming(v) && v.stream.queue == w.stream.queue[1..] && v.stream.produced == w.stream.produced
      && v.stream.datagrams == w.stream.datagrams + if |m| <= 249 then {m} else {}
  {
    E.RunThree(w, MainStep, MainStep, MainStep);
    var u := Step(w, MainStep);
    assert u.stream == w.stream.(main := Dequeuing(RUNNING));
    assert Step(u, MainStep).stream.main == Handling(RUNNING, w.stream.queue[0]);
  }

  lemma {:induction false} Drains(w: World) returns (more: seq<Action>)
    requires Streaming(w)
    ensures var v := Run(w, more).stream;
      v.datagrams == w.stream.datagrams + Fitting(w.stream.queue) && v.produced == w.stream.produced
    decreases |w.stream.queue|
  {
    more := [];
    if w.stream.queue != [] {
      var three := [MainStep, MainStep, MainStep];
      SendsFirst(w);
      var rest := Drains(Run(w, three));
      E.RunAppend(w, three, rest);
      more := three + rest;
      assert w.stream.queue == [w.stream.queue[0]] + w.stream.queue[1..];
    }
  }

  lemma StartsStreaming(w: World)
    requires w.s.running && w.s.state == RUNNING && w.stream.main.Idle?
    ensures var v := Run(w, [MainStep, MainStep]); Streaming(v) && v.stream == w.stream.(main := Draining(RUNNING))
  {
    E.RunTwo(w, MainStep, MainStep);
  }

  /** `main_loop` sends what fits of the queue. */
  lemma SendsQueue(w: World) returns (more: seq<Action>)
    requires w.s.running && w.s.state == RUNNING && w.stream.main.Idle?
    ensures var q := Run(w, more).stream;
      q.datagrams == w.stream.datagrams + Fitting(w.stream.queue) && q.produced == w.stream.produced
  {
    var start := [MainStep, MainStep];
    StartsStreaming(w);
    var drain := Drains(Run(w, start));
    E.RunAppend(w, start, drain);
    more := start + drain;
  }

  /** What is so when the first loop has just ended and nothing was taken. */
  lemma HasCollected(w: World)
    requires E.Sound(w) && w.s.sync.Loop? && w.handler.Free? && w.stream.taken == []
    requires I.Fits(T.LeadingDefinitions(w.stream.produced))
    ensures E.AtLoop(w, w.s.seq_) && w.stream.datagrams == {}
    ensures w.stream.queue == w.stream.produced[|T.LeadingDefinitions(w.stream.produced)|..]
  {
    E.LeadingAre(w);
    E.RunsAfterEnd(w);
    assert w.stream.produced == w.s.definitions + w.stream.queue;
  }

  /** From the first loop to the end of `sync_loop`, leaving the queue alone. */
  lemma Synchronises(w: World) returns (more: seq<Action>)
    requires E.Sound(w) && I.Collecting(w.s) && w.handler.Free? && w.stream.main.Idle? && w.stream.taken == []
    requires !T.NoData(w.stream.produced) && I.Fits(T.LeadingDefinitions(w.stream.produced))
    ensures var v := Run(w, more); var d := T.LeadingDefinitions(w.stream.produced);
      && v.s.running && v.s.state == RUNNING && v.stream.main.Idle? && v.stream.produced == w.stream.produced
      && v.stream.queue == w.stream.produced[|d|..] && v.stream.datagrams == {} && v.handler.Free?
  {
    more := E.Collects(w);
    var v := Run(w, more);
    HasCollected(v);
    var out := E.RunsOut(v);
    E.RunAppend(w, more, out);
    more := more + out;
  }

  lemma SynchronisesAndSends(w: World) returns (more: seq<Action>)
    requires E.Sound(w) && I.Collecting(w.s) && w.handler.Free? && w.stream.main.Idle? && w.stream.taken == []
    requires !T.NoData(w.stream.produced) && I.Fits(T.LeadingDefinitions(w.stream.produced))
    ensures var q := Run(w, more).stream; var d := T.LeadingDefinitions(w.stream.produced);
      q.produced == w.stream.produced && q.datagrams == Fitting(w.stream.produced[|d|..])
  {
    var sync := Synchronises(w);
    var send := SendsQueue(Run(w, sync));
    E.RunAppend(w, sync, send);
    more := sync + send;
  }

  lemma AllQueued(rt: bool, messages: seq<Message>)
    requires forall i :: 0 <= i < |messages| ==> |messages[i]| >= 3
    ensures var w := Run(Start(rt), Enqueues(messages));
      && E.Sound(w) && I.Collecting(w.s) && w.handler.Free? && w.stream.main.Idle? && w.stream.taken == []
      && w.stream.produced == messages
  {
    QueuesAll(rt, messages);
    E.RunSound(rt, Enqueues(messages));
  }

  /** When the definitions fit there is a run in which every message from the first data packet on that fits leaves. */
  lemma SendsFitting(rt: bool, messages: seq<Message>) returns (actions: seq<Action>)
    requires forall i :: 0 <= i < |messages| ==> |messages[i]| >= 3
    requires !T.NoData(messages) && I.Fits(T.LeadingDefinitions(messages))
    ensures var q := Run(Start(rt), actions).stream;
      q.produced == messages && q.datagrams == Fitting(messages[|T.LeadingDefinitions(messages)|..])
  {
    AllQueued(rt, messages);
    actions := Enqueues(messages);
    var rest := SynchronisesAndSends(Run(Start(rt), actions));
    E.RunAppend(Start(rt), actions, rest);
    actions := actions + rest;
  }

  // ---- exactly which ---

  /** Some run over these messages, in this order, sends `m` as data. */
  ghost predicate CanBeSent(rt: bool, messages: seq<Message>, m: Message) {
    exists actions :: var q := Run(Start(rt), actions).stream; q.produced <= messages && m in q.datagrams
  }

  lemma SentFits(rt: bool, actions: seq<Action>, messages: seq<Message>, m: Message)
    requires var q := Run(Start(rt), actions).stream; q.produced <= messages && m in q.datagrams
    ensures var d := T.LeadingDefinitions(messages);
      |m| <= 249 && m in messages[|d|..] && I.Fits(d) && !T.NoData(messages)
  {
    RunSendsTaken(rt, actions);
    E.RunSound(rt, actions);
    var w := Run(Start(rt), actions);
    E.RunsAfterEnd(w);
    E.EndedFits(w);
    TakenBehind(w.s.definitions, w.stream.taken, w.stream.queue, w.stream.produced, messages, m);
  }

  lemma TakenBehind(definitions: seq<Message>, taken: seq<Message>, queue: seq<Message>, produced: seq<Message>,
                    messages: seq<Message>, m: Message)
    requires produced == definitions + taken + queue && produced <= messages && m in taken
    requires T.NoData(definitions) && |definitions| < |produced| && CheckUlogDataBegin(produced[|definitions|])
    ensures T.LeadingDefinitions(messages) == definitions && m in messages[|definitions|..] && !T.NoData(messages)
  {
    var n := |definitions|;
    assert messages[..n] == produced[..n] == definitions;
    assert messages[n] == produced[n];
    T.LeadingIs(messages, n);
    var i :| 0 <= i < |taken| && taken[i] == m;
    assert messages[n..][i] == produced[n + i] == m;
  }

  /** A message can leave as data, in some run, if and only if it is enqueued from the first data packet on, fits the
      payload, and so does every message before that packet. */
  lemma CanBeSentIff(rt: bool, messages: seq<Message>, m: Message)
    requires forall i :: 0 <= i < |messages| ==> |messages[i]| >= 3
    ensures CanBeSent(rt, messages, m) <==>
      var d := T.LeadingDefinitions(messages); m in messages[|d|..] && |m| <= 249 && I.Fits(d)
  {
    var d := T.LeadingDefinitions(messages);
    if CanBeSent(rt, messages, m) {
      var actions :| var q := Run(Start(rt), actions).stream; q.produced <= messages && m in q.datagrams;
      SentFits(rt, actions, messages, m);
    }
    if m in messages[|d|..] && |m| <= 249 && I.Fits(d) {
      assert CheckUlogDataBegin(messages[|d|]);
      var actions := SendsFitting(rt, messages);
      assert m in Fitting(messages[|d|..]);
    }
  }
}
