/** Stopping the stream and starting it again. */
module StopStart {
  import opened Streamer
  import I = StreamerInvariants
  import T = StreamerTheorems
  import E = SyncEnds
  import P = Payloads

  /** What a command leads to when the router handles it undisturbed: the first start connects, and sets the target;
      from then on the target's address, and no other, stops the running stream and starts the stopped one. */
  lemma CommandHandled(w: World, start: bool, from: Address)
    requires w.handler.Free? && 1 <= from.group < 256 && 1 <= from.instance < 256
    ensures var first := start && w.s.state == INIT;
      Run(w, [CommandArrives(start, from), HandlerStep]) ==
      w.(target := if first then from else w.target,
         s := w.s.(state :=
           if first then CONNECTED
           else if start && w.s.state == STOPPED && from == w.target then RUNNING
           else if !start && w.s.state == RUNNING && from == w.target then STOPPED
           else w.s.state))
  {
    E.RunTwo(w, CommandArrives(start, from), HandlerStep);
  }

  // ---- the target ----

  predicate Below256(a: Address) {
    a.group < 256 && a.instance < 256
  }

  lemma StepTargets(w: World, a: Action)
    requires Below256(w.target)
    ensures Below256(Step(w, a).target)
  {
  }

  lemma {:induction false} RunTargets(rt: bool, actions: seq<Action>)
    ensures Below256(Run(Start(rt), actions).target)
  {
    if actions != [] {
      RunTargets(rt, actions[..|actions| - 1]);
      StepTargets(Run(Start(rt), actions[..|actions| - 1]), actions[|actions| - 1]);
    }
  }

  /** Commands can come from the target of a streamer that had definitions to send. */
  lemma TargetCommands(rt: bool, actions: seq<Action>)
    requires var s := Run(Start(rt), actions).s; s.state != INIT && s.definitions != []
    ensures var t := Run(Start(rt), actions).target; 1 <= t.group < 256 && 1 <= t.instance < 256
  {
    I.Reaches(rt, actions);
    RunTargets(rt, actions);
  }

  // ---- messages while stopped ----

  /** `main_loop` is about to look at the queue, having seen STOPPED. */
  predicate Stopped(w: World) {
    w.s.running && w.s.state == STOPPED && w.stream.main == Draining(STOPPED)
  }

  lemma SkipsFirst(w: World)
    requires Stopped(w) && w.stream.queue != []
    ensures Run(w, [MainStep, MainStep, MainStep]) ==
      w.(stream := w.stream.(queue := w.stream.queue[1..], taken := w.stream.taken + [w.stream.queue[0]],
                             dequeued := w.stream.dequeued + [w.stream.queue[0]], skipCntr := w.stream.skipCntr + 1))
  {
    E.RunThree(w, MainStep, MainStep, MainStep);
    var u := Step(w, MainStep);
    assert u.stream == w.stream.(main := Dequeuing(STOPPED));
    assert Step(u, MainStep).stream.main == Handling(STOPPED, w.stream.queue[0]);
  }

  /** Only the queue was emptied, into the count of skipped messages. */
  predicate AllSkipped(w: World, v: World) {
    && v.stream.queue == [] && v.stream.skipCntr == w.stream.skipCntr + |w.stream.queue|
    && v.stream.datagrams == w.stream.datagrams && v.stream.sendCntr == w.stream.sendCntr
    && v.stream.produced == w.stream.produced && v.s == w.s && v.target == w.target && v.handler == w.handler
  }

  lemma {:induction false} Skips(w: World) returns (more: seq<Action>)
    requires Stopped(w)
    ensures var v := Run(w, more); AllSkipped(w, v) && v.stream.main.Idle?
    decreases |w.stream.queue|
  {
    if w.stream.queue == [] {
      more := [MainStep];
      E.RunOne(w, MainStep);
    } else {
      var three := [MainStep, MainStep, MainStep];
      SkipsFirst(w);
      var rest := Skips(Run(w, three));
      E.RunAppend(w, three, rest);
      more := three + rest;
    }
  }

  lemma SkipsQueue(w: World) returns (more: seq<Action>)
    requires w.s.running && w.s.state == STOPPED && w.stream.main.Idle?
    ensures var v := Run(w, more); AllSkipped(w, v) && v.stream.main.Idle?
  {
    var look := [MainStep, MainStep];
    E.RunTwo(w, MainStep, MainStep);
    var skip := Skips(Run(w, look));
    E.RunAppend(w, look, skip);
    more := look + skip;
  }

  // ---- a stop and a start ----

  /** Streaming, with nothing under way. */
  predicate AtRest(w: World) {
    w.s.running && w.stream.main.Idle? && w.handler.Free?
  }

  function Commanded(start: bool, from: Address): seq<Action> {
    [CommandArrives(start, from), HandlerStep]
  }

  lemma SendsOne(w: World, m: Message) returns (more: seq<Action>)
    requires AtRest(w) && w.s.state == RUNNING && w.stream.queue == [] && 3 <= |m| <= 249
    ensures Run(w, more).stream.datagrams == w.stream.datagrams + {m}
  {
    var enqueue := [Enqueue(m)];
    E.RunOne(w, Enqueue(m));
    assert [] + [m] == [m];
    var send := P.SendsQueue(Run(w, enqueue));
    E.RunAppend(w, enqueue, send);
    more := enqueue + send;
    assert P.Fitting([m]) == {m};
  }

  /** Stopped by its target, a streamer skips what is queued; started by it again, it sends what comes. */
  lemma StopsAndStarts(w: World, m: Message) returns (skip: seq<Action>, send: seq<Action>)
    requires AtRest(w) && w.s.state == RUNNING && 1 <= w.target.group < 256 && 1 <= w.target.instance < 256
    requires 3 <= |m| <= 249
    ensures
      var stopped := Run(w, Commanded(false, w.target));
      var idle := Run(stopped, skip);
      var started := Run(idle, Commanded(true, w.target));
      && stopped.s.state == STOPPED && AllSkipped(stopped, idle) && started.s.state == RUNNING
      && Run(started, send).stream.datagrams == w.stream.datagrams + {m}
  {
    var stopped := Run(w, Commanded(false, w.target));
    CommandHandled(w, false, w.target);
    skip := SkipsQueue(stopped);
    var idle := Run(stopped, skip);
    CommandHandled(idle, true, w.target);
    send := SendsOne(Run(idle, Commanded(true, w.target)), m);
  }

  /** From the start: definitions that fit are sent, a stop and a start from the target follow, and the next message
      leaves as data. */
  lemma SendsBehindStart(rt: bool, messages: seq<Message>, m: Message)
      returns (sync: seq<Action>, skip: seq<Action>, send: seq<Action>)
    requires forall i :: 0 <= i < |messages| ==> |messages[i]| >= 3
    requires !T.NoData(messages) && T.LeadingDefinitions(messages) != [] && I.Fits(T.LeadingDefinitions(messages))
    requires 3 <= |m| <= 249
    ensures
      var w := Run(Start(rt), sync);
      var stop, start := Commanded(false, w.target), Commanded(true, w.target);
      && w.s.state == RUNNING && w.stream.datagrams == {}
      && Run(Start(rt), sync + stop).s.state == STOPPED
      && Run(Start(rt), sync + stop + skip + start).s.state == RUNNING
      && Run(Start(rt), sync + stop + skip + start + send).stream.datagrams == {m}
  {
    P.AllQueued(rt, messages);
    var all := P.Enqueues(messages);
    var synchronise := P.Synchronises(Run(Start(rt), all));
    E.RunAppend(Start(rt), all, synchronise);
    sync := all + synchronise;
    var w := Run(Start(rt), sync);
    HasDefinitions(rt, sync);
    TargetCommands(rt, sync);
    skip, send := StopsAndStarts(w, m);
    var stop, start := Commanded(false, w.target), Commanded(true, w.target);
    E.RunAppend(Start(rt), sync, stop);
    E.RunAppend(Start(rt), sync + stop, skip);
    E.RunAppend(Start(rt), sync + stop + skip, start);
    E.RunAppend(Start(rt), sync + stop + skip + start, send);
  }

  lemma HasDefinitions(rt: bool, actions: seq<Action>)
    requires var w := Run(Start(rt), actions); w.s.running && T.LeadingDefinitions(w.stream.produced) != []
    ensures Run(Start(rt), actions).s.definitions != []
  {
    E.RunSound(rt, actions);
    E.LeadingAre(Run(Start(rt), actions));
    E.RunsAfterEnd(Run(Start(rt), actions));
  }
}
