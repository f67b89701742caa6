/** When `sync_loop` ends: it can exactly as long as every definition fits the payload of its packet, and then it does
    within a bounded number of its own steps. One definition that does not fit blocks the streamer for good. */
module SyncEnds {
  import opened Streamer
  import I = StreamerInvariants
  import T = StreamerTheorems

  // ---- what was sent fits ----

  /** Everything sent fits, the client holds nothing else, and the definition that waits for its ack has been sent. */
  ghost predicate Passed(w: World) {
    && (forall p :: p in w.net.packets ==> |p.data| <= 249)
    && I.Fits(w.net.accepted)
    && w.s.seq_ <= |w.s.definitions| && I.Fits(w.s.definitions[..w.s.seq_])
    && (I.Outstanding(w.s) ==> w.s.seq_ < |w.s.definitions| && CurrentPacket(w.s) in w.net.packets)
  }

  function CurrentPacket(s: Sender): Packet
    requires s.seq_ < |s.definitions|
  {
    DefinitionPacket(s.definitions, s.seq_)
  }

  ghost predicate Sound(w: World) {
    (I.Inv(w) || I.NothingToSync(w)) && T.Conserved(w.s, w.stream) && Passed(w)
  }

  lemma FitsNext(definitions: seq<Message>, k: nat)
    requires k < |definitions| && I.Fits(definitions[..k]) && |definitions[k]| <= 249
    ensures I.Fits(definitions[..k + 1])
  {
    assert definitions[..k + 1] == definitions[..k] + [definitions[k]];
  }

  lemma CollectPasses(w: World)
    requires I.Inv(w) && Passed(w) && I.Collecting(w.s)
    ensures Passed(SyncLoop(w))
  {
    assert SyncLoop(w).s.definitions[..0] == [];
  }

  /** A definition becomes outstanding by being sent, and only one that was is passed. */
  lemma RoundOutstanding(s: Sender)
    requires !I.Collecting(s)
    requires (s.sync.Advance? ==> s.state == ACK_RECV) && (s.sync.Increment? ==> s.state == SEND_DEF)
    ensures var t := SyncRound(s);
      I.Outstanding(t) ==> !s.sync.Increment? && (I.Outstanding(s) || (s.sync.Send? && Sendable(s)))
  {
    match s.sync {
      case Send(_) =>
      case Sent(_) =>
      case Advance =>
      case Increment =>
      case Exit(_) =>
      case _ =>
    }
  }

  lemma RoundMoves(s: Sender)
    ensures SyncRound(s).definitions == s.definitions
    ensures SyncRound(s).seq_ == (if s.sync.Increment? then s.seq_ + 1 else s.seq_)
  {
  }

  lemma RoundSends(w: World)
    requires !I.Collecting(w.s)
    ensures var v := SyncLoop(w);
      && v.s == SyncRound(w.s) && v.net.accepted == w.net.accepted
      && v.net.packets == w.net.packets + if w.s.sync.Send? && Sendable(w.s) then {CurrentPacket(w.s)} else {}
  {
  }

  lemma RoundPasses(w: World)
    requires (I.Inv(w) || I.NothingToSync(w)) && Passed(w) && !I.Collecting(w.s)
    ensures Passed(SyncLoop(w))
  {
    RoundSends(w);
    RoundControl(w);
    RoundMoves(w.s);
    RoundOutstanding(w.s);
    if w.s.sync.Increment? { FitsNext(w.s.definitions, w.s.seq_); }
  }

  lemma RoundControl(w: World)
    requires I.Inv(w) || I.NothingToSync(w)
    ensures (w.s.sync.Advance? ==> w.s.state == ACK_RECV) && (w.s.sync.Increment? ==> w.s.state == SEND_DEF)
  {
  }

  lemma HandlerPasses(w: World)
    requires (I.Inv(w) || I.NothingToSync(w)) && Passed(w)
    ensures Passed(Handler(w))
  {
    var v := Handler(w);
    assert v.net == w.net && v.s.definitions == w.s.definitions && v.s.seq_ == w.s.seq_;
    assert I.Outstanding(v.s) ==> I.Outstanding(w.s);
  }

  lemma StepPasses(w: World, a: Action)
    requires (I.Inv(w) || I.NothingToSync(w)) && Passed(w)
    ensures Passed(Step(w, a))
  {
    if a.SyncStep? {
      if I.Collecting(w.s) { CollectPasses(w); } else { RoundPasses(w); }
    } else if a.HandlerStep? {
      HandlerPasses(w);
    }
  }

  lemma StepSound(w: World, a: Action)
    requires Sound(w)
    ensures Sound(Step(w, a))
  {
    I.StepKeeps(w, a);
    T.StepConserves(w, a);
    StepPasses(w, a);
  }

  lemma {:induction false} StepsSound(w: World, more: seq<Action>)
    requires Sound(w)
    ensures Sound(Run(w, more))
  {
    if more != [] {
      StepsSound(w, more[..|more| - 1]);
      StepSound(Run(w, more[..|more| - 1]), more[|more| - 1]);
    }
  }

  lemma StartPassed(rt: bool)
    ensures Passed(Start(rt))
  {
    assert Start(rt).s.definitions[..0] == [];
  }

  lemma {:induction false} RunPasses(rt: bool, actions: seq<Action>)
    ensures Passed(Run(Start(rt), actions))
  {
    if actions == [] {
      StartPassed(rt);
    } else {
      RunPasses(rt, actions[..|actions| - 1]);
      T.RunConserves(rt, actions[..|actions| - 1]);
      StepPasses(Run(Start(rt), actions[..|actions| - 1]), actions[|actions| - 1]);
    }
  }

  lemma RunSound(rt: bool, actions: seq<Action>)
    ensures Sound(Run(Start(rt), actions))
  {
    T.RunConserves(rt, actions);
    RunPasses(rt, actions);
  }

  // ---- what cannot end ----

  /** The definitions are among the leading ones, and all of them once the first loop is left. */
  lemma LeadingAre(w: World)
    requires Sound(w)
    ensures !I.Collecting(w.s) ==> T.LeadingDefinitions(w.stream.produced) == w.s.definitions
  {
    if !I.Collecting(w.s) {
      assert w.stream.produced[..|w.s.definitions|] == w.s.definitions;
      T.LeadingIs(w.stream.produced, |w.s.definitions|);
    }
  }

  lemma EndedFits(w: World)
    requires Sound(w) && w.s.sync.Exited?
    ensures I.Fits(w.s.definitions)
  {
    assert w.s.definitions[..w.s.seq_] == w.s.definitions;
  }

  /** A definition that is too long is never sent, nor is any behind it, and the streamer never runs: `sync_loop` does
      not end, and no data leaves. */
  lemma OversizedBlocks(rt: bool, actions: seq<Action>, k: nat)
    requires var d := T.LeadingDefinitions(Run(Start(rt), actions).stream.produced);
      k < |d| && |d[k]| > 249
    ensures var w := Run(Start(rt), actions);
      !w.s.sync.Exited? && !w.s.running && w.stream.datagrams == {} && |w.net.accepted| <= k
  {
    RunSound(rt, actions);
    var w := Run(Start(rt), actions);
    LeadingAre(w);
    AcceptedAre(w);
    RunsAfterEnd(w);
    if w.s.sync.Exited? { EndedFits(w); }
    StopsBefore(w.net.accepted, T.LeadingDefinitions(w.stream.produced), k);
  }

  lemma AcceptedAre(w: World)
    requires Sound(w)
    ensures w.net.accepted <= w.s.definitions && I.Fits(w.net.accepted)
    ensures I.Collecting(w.s) ==> w.net.accepted == []
  {
  }

  lemma RunsAfterEnd(w: World)
    requires Sound(w)
    ensures (w.s.running ==> w.s.sync.Exited?) && (w.stream.datagrams != {} ==> w.s.running)
  {
  }

  lemma StopsBefore(accepted: seq<Message>, definitions: seq<Message>, k: nat)
    requires accepted <= definitions && I.Fits(accepted) && k < |definitions| && |definitions[k]| > 249
    ensures |accepted| <= k
  {
    assert forall i :: 0 <= i < |accepted| ==> accepted[i] == definitions[i];
  }

  // ---- runs that go on ----

  lemma {:induction false} RunAppend(w: World, a: seq<Action>, b: seq<Action>)
    ensures Run(w, a + b) == Run(Run(w, a), b)
  {
    if b == [] {
      assert a + b == a;
    } else {
      assert (a + b)[..|a + b| - 1] == a + b[..|b| - 1];
      RunAppend(w, a, b[..|b| - 1]);
    }
  }

  lemma RunOne(w: World, a: Action)
    ensures Run(w, [a]) == Step(w, a)
  {
    assert [a][..0] == [];
  }

  lemma RunTwo(w: World, a: Action, b: Action)
    ensures Run(w, [a, b]) == Step(Step(w, a), b)
  {
    RunOne(w, a);
    assert [a, b][..1] == [a];
  }

  lemma RunThree(w: World, a: Action, b: Action, c: Action)
    ensures Run(w, [a, b, c]) == Step(Step(Step(w, a), b), c)
  {
    RunTwo(w, a, b);
    assert [a, b, c][..2] == [a, b];
  }

  lemma RunFour(w: World, a: Action, b: Action, c: Action, d: Action)
    ensures Run(w, [a, b, c, d]) == Step(Step(Step(Step(w, a), b), c), d)
  {
    RunThree(w, a, b, c);
    assert [a, b, c, d][..3] == [a, b, c];
  }

  // ---- the first loop ----

  function CollectRank(pc: SyncPc): nat {
    match pc
    case Collect => 3
    case Front => 2
    case Take(_) => 1
    case _ => 0
  }

  /** With a data packet enqueued the first loop ends, whatever else has happened. */
  lemma {:induction false} Collects(w: World) returns (more: seq<Action>)
    requires Sound(w) && I.Collecting(w.s) && !T.NoData(w.stream.produced)
    ensures var v := Run(w, more);
      && Sound(v) && v.s.sync.Loop? && v.stream.produced == w.stream.produced && v.handler == w.handler
      && v.stream.main == w.stream.main && v.stream.taken == w.stream.taken
      && v.stream.discard == w.stream.discard && v.stream.dequeued == w.stream.dequeued
    decreases |w.stream.queue|, CollectRank(w.s.sync)
  {
    var v := Step(w, SyncStep);
    StepSound(w, SyncStep);
    RunOne(w, SyncStep);
    assert w.stream.queue == [] ==> w.stream.produced == w.s.definitions;
    if I.Collecting(v.s) {
      more := Collects(v);
      RunAppend(w, [SyncStep], more);
      more := [SyncStep] + more;
    } else {
      more := [SyncStep];
    }
  }

  // ---- the second loop, with a client that answers ----

  /** Behind the first loop, with definitions that fit. */
  ghost predicate Steady(w: World) {
    Sound(w) && !I.Collecting(w.s) && I.Fits(w.s.definitions)
  }

  /** At the head of the second loop, with no handler at work and `k` definitions acknowledged. */
  ghost predicate AtLoop(w: World, k: nat) {
    Steady(w) && w.handler.Free? && w.s.sync.Loop? && w.s.seq_ == k
  }

  /** Only the protocol went on, over the same definitions. */
  predicate Same(w: World, v: World) {
    v.s.definitions == w.s.definitions && v.stream == w.stream
  }

  lemma Connects(w: World) returns (more: seq<Action>)
    requires AtLoop(w, w.s.seq_) && w.s.state == INIT && w.s.seq_ < |w.s.definitions|
    ensures var v := Run(w, more); AtLoop(v, w.s.seq_) && Same(w, v) && v.s.state == CONNECTED
  {
    more := [CommandArrives(true, Address(1, 1)), HandlerStep];
    RunTwo(w, CommandArrives(true, Address(1, 1)), HandlerStep);
    StepsSound(w, more);
  }

  lemma Sends(w: World) returns (more: seq<Action>)
    requires AtLoop(w, w.s.seq_) && Dispatch(w.s.state).Send? && w.s.seq_ < |w.s.definitions|
    ensures var v := Run(w, more); AtLoop(v, w.s.seq_) && Same(w, v) && v.s.state == ACK_WAIT
  {
    more := [SyncStep, SyncStep, SyncStep];
    RunThree(w, SyncStep, SyncStep, SyncStep);
    StepsSound(w, more);
    ThreeSend(w);
  }

  lemma ThreeSend(w: World)
    requires w.s.sync.Loop? && Dispatch(w.s.state).Send? && Sendable(w.s)
    ensures var v := Step(Step(Step(w, SyncStep), SyncStep), SyncStep);
      && v.s.sync.Loop? && v.s.state == ACK_WAIT && v.s.seq_ == w.s.seq_ && v.handler == w.handler && Same(w, v)
  {
    var u := Step(w, SyncStep);
    assert u.s.sync == Send(w.s.state) && u.s.state == w.s.state && Sendable(u.s);
    var v := Step(u, SyncStep);
    assert v.s.sync == Sent(w.s.state) && v.s.state == w.s.state;
  }

  lemma IsAcknowledged(w: World) returns (more: seq<Action>)
    requires AtLoop(w, w.s.seq_) && w.s.state == ACK_WAIT && w.s.seq_ < |w.s.definitions|
    ensures var v := Run(w, more); AtLoop(v, w.s.seq_) && Same(w, v) && v.s.state == ACK_RECV
  {
    var p := CurrentPacket(w.s);
    more := [ClientReceives(p), AckArrives(p.sequence), HandlerStep, HandlerStep];
    RunFour(w, ClientReceives(p), AckArrives(p.sequence), HandlerStep, HandlerStep);
    StepsSound(w, more);
    FourAcknowledge(w);
  }

  lemma FourAcknowledge(w: World)
    requires w.s.state == ACK_WAIT && w.handler.Free? && w.s.seq_ < |w.s.definitions|
    requires CurrentPacket(w.s) in w.net.packets
    ensures var p := CurrentPacket(w.s);
      Step(Step(Step(Step(w, ClientReceives(p)), AckArrives(p.sequence)), HandlerStep), HandlerStep) ==
      w.(net := LoggingDataAcked(w.net, p), s := w.s.(state := ACK_RECV))
  {
    var p := CurrentPacket(w.s);
    var u := Step(Step(w, ClientReceives(p)), AckArrives(p.sequence));
    assert u == w.(net := LoggingDataAcked(w.net, p), handler := AckSeen(p.sequence));
    var v := Step(u, HandlerStep);
    assert v == u.(handler := AckCompared(p.sequence, w.s.seq_, ACK_RECV));
  }

  lemma MovesOn(w: World) returns (more: seq<Action>)
    requires AtLoop(w, w.s.seq_) && w.s.state == ACK_RECV && w.s.seq_ < |w.s.definitions|
    ensures var v := Run(w, more); AtLoop(v, w.s.seq_ + 1) && Same(w, v)
  {
    more := [SyncStep, SyncStep, SyncStep];
    RunThree(w, SyncStep, SyncStep, SyncStep);
    StepsSound(w, more);
    ThreeMove(w);
  }

  lemma ThreeMove(w: World)
    requires w.s.sync.Loop? && w.s.state == ACK_RECV && w.s.seq_ < |w.s.definitions|
    ensures var v := Step(Step(Step(w, SyncStep), SyncStep), SyncStep);
      v.s.sync.Loop? && v.s.seq_ == w.s.seq_ + 1 && v.handler == w.handler && Same(w, v)
  {
    var u := Step(w, SyncStep);
    assert u.s.sync == Advance && u.s.state == ACK_RECV && u.s.seq_ == w.s.seq_;
    var v := Step(u, SyncStep);
    assert v.s.sync == Increment && v.s.seq_ == w.s.seq_;
  }

  function StateRank(state: StreamerState): nat {
    match state
    case INIT => 4
    case ACK_WAIT => 2
    case ACK_RECV => 1
    case _ => 3
  }

  /** A client that answers gets the sender to the end of the definitions. */
  lemma {:induction false} SendsAll(w: World) returns (more: seq<Action>)
    requires AtLoop(w, w.s.seq_)
    ensures var v := Run(w, more); AtLoop(v, |w.s.definitions|) && Same(w, v)
    decreases |w.s.definitions| - w.s.seq_, StateRank(w.s.state)
  {
    if w.s.seq_ == |w.s.definitions| { return []; }
    var first: seq<Action>;
    match w.s.state {
      case INIT => first := Connects(w);
      case ACK_WAIT => first := IsAcknowledged(w);
      case ACK_RECV => first := MovesOn(w);
      case _ => first := Sends(w);
    }
    var rest := SendsAll(Run(w, first));
    RunAppend(w, first, rest);
    more := first + rest;
  }

  lemma Leaves(w: World) returns (more: seq<Action>)
    requires AtLoop(w, |w.s.definitions|)
    ensures var v := Run(w, more);
      v.s.sync.Exited? && v.s.running && v.s.state == RUNNING && v.stream == w.stream && v.handler.Free?
  {
    more := [SyncStep, SyncStep, SyncStep];
    RunThree(w, SyncStep, SyncStep, SyncStep);
    ThreeLeave(w);
  }

  lemma ThreeLeave(w: World)
    requires w.s.sync.Loop? && w.s.seq_ == |w.s.definitions|
    ensures var v := Step(Step(Step(w, SyncStep), SyncStep), SyncStep);
      v.s.sync.Exited? && v.s.running && v.s.state == RUNNING && v.stream == w.stream && v.handler == w.handler
  {
    var u := Step(w, SyncStep);
    assert u.s.sync == Exit(w.s.state) && u.s.state == w.s.state;
    var v := Step(u, SyncStep);
    assert v.s.sync == SetRunning && v.s.state == RUNNING;
  }

  /** From the head of the second loop to the end. */
  lemma RunsOut(w: World) returns (more: seq<Action>)
    requires AtLoop(w, w.s.seq_)
    ensures var v := Run(w, more);
      v.s.sync.Exited? && v.s.running && v.s.state == RUNNING && v.stream == w.stream && v.handler.Free?
  {
    var all := SendsAll(w);
    var leave := Leaves(Run(w, all));
    RunAppend(w, all, leave);
    more := all + leave;
  }

  // ---- from anywhere ----

  lemma HandlerEnds(w: World)
    ensures var v := Handler(Handler(w));
      v.handler.Free? && v.s.sync == w.s.sync && v.s.definitions == w.s.definitions
  {
  }

  lemma FreesHandler(w: World) returns (more: seq<Action>)
    requires Steady(w)
    ensures var v := Run(w, more); Steady(v) && v.handler.Free?
  {
    more := [HandlerStep, HandlerStep];
    RunTwo(w, HandlerStep, HandlerStep);
    HandlerEnds(w);
    StepsSound(w, more);
  }

  function RoundRank(pc: SyncPc): nat {
    match pc
    case Send(_) => 2 case Advance => 2 case Sleep => 2 case Exit(_) => 2
    case Sent(_) => 1 case Increment => 1 case TimedOut => 1 case SetRunning => 1
    case _ => 0
  }

  lemma RoundGoesOn(w: World)
    requires RoundRank(w.s.sync) > 0
    ensures var v := Step(w, SyncStep);
      && RoundRank(v.s.sync) < RoundRank(w.s.sync) && v.handler == w.handler
      && v.s.definitions == w.s.definitions && !I.Collecting(v.s)
  {
    RoundRanks(w.s);
  }

  lemma RoundRanks(s: Sender)
    requires RoundRank(s.sync) > 0
    ensures RoundRank(SyncRound(s).sync) < RoundRank(s.sync) && SyncRound(s).definitions == s.definitions
    ensures !I.Collecting(SyncRound(s))
  {
    match s.sync {
      case Send(_) =>
      case Sent(_) =>
      case Sleep =>
      case TimedOut =>
      case _ =>
    }
  }

  /** The sync thread finishes the round it is in. */
  lemma {:induction false} Settles(w: World) returns (more: seq<Action>)
    requires Steady(w) && w.handler.Free?
    ensures var v := Run(w, more); v.s.sync.Exited? || AtLoop(v, v.s.seq_)
    decreases RoundRank(w.s.sync)
  {
    if w.s.sync.Loop? || w.s.sync.Exited? { return []; }
    StepSound(w, SyncStep);
    RunOne(w, SyncStep);
    RoundGoesOn(w);
    var rest := Settles(Step(w, SyncStep));
    RunAppend(w, [SyncStep], rest);
    more := [SyncStep] + rest;
  }

  lemma EndsBehindCollect(w: World) returns (more: seq<Action>)
    requires Steady(w)
    ensures Run(w, more).s.sync.Exited?
  {
    more := FreesHandler(w);
    var settle := Settles(Run(w, more));
    RunAppend(w, more, settle);
    more := more + settle;
    if !Run(w, more).s.sync.Exited? {
      var out := RunsOut(Run(w, more));
      RunAppend(w, more, out);
      more := more + out;
    }
  }

  lemma {:induction false} LeadingOfNoData(messages: seq<Message>)
    requires T.NoData(messages)
    ensures T.LeadingDefinitions(messages) == messages
  {
    if messages != [] {
      assert !CheckUlogDataBegin(messages[0]);
      assert forall i :: 0 <= i < |messages[1..]| ==> messages[1..][i] == messages[i + 1];
      LeadingOfNoData(messages[1..]);
    }
  }

  lemma {:induction false} LeadingGrows(a: seq<Message>, b: seq<Message>)
    requires a <= b
    ensures T.LeadingDefinitions(a) <= T.LeadingDefinitions(b)
  {
    if a != [] {
      assert a[0] == b[0];
      assert a[1..] <= b[1..];
      LeadingGrows(a[1..], b[1..]);
    }
  }

  lemma StepProduces(w: World, a: Action)
    ensures w.stream.produced <= Step(w, a).stream.produced
  {
  }

  lemma {:induction false} ProducedGrows(w: World, more: seq<Action>)
    ensures w.stream.produced <= Run(w, more).stream.produced
  {
    if more != [] {
      ProducedGrows(w, more[..|more| - 1]);
      StepProduces(Run(w, more[..|more| - 1]), more[|more| - 1]);
    }
  }

  /** Once a data packet is enqueued, only the sizes of the leading definitions matter. */
  lemma EndsWithData(w: World) returns (more: seq<Action>)
    requires Sound(w) && !T.NoData(w.stream.produced) && I.Fits(T.LeadingDefinitions(w.stream.produced))
    ensures Run(w, more).s.sync.Exited?
  {
    more := [];
    if I.Collecting(w.s) { more := Collects(w); }
    var v := Run(w, more);
    LeadingAre(v);
    var out := EndsBehindCollect(v);
    RunAppend(w, more, out);
    more := more + out;
  }

  const SOME_DATA: Message := [0, 0, 'A' as int]

  lemma DataArrives(w: World)
    requires Sound(w) && T.NoData(w.stream.produced)
    ensures var v := Step(w, Enqueue(SOME_DATA));
      Sound(v) && !T.NoData(v.stream.produced) &&
      T.LeadingDefinitions(v.stream.produced) == T.LeadingDefinitions(w.stream.produced)
  {
    var d, v := w.stream.produced, Step(w, Enqueue(SOME_DATA));
    StepSound(w, Enqueue(SOME_DATA));
    LeadingOfNoData(d);
    assert v.stream.produced[|d|] == SOME_DATA;
    assert v.stream.produced[..|d|] == d;
    T.LeadingIs(v.stream.produced, |d|);
  }

  lemma EndsFitting(w: World) returns (more: seq<Action>)
    requires Sound(w) && I.Fits(T.LeadingDefinitions(w.stream.produced))
    ensures Run(w, more).s.sync.Exited?
  {
    if T.NoData(w.stream.produced) {
      DataArrives(w);
      RunOne(w, Enqueue(SOME_DATA));
      more := EndsWithData(Step(w, Enqueue(SOME_DATA)));
      RunAppend(w, [Enqueue(SOME_DATA)], more);
      more := [Enqueue(SOME_DATA)] + more;
    } else {
      more := EndsWithData(w);
    }
  }

  /** `sync_loop` can still end. */
  ghost predicate CanEnd(rt: bool, actions: seq<Action>) {
    exists more :: Run(Start(rt), actions + more).s.sync.Exited?
  }

  /** In every reachable state `sync_loop` can still end if and only if every message enqueued before the first data
      packet fits the payload. */
  lemma CanEndIff(rt: bool, actions: seq<Action>)
    ensures CanEnd(rt, actions) <==> I.Fits(T.LeadingDefinitions(Run(Start(rt), actions).stream.produced))
  {
    var w := Run(Start(rt), actions);
    RunSound(rt, actions);
    if I.Fits(T.LeadingDefinitions(w.stream.produced)) {
      var more := EndsFitting(w);
      RunAppend(Start(rt), actions, more);
    }
    if CanEnd(rt, actions) {
      var more :| Run(Start(rt), actions + more).s.sync.Exited?;
      RunAppend(Start(rt), actions, more);
      var v := Run(Start(rt), actions + more);
      RunSound(rt, actions + more);
      LeadingAre(v);
      EndedFits(v);
      ProducedGrows(w, more);
      LeadingGrows(w.stream.produced, v.stream.produced);
    }
  }

  // ---- how soon ----

  /** How often the sync thread has been scheduled behind its first loop. */
  function Turns(rt: bool, actions: seq<Action>): nat {
    if actions == [] then 0
    else
      var before := actions[..|actions| - 1];
      Turns(rt, before) +
      if actions[|actions| - 1].SyncStep? && !I.Collecting(Run(Start(rt), before).s) then 1 else 0
  }

  /** Only the sync thread's steps behind the first loop are counted, each once until the end. */
  lemma StepCounts(w: World, a: Action)
    ensures var v := Step(w, a);
      if !a.SyncStep? || I.Collecting(w.s) || w.s.sync.Exited? then v.s.steps == w.s.steps
      else v.s.steps == w.s.steps + 1
    ensures !I.Collecting(w.s) ==> !I.Collecting(Step(w, a).s)
    ensures w.s.sync.Exited? ==> Step(w, a).s.sync.Exited?
  {
    if a.SyncStep? {
      if I.Collecting(w.s) { CollectCounts(w); } else { RoundCounts(w); }
    }
  }

  lemma CollectCounts(w: World)
    requires I.Collecting(w.s)
    ensures SyncLoop(w).s.steps == w.s.steps
  {
  }

  lemma RoundCounts(w: World)
    requires !I.Collecting(w.s)
    ensures SyncLoop(w).s.steps == (if w.s.sync.Exited? then w.s.steps else w.s.steps + 1)
    ensures !I.Collecting(SyncLoop(w).s) && (w.s.sync.Exited? ==> SyncLoop(w).s.sync.Exited?)
  {
    RoundIs(w);
    T.RoundKeepsDefinitions(w.s);
    StepAdded(w.s);
  }

  lemma RoundIs(w: World)
    requires !I.Collecting(w.s)
    ensures SyncLoop(w).s == SyncRound(w.s)
  {
  }

  lemma StepAdded(s: Sender)
    ensures SyncRound(s).steps == (if s.sync.Exited? then s.steps else s.steps + 1)
    ensures s.sync.Exited? ==> SyncRound(s).sync.Exited?
  {
  }

  lemma {:induction false} TurnsAreSteps(rt: bool, actions: seq<Action>)
    ensures var s := Run(Start(rt), actions).s; s.sync.Exited? || Turns(rt, actions) == s.steps
  {
    if actions != [] {
      var before := actions[..|actions| - 1];
      TurnsAreSteps(rt, before);
      StepCounts(Run(Start(rt), before), actions[|actions| - 1]);
    }
  }

  /** With N definitions that fit and R entries into RESEND_DEF, `sync_loop` has ended once it has been scheduled more
      than 3 (21 (N + R) + N + I) + 3 times behind its first loop, I of its rounds having waited for a client. */
  lemma EndsWithin(rt: bool, actions: seq<Action>)
    requires I.Fits(Run(Start(rt), actions).s.definitions)
    ensures var s := Run(Start(rt), actions).s; var n := |s.definitions|;
      s.sync.Exited? || Turns(rt, actions) <= 3 * (21 * (n + s.resends) + n + s.initRounds) + 3
  {
    TurnsAreSteps(rt, actions);
    T.SyncBudget(rt, actions);
  }
}
