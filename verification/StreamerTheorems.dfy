/** What the sync protocol guarantees over every run: any actions, in any order, from the start. */
module StreamerTheorems {
  import opened Streamer
  import opened StreamerInvariants

  // ---- the stream of messages ----

  /** The messages before the first data packet. */
  function LeadingDefinitions(messages: seq<Message>): (d: seq<Message>)
    ensures d <= messages
    ensures forall i :: 0 <= i < |d| ==> !CheckUlogDataBegin(d[i])
    ensures |d| < |messages| ==> CheckUlogDataBegin(messages[|d|])
  {
    if messages == [] || CheckUlogDataBegin(messages[0]) then []
    else [messages[0]] + LeadingDefinitions(messages[1..])
  }

  predicate NoData(messages: seq<Message>) {
    forall i :: 0 <= i < |messages| ==> !CheckUlogDataBegin(messages[i])
  }

  function Uncounted(q: Stream): nat {
    (if q.main.Handling? then 1 else 0) + (if q.discard.Count? then 1 else 0)
  }

  predicate Conserved(s: Sender, q: Stream) {
    && q.produced == s.definitions + q.taken + q.queue
    && NoData(s.definitions)
    && (s.sync.Front? || s.sync.Take? || s.sync.StartDiscard? ==> q.queue != [])
    && (s.sync.Take? ==> s.sync.front == q.queue[0] && !CheckUlogDataBegin(q.queue[0]))
    && (s.sync.StartDiscard? ==> CheckUlogDataBegin(q.queue[0]))
    && (Collecting(s) ==> q.taken == [])
    && (!Collecting(s) ==> |s.definitions| < |q.produced| && CheckUlogDataBegin(q.produced[|s.definitions|]))
    && q.sendCntr + q.skipCntr + Uncounted(q) == |q.taken|
  }

  lemma RoundKeepsDefinitions(s: Sender)
    requires !Collecting(s)
    ensures SyncRound(s).definitions == s.definitions && !Collecting(SyncRound(s))
  {
    match s.sync {
      case Loop =>
      case Send(_) =>
      case Sleep =>
      case _ =>
    }
  }

  lemma RoundConserves(s: Sender, q: Stream)
    requires Conserved(s, q) && !Collecting(s)
    ensures Conserved(SyncRound(s), q)
  {
    RoundKeepsDefinitions(s);
  }

  lemma CollectConserves(w: World)
    requires Conserved(w.s, w.stream) && Collecting(w.s)
    ensures var v := SyncLoop(w); Conserved(v.s, v.stream)
  {
    var v := SyncLoop(w);
    if w.s.sync.Take? {
      TakeMoves(w.s.definitions, w.stream.queue);
    } else if w.s.sync.StartDiscard? {
      assert w.stream.produced[|w.s.definitions|] == w.stream.queue[0];
    }
  }

  lemma TakeMoves(definitions: seq<Message>, queue: seq<Message>)
    requires queue != []
    ensures (definitions + [queue[0]]) + [] + queue[1..] == definitions + [] + queue
  {
    assert queue == [queue[0]] + queue[1..];
  }

  lemma SyncConserves(w: World)
    requires Conserved(w.s, w.stream)
    ensures var v := SyncLoop(w); Conserved(v.s, v.stream)
  {
    if Collecting(w.s) { CollectConserves(w); } else { RoundConserves(w.s, w.stream); }
  }

  lemma DequeueMoves(definitions: seq<Message>, taken: seq<Message>, queue: seq<Message>)
    requires queue != []
    ensures definitions + taken + queue == definitions + (taken + [queue[0]]) + queue[1..]
  {
    assert queue == [queue[0]] + queue[1..];
  }

  lemma DiscardConserves(s: Sender, q: Stream)
    requires Conserved(s, q) && StreamControl(q, s.discarding, s.running) && (s.discarding <==> !Collecting(s))
    ensures Conserved(s, DiscardLoop(q, s.discarding, s.running))
  {
    if q.queue != [] { DequeueMoves(s.definitions, q.taken, q.queue); }
  }

  lemma MainConserves(s: Sender, q: Stream)
    requires Conserved(s, q) && StreamControl(q, s.discarding, s.running) && (s.running ==> !Collecting(s))
    ensures Conserved(s, MainLoop(q, s.running, s.state))
  {
    if q.queue != [] { DequeueMoves(s.definitions, q.taken, q.queue); }
  }

  lemma EnqueueConserves(s: Sender, q: Stream, m: Message)
    requires Conserved(s, q)
    ensures Conserved(s, q.(queue := q.queue + [m], produced := q.produced + [m]))
  {
    assert s.definitions + q.taken + q.queue + [m] == s.definitions + q.taken + (q.queue + [m]);
  }

  lemma HandlersConserve(w: World)
    requires Inv(w) || NothingToSync(w)
    requires Conserved(w.s, w.stream)
    ensures var v := Handler(w); Conserved(v.s, v.stream)
  {
  }

  lemma StepConserves(w: World, a: Action)
    requires (Inv(w) || NothingToSync(w)) && Conserved(w.s, w.stream)
    ensures var v := Step(w, a); Conserved(v.s, v.stream)
  {
    if a.SyncStep? { SyncConserves(w); }
    else if a.MainStep? { MainConserves(w.s, w.stream); }
    else if a.DiscardStep? { DiscardConserves(w.s, w.stream); }
    else if a.Enqueue? { EnqueueConserves(w.s, w.stream, a.message); }
    else if a.HandlerStep? { HandlersConserve(w); }
  }

  lemma {:induction false} RunConserves(rt: bool, actions: seq<Action>)
    ensures var w := Run(Start(rt), actions); Conserved(w.s, w.stream) && (Inv(w) || NothingToSync(w))
  {
    Reaches(rt, actions);
    if actions != [] {
      RunConserves(rt, actions[..|actions| - 1]);
      StepConserves(Run(Start(rt), actions[..|actions| - 1]), actions[|actions| - 1]);
    }
  }

  lemma {:induction false} LeadingIs(messages: seq<Message>, n: nat)
    requires n < |messages| && NoData(messages[..n]) && CheckUlogDataBegin(messages[n])
    ensures LeadingDefinitions(messages) == messages[..n]
  {
    if n > 0 {
      assert !CheckUlogDataBegin(messages[..n][0]);
      assert messages[1..][..n - 1] == messages[..n][1..];
      LeadingIs(messages[1..], n - 1);
    }
  }

  /** Nothing enqueued is lost or reordered: definitions, then what the readers took, then the queue.
      Once `sync_loop` has left its first loop the definitions are exactly the messages before the first
      data packet, and every message taken is counted as sent or skipped. */
  lemma StreamConservation(rt: bool, actions: seq<Action>)
    ensures var w := Run(Start(rt), actions); var q := w.stream;
      && q.produced == w.s.definitions + q.taken + q.queue
      && (!Collecting(w.s) ==> w.s.definitions == LeadingDefinitions(q.produced))
      && (Collecting(w.s) ==> q.taken == [])
      && (q.taken != [] ==> |q.taken[0]| >= 3 && q.taken[0][2] == 0x41)
      && (forall d :: d in w.s.definitions ==> |d| < 3 || d[2] != 0x41)
      && q.sendCntr + q.skipCntr + Uncounted(q) == |q.taken|
  {
    RunConserves(rt, actions);
    var w := Run(Start(rt), actions);
    if !Collecting(w.s) {
      assert w.stream.produced[..|w.s.definitions|] == w.s.definitions;
      LeadingIs(w.stream.produced, |w.s.definitions|);
    }
  }

  // ---- delivery ----

  /** The client has accepted the first definitions, as far as the sender has come. */
  predicate HoldsFirst(s: Sender, net: Net) {
    var n := |net.accepted|;
    && n <= |s.definitions| && net.accepted == s.definitions[..n]
    && Min(s.seq_, 65536) <= n <= Min(s.seq_ + 1, 65536)
  }

  lemma InvHoldsFirst(w: World)
    requires Inv(w) || NothingToSync(w)
    ensures HoldsFirst(w.s, w.net) && forall k :: k in w.net.keeper <==> 0 <= k < |w.net.accepted|
  {
  }

  /** In every reachable state the client has accepted the first `n` definitions, in order and each once, where the
      sender's `seq_` is `n` or, while the ack of the last of them is still out, `n - 1`; up to 65536. */
  lemma AcceptedInOrder(rt: bool, actions: seq<Action>)
    ensures var w := Run(Start(rt), actions);
      HoldsFirst(w.s, w.net) && forall k :: k in w.net.keeper <==> 0 <= k < |w.net.accepted|
  {
    Reaches(rt, actions);
    InvHoldsFirst(Run(Start(rt), actions));
  }

  /** When `sync_loop` has ended the client holds all definitions if and only if there are at most 65536:
      the 16-bit sequence numbers then do not repeat. */
  lemma AllDeliveredIff(rt: bool, actions: seq<Action>)
    requires Run(Start(rt), actions).s.sync.Exited?
    ensures var w := Run(Start(rt), actions);
      w.net.accepted == LeadingDefinitions(w.stream.produced) <==> |LeadingDefinitions(w.stream.produced)| <= 65536
  {
    Reaches(rt, actions);
    StreamConservation(rt, actions);
    var w := Run(Start(rt), actions);
    assert w.s.seq_ == |w.s.definitions|;
    if |w.s.definitions| <= SEQUENCES {
      assert w.net.accepted == w.s.definitions;
    }
  }

  /** No LOGGING_DATA is in the network before the client holds every definition that it can hold. */
  lemma DataAfterDefinitions(rt: bool, actions: seq<Action>)
    ensures var w := Run(Start(rt), actions);
      w.stream.datagrams != {} ==>
        w.s.running && w.net.accepted == w.s.definitions[..Min(|w.s.definitions|, 65536)]
  {
    Reaches(rt, actions);
    var w := Run(Start(rt), actions);
    if w.stream.datagrams != {} && NothingToSync(w) {
      assert w.s.definitions[..0] == [];
    }
  }

  // ---- compare-exchanges ----

  /** With a definition to send, the sync thread and the command handler never lose an exchange; only the
      timeout and the ack handler can, against each other. An ack handler about to succeed compared its
      ack with the current `seq_`, whatever happened since it loaded the state. */
  lemma CompareExchanges(rt: bool, actions: seq<Action>)
    ensures var w := Run(Start(rt), actions);
      (Collecting(w.s) || w.s.definitions != []) ==>
        && !w.s.lost.send && !w.s.lost.advance && !w.s.lost.exit && !w.s.lost.command
        && (w.s.sync.Sent? ==> w.s.state == w.s.sync.seen) && (w.s.sync.Advance? ==> w.s.state == ACK_RECV)
        && (w.s.sync.Exit? ==> w.s.state == w.s.sync.seen) && (w.handler.Command? ==> w.s.state == w.handler.seen)
        && (w.handler.AckCompared? && w.s.state == ACK_WAIT ==>
              w.handler.compared == w.s.seq_ &&
              (w.handler.next == ACK_RECV <==> w.handler.ack == w.s.seq_ % 0x1_0000))
  {
    Reaches(rt, actions);
  }

  // ---- counting ----

  /** With N definitions that fit the payload and R entries into RESEND_DEF, `sync_loop` has on exit sent
      N + R packets; at any time it has taken at most 21 (N + R) + N rounds outside INIT and, per round,
      three steps. */
  lemma SyncBudget(rt: bool, actions: seq<Action>)
    requires Fits(Run(Start(rt), actions).s.definitions)
    ensures var s := Run(Start(rt), actions).s; var n := |s.definitions|;
      && (s.sync.Exited? ==> s.sent == n + s.resends)
      && s.rounds <= 21 * (n + s.resends) + n
      && s.steps <= 3 * (21 * (n + s.resends) + n + s.initRounds) + 3
  {
    Reaches(rt, actions);
    var w := Run(Start(rt), actions);
    if Inv(w) {
      assert Packets(w.s) && Rounds(w.s) && Steps(w.s);
    }
  }

  /** Every step of `sync_loop` behind its first loop is counted until the end; in the first loop a step changes the
      world unless it waits for a message. A loop that turns and turns makes such steps too: SyncEnds shows when the
      end is reached. */
  lemma SyncProgress(rt: bool, actions: seq<Action>)
    ensures var w := Run(Start(rt), actions); var v := Step(w, SyncStep);
      && (!Collecting(w.s) && !w.s.sync.Exited? ==> v.s.steps == w.s.steps + 1)
      && (Collecting(w.s) && v == w ==> w.s.sync.Collect? && w.stream.queue == [])
  {
    RunConserves(rt, actions);
  }

  // ---- the start of streaming ----

  /** No assertion on the state can fail in a run whose stream opens with `first`. */
  ghost predicate StatesAsExpected(first: Message) {
    forall rt, actions :: var w := Run(Start(rt), actions);
      w.stream.produced != [] && w.stream.produced[0] == first ==> AsExpected(w)
  }

  predicate AsExpected(w: World) {
    !w.unexpected && (w.s.running ==> w.s.state == RUNNING || w.s.state == STOPPED)
  }

  lemma {:induction false} RunThen(w: World, actions: seq<Action>, a: Action)
    ensures Run(w, actions + [a]) == Step(Run(w, actions), a)
  {
    assert (actions + [a])[..|actions|] == actions;
  }

  /** What the assertions say, of a stream that does not open with data: `sync_loop` finds CONNECTED only with a target,
      and never RUNNING before its last definition; `main_loop` finds RUNNING or STOPPED. */
  lemma StatesFound(rt: bool, actions: seq<Action>)
    ensures var w := Run(Start(rt), actions);
      (Collecting(w.s) || w.s.definitions != []) ==>
        && (w.s.sync.Loop? && w.s.seq_ < |w.s.definitions| ==>
              w.s.state != RUNNING &&
              (w.s.state == CONNECTED ==> w.target.group != 0 && w.target.instance != 0))
        && (w.stream.main.Started? ==> w.s.state == RUNNING || w.s.state == STOPPED)
  {
    Reaches(rt, actions);
  }

  /** The exit of `sync_loop` has loaded INIT and not yet exchanged it. */
  predicate AtExit(w: World, first: Message) {
    && w.s.sync == Exit(INIT) && w.s.state == INIT && w.s.definitions == [] && w.handler == Free
    && w.stream.produced == [first] && w.stream.main == Idle && !w.s.running
  }

  /** Nothing but `first` has happened, and the sync thread is at `pc`. */
  predicate Opened(w: World, first: Message, pc: SyncPc) {
    && w.s.state == INIT && w.s.definitions == [] && w.s.seq_ == 0 && !w.s.running && w.s.sync == pc
    && w.handler == Free && w.stream.produced == [first] && w.stream.queue == [first] && w.stream.main == Idle
  }

  lemma Opens(first: Message)
    requires CheckUlogDataBegin(first)
    ensures Opened(Step(Start(true), Enqueue(first)), first, Collect)
  {
  }

  lemma CollectsNothing(w: World, first: Message)
    requires CheckUlogDataBegin(first) && Opened(w, first, Collect)
    ensures Opened(Step(Step(w, SyncStep), SyncStep), first, StartDiscard)
  {
  }

  lemma SendsNothing(w: World, first: Message)
    requires Opened(w, first, StartDiscard)
    ensures AtExit(Step(Step(w, SyncStep), SyncStep), first)
  {
  }

  lemma ReachesExit(first: Message) returns (actions: seq<Action>)
    requires CheckUlogDataBegin(first)
    ensures AtExit(Run(Start(true), actions), first)
  {
    Opens(first);
    RunThen(Start(true), [], Enqueue(first));
    var a := [] + [Enqueue(first)];
    CollectsNothing(Run(Start(true), a), first);
    var b := RunTwice(a, SyncStep, SyncStep);
    SendsNothing(Run(Start(true), b), first);
    actions := RunTwice(b, SyncStep, SyncStep);
  }

  lemma CommandWins(w: World, first: Message)
    requires AtExit(w, first)
    ensures var v := Step(Step(w, CommandArrives(true, Address(1, 1))), HandlerStep);
      v.s.sync == Exit(INIT) && v.s.state == CONNECTED && v.stream == w.stream
  {
  }

  lemma ExitLoses(w: World)
    requires w.s.sync == Exit(INIT) && w.s.state == CONNECTED && w.stream.main == Idle
    ensures var v := Step(Step(w, SyncStep), SyncStep);
      v.s.running && v.s.state == CONNECTED && v.s.lost.exit && v.stream == w.stream
  {
  }

  lemma MainLoopAsserts(w: World)
    requires w.s.running && w.s.state == CONNECTED && w.stream.main == Idle
    ensures var v := Step(Step(w, MainStep), MainStep);
      v.unexpected && v.s == w.s && v.stream.produced == w.stream.produced
  {
  }

  /** A stream that opens with a data packet: the exit's load of `state_` races with the start command, its exchange
      is lost, and `main_loop` finds CONNECTED. */
  lemma StartRace(first: Message)
    requires CheckUlogDataBegin(first)
    ensures exists actions :: var w := Run(Start(true), actions);
      w.stream.produced == [first] && w.unexpected && w.s.running && w.s.state == CONNECTED && w.s.lost.exit
  {
    var a := ReachesExit(first);
    CommandWins(Run(Start(true), a), first);
    var b := RunTwice(a, CommandArrives(true, Address(1, 1)), HandlerStep);
    ExitLoses(Run(Start(true), b));
    var c := RunTwice(b, SyncStep, SyncStep);
    MainLoopAsserts(Run(Start(true), c));
    var d := RunTwice(c, MainStep, MainStep);
  }

  lemma RunTwice(actions: seq<Action>, a: Action, b: Action) returns (r: seq<Action>)
    ensures Run(Start(true), r) == Step(Step(Run(Start(true), actions), a), b)
  {
    r := actions + [a];
    RunThen(Start(true), actions, a);
    RunThen(Start(true), r, b);
    r := r + [b];
  }

  /** The streamer's assertions on its state hold in every interleaving if and only if the first message of
      the stream is not a data packet. */
  lemma StatesAsExpectedIff(first: Message)
    requires |first| >= 3
    ensures StatesAsExpected(first) <==> !CheckUlogDataBegin(first)
  {
    if CheckUlogDataBegin(first) {
      StartRace(first);
      var actions :| var w := Run(Start(true), actions);
        w.stream.produced == [first] && w.unexpected && w.s.running && w.s.state == CONNECTED;
      assert !AsExpected(Run(Start(true), actions));
    } else {
      forall rt, actions | var w := Run(Start(rt), actions); w.stream.produced != [] && w.stream.produced[0] == first
        ensures AsExpected(Run(Start(rt), actions))
      {
        RunConserves(rt, actions);
      }
    }
  }

  // ---- lost exchanges ----

  predicate ExchangesHold(w: World) {
    !w.s.lost.send && !w.s.lost.advance && !w.s.lost.exit && !w.s.lost.command
  }

  /** In no run whose stream opens with `first` does the sync thread or the command handler lose an exchange. */
  ghost predicate ExchangesSucceed(first: Message) {
    forall rt, actions :: var w := Run(Start(rt), actions);
      w.stream.produced != [] && w.stream.produced[0] == first ==> ExchangesHold(w)
  }

  /** The exchanges of the sync thread and of the command handler succeed in every interleaving if and only if the first
      message of the stream is not a data packet. */
  lemma ExchangesSucceedIff(first: Message)
    requires |first| >= 3
    ensures ExchangesSucceed(first) <==> !CheckUlogDataBegin(first)
  {
    if CheckUlogDataBegin(first) {
      StartRace(first);
      var actions :| var w := Run(Start(true), actions);
        w.stream.produced == [first] && w.unexpected && w.s.running && w.s.state == CONNECTED && w.s.lost.exit;
      assert !ExchangesHold(Run(Start(true), actions));
    } else {
      forall rt, actions | var w := Run(Start(rt), actions); w.stream.produced != [] && w.stream.produced[0] == first
        ensures ExchangesHold(Run(Start(rt), actions))
      {
        RunConserves(rt, actions);
        CompareExchanges(rt, actions);
      }
    }
  }
}
