/** What every step of the sync protocol keeps. */
module StreamerInvariants {
  import opened Streamer

  predicate Collecting(s: Sender) {
    s.sync.Collect? || s.sync.Front? || s.sync.Take? || s.sync.StartDiscard?
  }

  function Min(a: int, b: int): int { if a < b then a else b }

  // ---- control ----

  /** The state the sync thread relies on at each of its steps. */
  predicate SyncControl(s: Sender) {
    var n := |s.definitions|;
    match s.sync
    case Loop =>
      if s.seq_ == n then s.state == SEND_DEF
      else
        && s.seq_ < n && s.state != RUNNING && s.state != STOPPED
        && (s.state == INIT || s.state == CONNECTED ==> s.seq_ == 0)
    case Send(seen) =>
      s.seq_ < n && seen == s.state && Dispatch(seen) == s.sync && (seen == CONNECTED ==> s.seq_ == 0)
    case Sent(seen) => s.seq_ < n && seen == s.state && Dispatch(seen).Send?
    case Advance => s.seq_ < n && s.state == ACK_RECV
    case Increment => s.seq_ < n && s.state == SEND_DEF
    case Sleep => s.seq_ < n && (s.state == ACK_WAIT || s.state == ACK_RECV || s.state == RESEND_DEF)
    case TimedOut => s.seq_ < n && (s.state == ACK_WAIT || s.state == ACK_RECV || s.state == RESEND_DEF)
    case Exit(seen) => s.seq_ == n && s.state == SEND_DEF == seen
    case SetRunning => s.seq_ == n && (s.state == RUNNING || s.state == STOPPED)
    case Exited => s.seq_ == n && (s.state == RUNNING || s.state == STOPPED)
    case _ => s.seq_ == 0 && (s.state == INIT || s.state == CONNECTED)
  }

  predicate SenderControl(s: Sender) {
    && SyncControl(s)
    && (Collecting(s) || |s.definitions| > 0)
    && (s.discarding <==> !Collecting(s))
    && (s.running <==> s.sync.Exited?)
    && !s.lost.send && !s.lost.advance && !s.lost.exit && !s.lost.command
  }

  /** A handler in progress still sees the state it loaded, or only the timeout has moved it on. */
  predicate HandlerControl(h: HandlerPc, state: StreamerState, reached: nat) {
    match h
    case Free => true
    case AckSeen(_) => state == ACK_WAIT || state == RESEND_DEF
    case AckCompared(ack, compared, next) =>
      (state == ACK_WAIT || state == RESEND_DEF) && compared == reached &&
      next == if ack == reached % SEQUENCES then ACK_RECV else RESEND_DEF
    case Command(seen, next) =>
      state == seen &&
      (|| (seen == INIT && next == CONNECTED)
       || (seen == RUNNING && next == STOPPED)
       || (seen == STOPPED && next == RUNNING))
  }

  predicate StreamControl(q: Stream, discarding: bool, running: bool) {
    && (q.main.Idle? || running)
    && (!q.discard.Absent? && !q.discard.Wait? ==> discarding)
    && (q.datagrams != {} ==> running)
  }

  predicate Control(w: World) {
    && SenderControl(w.s)
    && HandlerControl(w.handler, w.s.state, w.s.seq_)
    && StreamControl(w.stream, w.s.discarding, w.s.running)
    && (w.s.state != INIT || w.handler.Command? ==> w.target.group > 0 && w.target.instance > 0)
    && !w.unexpected
  }

  // ---- the client ----

  /** `p` carries a definition that has been reached. */
  ghost predicate InFlight(definitions: seq<Message>, reached: nat, p: Packet) {
    exists k :: 0 <= k <= reached && k < |definitions| && p == DefinitionPacket(definitions, k)
  }

  /** What the client has accepted, against the sender's progress. Sequence numbers repeat after 65536. */
  ghost predicate Delivered(definitions: seq<Message>, reached: nat, net: Net) {
    var n := |net.accepted|;
    && n <= |definitions| && net.accepted == definitions[..n]
    && Min(reached, SEQUENCES) <= n <= Min(reached + 1, SEQUENCES)
    && (forall k :: k in net.keeper <==> 0 <= k < n)
    && (forall p :: p in net.packets ==> InFlight(definitions, reached, p))
    && net.acks <= net.keeper
  }

  /** The sender only moves on when the client holds the current definition. */
  predicate Acknowledged(s: Sender, net: Net, h: HandlerPc) {
    && (s.state == ACK_RECV || s.sync.Increment? ==> |net.accepted| >= Min(s.seq_ + 1, SEQUENCES))
    && (h.AckSeen? || h.AckCompared? ==> h.ack in net.acks)
    && (Collecting(s) ==> net == Net({}, {}, {}, []))
  }

  ghost predicate Delivery(w: World) {
    Delivered(w.s.definitions, w.s.seq_, w.net) && Acknowledged(w.s, w.net, w.handler)
  }

  // ---- counting ----

  /** The current definition has been sent and neither its ack nor a resend has been consumed. */
  predicate Outstanding(s: Sender) {
    s.state == ACK_WAIT || s.state == ACK_RECV || s.sync.Sent? || s.sync.Increment?
  }

  predicate Fits(definitions: seq<Message>) {
    forall i :: 0 <= i < |definitions| ==> |definitions[i]| <= 249
  }

  /** Each packet pays for its own round and for 20 waits of 50 ms, each definition for one more. */
  predicate Rounds(s: Sender) {
    var full := 21 * s.sent + s.seq_;
    match s.sync
    case Loop =>
      if s.state == ACK_WAIT then
        s.syncTimeout <= 950 && s.syncTimeout % 50 == 0 && 50 * s.rounds <= 50 * (full - 20) + s.syncTimeout
      else s.rounds <= full
    case Send(_) => s.rounds <= full + 1
    case Sent(_) => s.rounds <= full - 20 && s.syncTimeout == 0
    case Advance => s.rounds <= full + 1
    case Increment => s.rounds <= full + 1
    case Sleep => s.syncTimeout <= 950 && s.syncTimeout % 50 == 0 && 50 * s.rounds <= 50 * (full - 19) + s.syncTimeout
    case _ => s.rounds <= full
  }

  /** A round takes at most three steps. */
  predicate Steps(s: Sender) {
    var spent := 3 * (s.rounds + s.initRounds);
    match s.sync
    case Loop => s.steps <= spent
    case Send(_) => s.steps <= spent - 2
    case Advance => s.steps <= spent - 2
    case Sleep => s.steps <= spent - 2
    case Sent(_) => s.steps <= spent - 1
    case Increment => s.steps <= spent - 1
    case TimedOut => s.steps <= spent - 1
    case Exit(_) => s.steps <= spent + 1
    case SetRunning => s.steps <= spent + 2
    case _ => s.steps <= spent + 3
  }

  predicate Packets(s: Sender) {
    s.sent == s.seq_ + s.resends + (if Outstanding(s) then 1 else 0) && !s.refused
  }

  predicate Counting(s: Sender) {
    && (Fits(s.definitions) ==> Packets(s) && Rounds(s))
    && Steps(s)
    && (Collecting(s) ==>
          s.steps == 0 && s.rounds == 0 && s.initRounds == 0 && s.sent == 0 && s.resends == 0 && !s.refused)
  }

  ghost predicate Inv(w: World) {
    Control(w) && Delivery(w) && Counting(w.s)
  }

  /** The states in which no definition is on its way. */
  predicate Unsynced(state: StreamerState) {
    state == INIT || state == CONNECTED || state == RUNNING || state == STOPPED
  }

  /** The stream opened with a data packet: `sync_loop` has nothing to send, and sends nothing. */
  ghost predicate NothingToSync(w: World) {
    && w.s.definitions == [] && w.s.seq_ == 0
    && (w.s.sync.Loop? || w.s.sync.Exit? || w.s.sync.SetRunning? || w.s.sync.Exited?)
    && w.net == Net({}, {}, {}, [])
    && w.s.discarding
    && (w.handler.Free? || (w.handler.Command? && Unsynced(w.handler.next))) && Unsynced(w.s.state)
    && Steps(w.s) && w.s.rounds == 0 && w.s.initRounds == 0 && w.s.sent == 0 && w.s.resends == 0 && !w.s.refused
    && (w.s.running <==> w.s.sync.Exited?)
    && StreamControl(w.stream, w.s.discarding, w.s.running)
  }

  // ---- preservation ----

  lemma RoundKeepsControl(s: Sender)
    requires SenderControl(s) && !Collecting(s)
    ensures SenderControl(SyncRound(s))
  {
    match s.sync {
      case Loop =>
      case Send(_) =>
      case Sent(_) =>
      case Sleep =>
      case _ =>
    }
  }

  lemma RoundKeepsCounting(s: Sender)
    requires SenderControl(s) && !Collecting(s) && Counting(s)
    ensures Counting(SyncRound(s))
  {
    var t := SyncRound(s);
    assert t.definitions == s.definitions && !Collecting(t);
    assert Steps(t);
    if Fits(s.definitions) { RoundKeepsPackets(s); RoundKeepsRounds(s); }
  }

  lemma RoundKeepsPackets(s: Sender)
    requires SyncControl(s) && !Collecting(s) && Fits(s.definitions) && Packets(s)
    ensures Packets(SyncRound(s))
  {
  }

  lemma LoopKeepsRounds(s: Sender)
    requires SyncControl(s) && s.sync.Loop? && Rounds(s)
    ensures Rounds(SyncRound(s))
  {
  }

  lemma SleepKeepsRounds(s: Sender)
    requires SyncControl(s) && s.sync.Sleep? && Rounds(s)
    ensures Rounds(SyncRound(s))
  {
    assert Plus50(s.syncTimeout) == s.syncTimeout + 50;
  }

  lemma SendKeepsRounds(s: Sender)
    requires SyncControl(s) && (s.sync.Send? || s.sync.Sent?) && Fits(s.definitions) && Rounds(s)
    ensures Rounds(SyncRound(s))
  {
  }

  lemma RoundKeepsRounds(s: Sender)
    requires SyncControl(s) && !Collecting(s) && Fits(s.definitions) && Rounds(s) && !s.refused
    ensures Rounds(SyncRound(s))
  {
    match s.sync {
      case Loop => LoopKeepsRounds(s);
      case Sleep => SleepKeepsRounds(s);
      case Send(_) => SendKeepsRounds(s);
      case Sent(_) => SendKeepsRounds(s);
      case _ =>
    }
  }

  lemma SendKeepsDelivered(definitions: seq<Message>, reached: nat, net: Net)
    requires Delivered(definitions, reached, net) && reached < |definitions|
    ensures Delivered(definitions, reached, net.(packets := net.packets + {DefinitionPacket(definitions, reached)}))
  {
    assert InFlight(definitions, reached, DefinitionPacket(definitions, reached));
  }

  lemma IncrementKeepsDelivered(definitions: seq<Message>, reached: nat, net: Net)
    requires Delivered(definitions, reached, net) && |net.accepted| >= Min(reached + 1, SEQUENCES)
    ensures Delivered(definitions, reached + 1, net)
  {
    forall p | p in net.packets ensures InFlight(definitions, reached + 1, p) {
      var k :| 0 <= k <= reached && k < |definitions| && p == DefinitionPacket(definitions, k);
      assert 0 <= k <= reached + 1;
    }
  }

  lemma RoundKeepsHandler(s: Sender, h: HandlerPc)
    requires SyncControl(s) && !Collecting(s) && HandlerControl(h, s.state, s.seq_)
    ensures HandlerControl(h, SyncRound(s).state, SyncRound(s).seq_)
  {
  }

  lemma RoundKeepsStream(s: Sender, q: Stream)
    requires StreamControl(q, s.discarding, s.running) && !Collecting(s) && (s.running <==> s.sync.Exited?)
    ensures StreamControl(q, SyncRound(s).discarding, SyncRound(s).running)
  {
  }

  /** The state is INIT only while the target may still be unknown, and no assertion of the round fails. */
  lemma RoundAsExpected(w: World)
    requires Control(w) && !Collecting(w.s)
    ensures var v := SyncLoop(w);
      && v.s == SyncRound(w.s) && v.stream == w.stream && v.handler == w.handler && v.target == w.target
      && !v.unexpected
      && (v.s.state != INIT ==> v.target.group > 0 && v.target.instance > 0)
  {
  }

  lemma RoundKeepsDelivered(w: World)
    requires Control(w) && Delivery(w) && !Collecting(w.s)
    ensures var v := SyncLoop(w); Delivered(v.s.definitions, v.s.seq_, v.net)
  {
    if w.s.sync.Send? {
      SendKeepsDelivered(w.s.definitions, w.s.seq_, w.net);
    } else if w.s.sync.Increment? {
      IncrementKeepsDelivered(w.s.definitions, w.s.seq_, w.net);
    }
  }

  lemma RoundKeepsAcknowledged(w: World)
    requires Control(w) && Delivery(w) && !Collecting(w.s)
    ensures var v := SyncLoop(w); Acknowledged(v.s, v.net, v.handler)
  {
  }

  lemma RoundKeepsInv(w: World)
    requires Inv(w) && !Collecting(w.s)
    ensures Inv(SyncLoop(w))
  {
    RoundAsExpected(w);
    RoundKeepsControl(w.s);
    RoundKeepsHandler(w.s, w.handler);
    RoundKeepsStream(w.s, w.stream);
    RoundKeepsDelivered(w);
    RoundKeepsAcknowledged(w);
    RoundKeepsCounting(w.s);
  }

  lemma CollectKeepsInv(w: World)
    requires Inv(w) && Collecting(w.s)
    ensures Inv(SyncLoop(w)) || NothingToSync(SyncLoop(w))
  {
    var v := SyncLoop(w);
    assert v.net == w.net;
  }

  lemma HandlerKeepsInv(w: World)
    requires Inv(w)
    ensures Inv(Handler(w))
  {
    if w.handler.AckCompared? { AckKeepsSender(w.s, w.handler.next); }
    if w.handler.Command? { CommandKeepsSender(w.s, w.handler.seen, w.handler.next); }
  }

  lemma AckKeepsSender(s: Sender, next: StreamerState)
    requires SenderControl(s) && Counting(s) && (next == ACK_RECV || next == RESEND_DEF)
    ensures SenderControl(AckExchange(s, next)) && Counting(AckExchange(s, next))
  {
    AckKeepsControl(s, next);
    AckKeepsCounting(s, next);
  }

  lemma AckKeepsControl(s: Sender, next: StreamerState)
    requires SenderControl(s) && (next == ACK_RECV || next == RESEND_DEF)
    ensures SenderControl(AckExchange(s, next))
  {
  }

  lemma AckKeepsCounting(s: Sender, next: StreamerState)
    requires SyncControl(s) && Counting(s) && (next == ACK_RECV || next == RESEND_DEF)
    ensures Counting(AckExchange(s, next))
  {
    if Fits(s.definitions) { AckKeepsRounds(s, next); }
  }

  lemma AckKeepsRounds(s: Sender, next: StreamerState)
    requires SyncControl(s) && Rounds(s) && Packets(s) && (next == ACK_RECV || next == RESEND_DEF)
    ensures Rounds(AckExchange(s, next)) && Packets(AckExchange(s, next))
  {
  }

  lemma CommandKeepsSender(s: Sender, seen: StreamerState, next: StreamerState)
    requires SenderControl(s) && Counting(s) && HandlerControl(Command(seen, next), s.state, s.seq_)
    ensures SenderControl(CommandExchange(s, seen, next)) && Counting(CommandExchange(s, seen, next))
  {
  }

  lemma OthersKeepInv(w: World, a: Action)
    requires Inv(w) && (a.AckArrives? || a.CommandArrives? || a.DiscardStep? || a.MainStep? || a.Enqueue?)
    ensures Inv(Step(w, a))
  {
  }

  lemma ClientKeepsInv(w: World, p: Packet)
    requires Inv(w)
    ensures Inv(Step(w, ClientReceives(p)))
  {
    var net := LoggingDataAcked(w.net, p);
    if p in w.net.packets && p.sequence !in w.net.keeper {
      var k :| 0 <= k <= w.s.seq_ && k < |w.s.definitions| && p == DefinitionPacket(w.s.definitions, k);
      // only the definition being sent can carry a sequence number the client does not hold
      assert k == w.s.seq_ == |w.net.accepted|;
      assert net.accepted == w.s.definitions[..|w.net.accepted| + 1];
    }
    assert Delivered(w.s.definitions, w.s.seq_, net);
  }

  lemma NothingToSyncKept(w: World, a: Action)
    requires NothingToSync(w)
    ensures NothingToSync(Step(w, a))
  {
  }

  lemma StepKeeps(w: World, a: Action)
    requires Inv(w) || NothingToSync(w)
    ensures Inv(Step(w, a)) || NothingToSync(Step(w, a))
  {
    if NothingToSync(w) {
      NothingToSyncKept(w, a);
    } else if a.SyncStep? {
      if Collecting(w.s) { CollectKeepsInv(w); } else { RoundKeepsInv(w); }
    } else if a.ClientReceives? {
      ClientKeepsInv(w, a.packet);
    } else if a.HandlerStep? {
      HandlerKeepsInv(w);
    } else {
      OthersKeepInv(w, a);
    }
  }

  lemma {:induction false} Reaches(rt: bool, actions: seq<Action>)
    ensures var w := Run(Start(rt), actions); Inv(w) || NothingToSync(w)
  {
    if actions != [] {
      Reaches(rt, actions[..|actions| - 1]);
      StepKeeps(Run(Start(rt), actions[..|actions| - 1]), actions[|actions| - 1]);
    }
  }
}
