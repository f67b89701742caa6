/** The functions of `MutelemetryStreamer` as they are written, each run by its thread. Between any two of its atomic
    operations the other threads take any steps they like; a thread may also never be scheduled again. Every
    method is shown to take steps of the transition system and no others, so its theorems hold throughout. */
module StreamerClass {
  import opened Outcomes
  import opened Streamer
  import StreamerInvariants
  import opened StreamerTheorems
  import SyncEnds

  datatype Thread = Sync | Discard | Main | Router

  /** The thread that takes a step, if it is one of the streamer's. */
  function Owns(t: Thread, a: Action): bool {
    match t
    case Sync => a.SyncStep?
    case Discard => a.DiscardStep?
    case Main => a.MainStep?
    case Router => a.HandlerStep? || a.AckArrives? || a.CommandArrives?
  }

  /** The thread's own steps in a run. */
  function Own(t: Thread, trace: seq<Action>): seq<Action> {
    if trace == [] then []
    else
      var before, a := Own(t, trace[..|trace| - 1]), trace[|trace| - 1];
      if Owns(t, a) then before + [a] else before
  }

  lemma OwnNext(t: Thread, trace: seq<Action>, a: Action)
    ensures Own(t, trace + [a]) == if Owns(t, a) then Own(t, trace) + [a] else Own(t, trace)
  {
    assert (trace + [a])[..|trace|] == trace;
  }

  /** Whether the running thread goes on, or is not scheduled any more. */
  datatype Scheduled = GoesOn | Paused {
    predicate IsFailure() { Paused? }

    function PropagateFailure(): Scheduled { this }
  }

  /** What the other threads leave alone while `t` is between two operations. */
  predicate Kept(t: Thread, v: World, w: World) {
    match t
    case Sync =>
      w.s.sync == v.s.sync && w.s.seq_ == v.s.seq_ && w.s.definitions == v.s.definitions &&
      w.s.syncTimeout == v.s.syncTimeout && w.s.discarding == v.s.discarding && w.s.running == v.s.running
    case Discard => w.stream.discard == v.stream.discard && (v.s.running ==> w.s.running)
    case Main => w.stream.main == v.stream.main && (v.s.running ==> w.s.running) && SameSent(v.stream, w.stream)
    case Router => w.handler == v.handler && v.net.acks <= w.net.acks
  }

  /** `main_loop` sent nothing more to the client, and took nothing. */
  predicate SameSent(p: Stream, q: Stream) {
    q.datagrams == p.datagrams && q.sendCntr == p.sendCntr && q.dequeued == p.dequeued && p.taken <= q.taken
  }

  /** The message that `main_loop` has taken and not yet sent or skipped. */
  function Pending(q: Stream): seq<Message> {
    if q.main.Handling? then [q.main.message] else []
  }

  /** The messages that `main_loop` sends when it handles these in the state `st`. */
  function SentOf(st: StreamerState, handled: seq<Message>): seq<Message> {
    if handled == [] then []
    else
      var before, m := SentOf(st, handled[..|handled| - 1]), handled[|handled| - 1];
      if st != STOPPED && |m| <= MAX_PAYLOAD then before + [m] else before
  }

  lemma SentNext(st: StreamerState, handled: seq<Message>, m: Message)
    ensures SentOf(st, handled + [m]) ==
      if st != STOPPED && |m| <= MAX_PAYLOAD then SentOf(st, handled) + [m] else SentOf(st, handled)
  {
    assert (handled + [m])[..|handled|] == handled;
  }

  /** These messages, and none besides, were handled in `st` on the way from `p` to `q`: they are what `main_loop` took
      on the way, in order, up to the one it is at. */
  predicate Handled(st: StreamerState, handled: seq<Message>, p: Stream, q: Stream) {
    && q.datagrams == p.datagrams + (set m | m in SentOf(st, handled))
    && q.sendCntr == p.sendCntr + |SentOf(st, handled)| && p.taken <= q.taken
    && q.dequeued == p.dequeued + handled + Pending(q)
    && forall m :: m in handled ==> m in q.taken
  }

  lemma HandledKept(st: StreamerState, handled: seq<Message>, p: Stream, q: Stream, r: Stream)
    requires Handled(st, handled, p, q) && SameSent(q, r) && Pending(r) == Pending(q)
    ensures Handled(st, handled, p, r)
  {
    KeepIn(handled, q.taken, r.taken);
  }

  /** One more message taken. */
  lemma HandledTaken(st: StreamerState, handled: seq<Message>, p: Stream, q: Stream, r: Stream, m: Message)
    requires Handled(st, handled, p, q) && Pending(q) == [] && Pending(r) == [m]
    requires r.datagrams == q.datagrams && r.sendCntr == q.sendCntr && q.taken <= r.taken
    requires r.dequeued == q.dequeued + [m]
    ensures Handled(st, handled, p, r)
  {
    assert p.dequeued + handled + [] == p.dequeued + handled;
    KeepIn(handled, q.taken, r.taken);
  }

  lemma KeepIn(handled: seq<Message>, a: seq<Message>, b: seq<Message>)
    requires a <= b && forall m :: m in handled ==> m in a
    ensures forall m :: m in handled ==> m in b
  {
    forall m | m in handled ensures m in b {
      var i :| 0 <= i < |a| && a[i] == m;
      assert b[i] == m;
    }
  }

  /** One more message handled. */
  lemma HandledNext(st: StreamerState, handled: seq<Message>, p: Stream, q: Stream, r: Stream, m: Message)
    requires Handled(st, handled, p, q) && Pending(q) == [m] && Pending(r) == [] && r.dequeued == q.dequeued
    requires m in r.taken && q.taken <= r.taken
    requires var sent := st != STOPPED && |m| <= MAX_PAYLOAD;
      && r.datagrams == (if sent then q.datagrams + {m} else q.datagrams)
      && r.sendCntr == q.sendCntr + (if sent then 1 else 0)
    ensures Handled(st, handled + [m], p, r)
  {
    SentNext(st, handled, m);
    assert p.dequeued + handled + [m] == p.dequeued + (handled + [m]) + [];
    KeepIn(handled, q.taken, r.taken);
  }

  predicate SameDefinitions(s: Sender, t: Sender) {
    t.seq_ == s.seq_ && t.definitions == s.definitions
  }

  /** The exchange the sync thread does at `pc`. */
  predicate Exchanges(pc: SyncPc, oldState: StreamerState, newState: StreamerState) {
    match pc
    case Sent(seen) => oldState == seen && newState == ACK_WAIT
    case Advance => oldState == ACK_RECV && newState == SEND_DEF
    case TimedOut => oldState == ACK_WAIT && newState == RESEND_DEF
    case Exit(seen) => oldState == seen && newState == RUNNING
    case _ => false
  }

  /** The exchange a handler does at the end. */
  predicate RouterExchanges(h: HandlerPc, oldState: StreamerState, newState: StreamerState) {
    match h
    case AckCompared(_, _, next) => oldState == ACK_WAIT && newState == next
    case Command(seen, next) => oldState == seen && newState == next
    case _ => false
  }

  function AfterExchange(pc: SyncPc): SyncPc {
    match pc
    case Advance => Increment
    case Exit(_) => SetRunning
    case _ => Loop
  }

  lemma SyncKept(w: World, a: Action)
    requires !Owns(Sync, a)
    ensures Kept(Sync, w, Step(w, a))
  {
  }

  lemma DiscardKept(w: World, a: Action)
    requires !Owns(Discard, a)
    ensures Kept(Discard, w, Step(w, a))
  {
  }

  lemma MainKept(w: World, a: Action)
    requires !Owns(Main, a)
    ensures Kept(Main, w, Step(w, a))
  {
    match a {
      case SyncStep =>
      case DiscardStep =>
      case HandlerStep =>
      case _ =>
    }
  }

  lemma RouterKept(w: World, a: Action)
    requires !Owns(Router, a)
    ensures Kept(Router, w, Step(w, a))
  {
  }

  lemma StepKept(t: Thread, w: World, a: Action)
    requires !Owns(t, a)
    ensures Kept(t, w, Step(w, a))
  {
    match t {
      case Sync => SyncKept(w, a);
      case Discard => DiscardKept(w, a);
      case Main => MainKept(w, a);
      case Router => RouterKept(w, a);
    }
  }

  lemma RouterStep(w: World, oldState: StreamerState, newState: StreamerState)
    requires RouterExchanges(w.handler, oldState, newState)
    ensures var v := Step(w, HandlerStep);
      v.handler.Free? && v.s.state == if w.s.state == oldState then newState else w.s.state
  {
  }

  /** The state a command asks for. */
  function Choice(state: StreamerState, target: Address, start: bool, from: Address): Option<StreamerState> {
    if start && state == INIT then Some(CONNECTED)
    else if start && state == STOPPED && target == from then Some(RUNNING)
    else if !start && state == RUNNING && target == from then Some(STOPPED)
    else None
  }

  lemma CommandStep(w: World, start: bool, from: Address)
    requires w.handler.Free? && 1 <= from.group < 256 && 1 <= from.instance < 256
    ensures var v, choice := Step(w, CommandArrives(start, from)), Choice(w.s.state, w.target, start, from);
      v.handler == (if choice.Some? then Command(w.s.state, choice.value) else Free) && v.s == w.s &&
      v.target == if choice == Some(CONNECTED) then from else w.target
  {
  }

  class MutelemetryStreamer {
    const rt: bool
    var world: World   // the fields of the streamer, its queue, and the network
    var turns: seq<seq<Action>>   // what the other threads do between the operations to come
    ghost var trace: seq<Action>

    ghost predicate Reached()
      reads this
    {
      world == Run(Start(rt), trace)
    }

    constructor (rt: bool, turns: seq<seq<Action>>)
      ensures Reached() && world == Start(rt) && this.turns == turns
    {
      this.rt, this.turns := rt, turns;
      world, trace := Start(rt), [];
    }

    /** One step of some thread. */
    method Act(a: Action)
      requires Reached()
      modifies this`world, this`trace
      ensures Reached() && world == Step(old(world), a) && trace == old(trace) + [a]
    {
      RunThen(Start(rt), trace, a);
      world, trace := Step(world, a), trace + [a];
    }

    /** The other threads' turn. */
    method Others(t: Thread) returns (r: Scheduled)
      requires Reached()
      modifies this`world, this`turns, this`trace
      ensures Reached() && Kept(t, old(world), world) && Own(t, trace) == old(Own(t, trace))
      ensures |turns| <= old(|turns|) && (r.GoesOn? ==> |turns| < old(|turns|)) && old(trace) <= trace
    {
      if turns == [] { return Paused; }
      var turn := turns[0];
      turns := turns[1..];
      for i := 0 to |turn|
        invariant Reached() && Kept(t, old(world), world) && |turns| < old(|turns|)
        invariant Own(t, trace) == old(Own(t, trace)) && old(trace) <= trace
      {
        if !Owns(t, turn[i]) {
          StepKept(t, world, turn[i]);
          OwnNext(t, trace, turn[i]);
          Act(turn[i]);
        }
      }
      r := GoesOn;
    }

    // ---- sync_loop ----

    /** `state_.load()` at the head of the second loop, or behind it. */
    method LoadState() returns (state: StreamerState)
      requires Reached() && world.s.sync.Loop?
      modifies this`world, this`trace
      ensures Reached() && SameDefinitions(old(world.s), world.s) && state == old(world.s.state)
      ensures world.s.sync == if world.s.seq_ >= |world.s.definitions| then Exit(state) else Dispatch(state)
    {
      state := world.s.state;
      Act(SyncStep);
    }

    /** `set_state` in the sync thread. */
    method SetState(oldState: StreamerState, newState: StreamerState) returns (result: bool)
      requires Reached() && Exchanges(world.s.sync, oldState, newState)
      modifies this`world, this`trace
      ensures Reached() && SameDefinitions(old(world.s), world.s)
      ensures result == (old(world.s.state) == oldState)
      ensures world.s.state == if result then newState else old(world.s.state)
      ensures world.s.sync == AfterExchange(old(world.s.sync)) && world.s.syncTimeout == old(world.s.syncTimeout)
    {
      result := world.s.state == oldState;
      Act(SyncStep);
    }

    /** `send_ulog_ack` of the definition at `seq_`; on success `sync_timeout_` starts anew. */
    method SendUlogAck(dp: Message) returns (sent: bool)
      requires Reached() && world.s.sync.Send? && world.s.seq_ < |world.s.definitions|
      requires dp == world.s.definitions[world.s.seq_]
      modifies this`world, this`trace
      ensures Reached() && SameDefinitions(old(world.s), world.s) && sent == (|dp| <= 249)
      ensures world.s.sync == if sent then Sent(old(world.s.sync.seen)) else Loop
      ensures sent ==> world.s.syncTimeout == 0
      ensures world.net.packets == if sent then old(world.net.packets) + {Packet(old(world.s.seq_) % 0x1_0000, dp)}
                                   else old(world.net.packets)
    {
      sent := |dp| <= MAX_PAYLOAD;
      Act(SyncStep);
    }

    /** `data_queue_->empty()` in the first loop. */
    method QueueEmpty() returns (isEmpty: bool)
      requires Reached() && world.s.sync.Collect?
      modifies this`world, this`trace
      ensures Reached() && isEmpty == (world.stream.queue == [])
      ensures world.s.sync == if isEmpty then Collect else Front
    {
      isEmpty := world.stream.queue == [];
      Act(SyncStep);
    }

    /** `data_queue_->front()`: nobody else takes from the queue yet, so there is one. */
    method QueueFront() returns (dp: Message)
      requires Reached() && world.s.sync.Front?
      modifies this`world, this`trace
      ensures Reached() && world.stream.queue != [] && dp == world.stream.queue[0]
      ensures world.s.sync == if CheckUlogDataBegin(dp) then StartDiscard else Take(dp)
    {
      RunConserves(rt, trace);
      dp := world.stream.queue[0];
      Act(SyncStep);
    }

    /** `data_queue_->dequeue()` and `definitions_.emplace_back(dp)`: what is taken is what was looked at. */
    method KeepDefinition(dp: Message)
      requires Reached() && world.s.sync == Take(dp)
      modifies this`world, this`trace
      ensures Reached() && world.s.sync.Collect? && world.s.definitions == old(world.s.definitions) + [dp]
      ensures old(world.stream.queue) != [] && dp == old(world.stream.queue[0])
      ensures world.stream.queue == old(world.stream.queue[1..])
    {
      RunConserves(rt, trace);
      Act(SyncStep);
    }

    /** The first loop: definitions up to the first data packet. */
    method CollectDefinitions() returns (r: Scheduled)
      requires Reached() && world.s.sync.Collect?
      modifies this
      ensures Reached() && (r.GoesOn? ==> world.s.sync.Loop? && world.s.discarding)
    {
      while true
        invariant Reached() && world.s.sync.Collect?
        decreases |turns|
      {
        :- Others(Sync);
        var isEmpty := QueueEmpty();
        if isEmpty { continue; }
        :- Others(Sync);
        var dp := QueueFront();
        if CheckUlogDataBegin(dp) {
          :- Others(Sync);
          Act(SyncStep);  // discarding_ = true
          return GoesOn;
        }
        :- Others(Sync);
        KeepDefinition(dp);
      }
    }

    /** `sync_loop`. When it ends the streamer runs, and the client holds every definition, in order, if there are at
        most 65536 of them; each fitted its packet, and one packet went out for each definition and each resend. */
    method SyncLoop() returns (r: Scheduled)
      requires Reached() && world.s.sync.Collect?
      modifies this
      ensures Reached()
      ensures r.GoesOn? ==> world.s.running && world.s.sync.Exited? && world.s.seq_ == |world.s.definitions|
      ensures r.GoesOn? && |LeadingDefinitions(world.stream.produced)| <= 65536 ==>
                world.net.accepted == LeadingDefinitions(world.stream.produced)
      ensures r.GoesOn? ==> StreamerInvariants.Fits(world.s.definitions)
      ensures r.GoesOn? ==> world.s.sent == |world.s.definitions| + world.s.resends
    {
      r := Paused;
      :- CollectDefinitions();
      var defsSz := |world.s.definitions|;

      while world.s.seq_ < defsSz
        invariant Reached() && world.s.sync.Loop? && |world.s.definitions| == defsSz
        decreases |turns|
      {
        :- Others(Sync);
        var state := LoadState();
        match state {
          case CONNECTED => :- SendDefinition(state);
          case RESEND_DEF => :- SendDefinition(state);
          case SEND_DEF => :- SendDefinition(state);
          case ACK_RECV => :- NextDefinition(state);
          case ACK_WAIT => :- AwaitAck(state);
          case _ =>
        }
      }
      :- StartRunning();
      LoopEnded();
      return GoesOn;
    }

    /** The sending cases of the switch. */
    method SendDefinition(state: StreamerState) returns (r: Scheduled)
      requires Reached() && world.s.sync == Send(state) && world.s.seq_ < |world.s.definitions|
      modifies this
      ensures Reached() && |turns| <= old(|turns|)
      ensures r.GoesOn? ==> world.s.sync.Loop? && SameDefinitions(old(world.s), world.s)
    {
      r := Paused;
      :- Others(Sync);
      var dp := world.s.definitions[world.s.seq_];
      var sent := SendUlogAck(dp);
      if sent {
        :- Others(Sync);
        var result := SetState(state, ACK_WAIT);
      }
      r := GoesOn;
    }

    /** The ACK_RECV case. */
    method NextDefinition(state: StreamerState) returns (r: Scheduled)
      requires Reached() && world.s.sync.Advance? && state == ACK_RECV
      modifies this
      ensures Reached() && |turns| <= old(|turns|)
      ensures r.GoesOn? ==>
        world.s.sync.Loop? && world.s.seq_ == old(world.s.seq_) + 1 && world.s.definitions == old(world.s.definitions)
    {
      r := Paused;
      :- Others(Sync);
      var result := SetState(state, SEND_DEF);
      :- Others(Sync);
      Act(SyncStep);  // seq_++
      r := GoesOn;
    }

    /** `sync_timeout_ += 50` */
    method AddTimeout()
      requires Reached() && world.s.sync.Sleep?
      modifies this`world, this`trace
      ensures Reached() && SameDefinitions(old(world.s), world.s)
      ensures world.s.syncTimeout == (if old(world.s.syncTimeout) < 65486 then old(world.s.syncTimeout) + 50
                                      else old(world.s.syncTimeout) - 65486)
      ensures world.s.sync == if world.s.syncTimeout == 1000 then TimedOut else Loop
    {
      Act(SyncStep);
    }

    /** The ACK_WAIT case. */
    method AwaitAck(state: StreamerState) returns (r: Scheduled)
      requires Reached() && world.s.sync.Sleep? && state == ACK_WAIT
      modifies this
      ensures Reached() && |turns| <= old(|turns|)
      ensures r.GoesOn? ==> world.s.sync.Loop? && SameDefinitions(old(world.s), world.s)
      ensures r.GoesOn? ==>
        world.s.syncTimeout == (if old(world.s.syncTimeout) < 65486 then old(world.s.syncTimeout) + 50
                                else old(world.s.syncTimeout) - 65486)
    {
      r := Paused;
      :- Others(Sync);
      AddTimeout();
      if world.s.syncTimeout == 1000 {
        :- Others(Sync);
        var result := SetState(state, RESEND_DEF);
      }
      r := GoesOn;
    }

    /** `running_ = true` */
    method SetRunningFlag()
      requires Reached() && world.s.sync.SetRunning?
      modifies this`world, this`trace
      ensures Reached() && world.s.sync.Exited? && world.s.running
    {
      Act(SyncStep);
    }

    /** Behind the loop: `set_state(state_.load(), STATE_RUNNING)`, then `running_ = true`. */
    method StartRunning() returns (r: Scheduled)
      requires Reached() && world.s.sync.Loop? && world.s.seq_ >= |world.s.definitions|
      modifies this
      ensures Reached() && (r.GoesOn? ==> world.s.sync.Exited?)
    {
      r := Paused;
      :- Others(Sync);
      var state := LoadState();
      :- Others(Sync);
      var result := SetState(state, RUNNING);
      :- Others(Sync);
      SetRunningFlag();
      r := GoesOn;
    }

    lemma LoopEnded()
      requires Reached() && world.s.sync.Exited?
      ensures world.s.running && world.s.seq_ == |world.s.definitions|
      ensures |LeadingDefinitions(world.stream.produced)| <= 65536 ==>
                world.net.accepted == LeadingDefinitions(world.stream.produced)
      ensures StreamerInvariants.Fits(world.s.definitions) && world.s.sent == |world.s.definitions| + world.s.resends
    {
      StreamerInvariants.Reaches(rt, trace);
      AllDeliveredIff(rt, trace);
      AllSent();
    }

    lemma AllSent()
      requires Reached() && world.s.sync.Exited?
      ensures StreamerInvariants.Fits(world.s.definitions) && world.s.sent == |world.s.definitions| + world.s.resends
    {
      SyncEnds.RunSound(rt, trace);
      SyncEnds.EndedFits(world);
      SyncBudget(rt, trace);
    }

    // ---- the other threads ----

    /** `dequeue()` waits while the queue is empty; `own` is the step of the thread that takes. */
    method Dequeue(t: Thread, own: Action) returns (r: Scheduled, dp: Message)
      requires Reached()
      requires if t.Main? then own.MainStep? && world.stream.main.Dequeuing?
               else t.Discard? && own.DiscardStep? && world.stream.discard.Drop?
      modifies this
      ensures Reached() && |turns| <= old(|turns|)
      ensures r.GoesOn? ==> world.stream.taken != [] && dp == world.stream.taken[|world.stream.taken| - 1]
      ensures r.GoesOn? && t.Main? ==> world.stream.main == Handling(old(world.stream.main.seen), dp)
      ensures r.GoesOn? && t.Discard? ==> world.stream.discard.Count?
      ensures old(world.s.running) ==> world.s.running
      ensures r.GoesOn? ==> Own(t, trace) == old(Own(t, trace)) + [own] && old(trace) <= trace
      ensures t.Main? ==>
        && world.stream.datagrams == old(world.stream.datagrams) && world.stream.sendCntr == old(world.stream.sendCntr)
        && old(world.stream.taken) <= world.stream.taken
        && world.stream.dequeued == old(world.stream.dequeued) + (if r.GoesOn? then [dp] else [])
        && (r.Paused? ==> world.stream.main == old(world.stream.main))
    {
      dp := [];
      r := AwaitMessage(t);
      if r.Paused? { return; }
      dp := world.stream.queue[0];
      OwnNext(t, trace, own);
      Act(own);
    }

    /** The wait for a message. */
    method AwaitMessage(t: Thread) returns (r: Scheduled)
      requires Reached()
      modifies this`world, this`turns, this`trace
      ensures Reached() && Kept(t, old(world), world) && |turns| <= old(|turns|)
      ensures Own(t, trace) == old(Own(t, trace)) && old(trace) <= trace
      ensures r.GoesOn? ==> world.stream.queue != []
    {
      while true
        invariant Reached() && Kept(t, old(world), world) && |turns| <= old(|turns|)
        invariant Own(t, trace) == old(Own(t, trace)) && old(trace) <= trace
        decreases |turns|
      {
        r := Others(t);
        if r.Paused? || world.stream.queue != [] { return; }
      }
    }

    /** The first loop of `discard_loop`. */
    method AwaitDiscarding() returns (r: Scheduled)
      requires Reached() && world.stream.discard.Wait?
      modifies this`world, this`turns, this`trace
      ensures Reached() && (r.GoesOn? ==> world.stream.discard.Check?)
    {
      r := GoesOn;
      while true
        invariant Reached() && world.stream.discard.Wait?
        decreases |turns|
      {
        :- Others(Discard);
        var discarding := world.s.discarding;
        Act(DiscardStep);
        if discarding { break; }
      }
    }

    /** One message dropped and counted. */
    method DropMessage() returns (r: Scheduled)
      requires Reached() && world.stream.discard.Drop?
      modifies this
      ensures Reached() && |turns| <= old(|turns|) && (r.GoesOn? ==> world.stream.discard.Check?)
    {
      var s, dp := Dequeue(Discard, DiscardStep);
      if s.Paused? { return s; }
      :- Others(Discard);
      Act(DiscardStep);  // ++skip_cntr_
      r := GoesOn;
    }

    /** `discard_loop`: waits for the definitions to be collected, then drops messages until the streamer runs. */
    method DiscardMessages() returns (r: Scheduled)
      requires Reached() && world.stream.discard.Wait?
      modifies this
      ensures Reached() && (r.GoesOn? ==> world.stream.discard.Finished? && world.s.running)
    {
      r := Paused;
      :- AwaitDiscarding();
      while true
        invariant Reached() && world.stream.discard.Check?
        decreases |turns|
      {
        :- Others(Discard);
        var running := world.s.running;
        Act(DiscardStep);
        if running { break; }
        :- DropMessage();
      }
      r := GoesOn;
    }

    /** The operations of `main_loop` before it takes a message: the load of `running_`, */
    method LoadRunning() returns (running: bool)
      requires Reached() && world.stream.main.Idle?
      modifies this`world, this`trace
      ensures Reached() && running == old(world.s.running) && world.stream.main == if running then Started else Idle
      ensures SameSent(old(world.stream), world.stream) && trace == old(trace) + [MainStep]
      ensures Own(Main, trace) == old(Own(Main, trace)) + [MainStep]
    {
      running := world.s.running;
      OwnNext(Main, trace, MainStep);
      Act(MainStep);
    }

    /** that of `state_`, */
    method LoadForMain() returns (st: StreamerState)
      requires Reached() && world.stream.main.Started?
      modifies this`world, this`trace
      ensures Reached() && st == old(world.s.state) && world.stream.main == Draining(st)
      ensures SameSent(old(world.stream), world.stream) && trace == old(trace) + [MainStep]
      ensures Own(Main, trace) == old(Own(Main, trace)) + [MainStep]
    {
      st := world.s.state;
      OwnNext(Main, trace, MainStep);
      Act(MainStep);
    }

    /** and the test of the queue. */
    method NothingQueued(st: StreamerState) returns (isEmpty: bool)
      requires Reached() && world.stream.main == Draining(st)
      modifies this`world, this`trace
      ensures Reached() && isEmpty == (old(world.stream.queue) == [])
      ensures SameSent(old(world.stream), world.stream) && trace == old(trace) + [MainStep]
      ensures world.stream.main == if isEmpty then Idle else Dequeuing(st)
      ensures Own(Main, trace) == old(Own(Main, trace)) + [MainStep]
    {
      isEmpty := world.stream.queue == [];
      OwnNext(Main, trace, MainStep);
      Act(MainStep);
    }

    /** `main_loop` in the state `st` it saw: it sends each of the messages it handles that fit unless it is stopped,
        and nothing else, and comes back only when it has seen the streamer not running, or no message in the queue. */
    method SendQueued() returns (r: Scheduled, ghost st: StreamerState, ghost handled: seq<Message>)
      requires Reached() && world.stream.main.Idle?
      modifies this
      ensures Reached() && Handled(st, handled, old(world.stream), world.stream)
      ensures r.GoesOn? ==> world.stream.main.Idle? && trace != [] && trace[|trace| - 1] == MainStep
      ensures r.GoesOn? ==>
        var w := Run(Start(rt), trace[..|trace| - 1]);
        if w.stream.main.Idle? then !w.s.running && handled == []
        else w.stream.main == Draining(st) && w.stream.queue == []
    {
      r, st, handled := Paused, INIT, [];
      :- Others(Main);
      var running := LoadRunning();
      if !running {
        assert trace[..|trace| - 1] + [MainStep] == trace;
        return GoesOn, INIT, [];
      }
      r, st, handled := DrainLater();
    }

    /** The rest of `main_loop`, once it saw the streamer running. */
    method DrainLater() returns (r: Scheduled, ghost st: StreamerState, ghost handled: seq<Message>)
      requires Reached() && world.stream.main.Started?
      modifies this
      ensures Reached() && Handled(st, handled, old(world.stream), world.stream)
      ensures r.GoesOn? ==> world.stream.main.Idle? && trace != [] && trace[|trace| - 1] == MainStep
      ensures r.GoesOn? ==>
        var w := Run(Start(rt), trace[..|trace| - 1]); w.stream.main == Draining(st) && w.stream.queue == []
    {
      r, st, handled := Paused, INIT, [];
      :- Others(Main);
      var loaded := LoadForMain();
      st := loaded;
      r, handled := Drain(loaded);
    }

    /** The loop of `main_loop`. */
    method Drain(st: StreamerState) returns (r: Scheduled, ghost handled: seq<Message>)
      requires Reached() && world.stream.main == Draining(st)
      modifies this
      ensures Reached() && Handled(st, handled, old(world.stream), world.stream)
      ensures r.GoesOn? ==> world.stream.main.Idle? && trace != [] && trace[|trace| - 1] == MainStep
      ensures r.GoesOn? ==>
        var w := Run(Start(rt), trace[..|trace| - 1]); w.stream.main == Draining(st) && w.stream.queue == []
    {
      r, handled := Paused, [];
      while true
        invariant Reached() && world.stream.main == Draining(st) && r.Paused?
        invariant Handled(st, handled, old(world.stream), world.stream)
        decreases |turns|
      {
        ghost var before := world.stream;
        :- Others(Main);
        HandledKept(st, handled, old(world.stream), before, world.stream);
        before := world.stream;
        var isEmpty := NothingQueued(st);
        HandledKept(st, handled, old(world.stream), before, world.stream);
        if isEmpty {
          assert trace[..|trace| - 1] + [MainStep] == trace;
          return GoesOn, handled;
        }
        ghost var dp;
        r, dp := HandleNext(st, handled, old(world.stream));
        if r.Paused? { return; }
        r, handled := Paused, handled + [dp];
      }
    }

    /** The next message in the queue, sent or skipped. */
    method HandleNext(st: StreamerState, ghost handled: seq<Message>, ghost from: Stream)
        returns (r: Scheduled, dp: Message)
      requires Reached() && world.stream.main == Dequeuing(st) && Handled(st, handled, from, world.stream)
      modifies this
      ensures Reached() && |turns| <= old(|turns|)
      ensures r.Paused? ==> Handled(st, handled, from, world.stream)
      ensures r.GoesOn? ==> world.stream.main == Draining(st) && Handled(st, handled + [dp], from, world.stream)
    {
      ghost var before := world.stream;
      r, dp := Dequeue(Main, MainStep);
      if r.Paused? {
        assert world.stream.dequeued == before.dequeued;
        HandledKept(st, handled, from, before, world.stream);
        return;
      }
      HandledTaken(st, handled, from, before, world.stream, dp);
      before := world.stream;
      assert dp in before.taken;
      r := Others(Main);
      HandledKept(st, handled, from, before, world.stream);
      if r.Paused? { return; }
      assert dp in world.stream.taken by {
        var i :| 0 <= i < |before.taken| && before.taken[i] == dp;
        assert world.stream.taken[i] == dp;
      }
      before := world.stream;
      SendOrSkip(st, dp);
      HandledNext(st, handled, from, before, world.stream, dp);
    }

    /** One message: skipped when stopped or too long for a LOGGING_DATA packet, sent otherwise. */
    method SendOrSkip(st: StreamerState, dp: Message)
      requires Reached() && world.stream.main == Handling(st, dp)
      modifies this`world, this`trace
      ensures Reached() && world.stream.main == Draining(st)
      ensures var sent := st != STOPPED && |dp| <= 249;
        && world.stream.datagrams == (if sent then old(world.stream.datagrams) + {dp} else old(world.stream.datagrams))
        && world.stream.sendCntr == old(world.stream.sendCntr) + (if sent then 1 else 0)
        && world.stream.skipCntr == old(world.stream.skipCntr) + (if sent then 0 else 1)
        && world.stream.taken == old(world.stream.taken) && world.stream.dequeued == old(world.stream.dequeued)
      ensures Own(Main, trace) == old(Own(Main, trace)) + [MainStep]
    {
      OwnNext(Main, trace, MainStep);
      Act(MainStep);
    }

    /** `set_state` in the router thread, at the end of either handler. */
    method RouterSetState(oldState: StreamerState, newState: StreamerState) returns (result: bool)
      requires Reached() && RouterExchanges(world.handler, oldState, newState)
      modifies this`world, this`trace
      ensures Reached() && world.handler.Free? && result == (old(world.s.state) == oldState)
      ensures world.s.state == if result then newState else old(world.s.state)
      ensures Own(Router, trace) == old(Own(Router, trace)) + [HandlerStep] && trace == old(trace) + [HandlerStep]
    {
      result := world.s.state == oldState;
      RouterStep(world, oldState, newState);
      OwnNext(Router, trace, HandlerStep);
      Act(HandlerStep);
    }

    /** The ack handler's load of `state_`. */
    method LoadForAck(ack: nat) returns (state: StreamerState)
      requires Reached() && world.handler.Free? && ack in world.net.acks
      modifies this`world, this`trace
      ensures Reached() && world.handler == if state == ACK_WAIT then AckSeen(ack) else Free
      ensures Own(Router, trace) == old(Own(Router, trace)) + [AckArrives(ack)]
      ensures trace == old(trace) + [AckArrives(ack)]
    {
      OwnNext(Router, trace, AckArrives(ack));
      state := world.s.state;
      Act(AckArrives(ack));
    }

    /** The ack handler's comparison with `seq_`. */
    method CompareAck(ack: nat) returns (newState: StreamerState)
      requires Reached() && world.handler == AckSeen(ack)
      modifies this`world, this`trace
      ensures Reached() && newState == if ack == old(world.s.seq_) % 0x1_0000 then ACK_RECV else RESEND_DEF
      ensures RouterExchanges(world.handler, ACK_WAIT, newState)
      ensures Own(Router, trace) == old(Own(Router, trace)) + [HandlerStep] && trace == old(trace) + [HandlerStep]
    {
      OwnNext(Router, trace, HandlerStep);
      newState := if ack == world.s.seq_ % SEQUENCES then ACK_RECV else RESEND_DEF;
      Act(HandlerStep);
    }

    /** `proto_logging_ack_handler` for an ack the client sent; `seen` is when it loaded the state. It goes on to
        compare and exchange exactly if the state it saw was ACK_WAIT. */
    method HandleLoggingAck(ack: nat) returns (r: Scheduled, ghost seen: nat)
      requires Reached() && world.handler.Free? && ack in world.net.acks
      modifies this
      ensures Reached() && (r.GoesOn? ==> world.handler.Free?)
      ensures r.GoesOn? ==> old(|trace|) <= seen < |trace| && trace[seen] == AckArrives(ack)
      ensures r.GoesOn? ==>
        Own(Router, trace) == old(Own(Router, trace)) +
          if Run(Start(rt), trace[..seen]).s.state == ACK_WAIT then [AckArrives(ack)] + [HandlerStep] + [HandlerStep]
          else [AckArrives(ack)]
    {
      r, seen := Paused, 0;
      :- Others(Router);
      seen := |trace|;
      ghost var before := trace;
      var state := LoadForAck(ack);
      assert trace[..seen] == before;
      if state == ACK_WAIT {
        :- ExchangeAck(ack);
        assert trace[..seen] == before;
      }
      r := GoesOn;
    }

    /** The ack handler behind its load of ACK_WAIT. */
    method ExchangeAck(ack: nat) returns (r: Scheduled)
      requires Reached() && world.handler == AckSeen(ack)
      modifies this`world, this`turns, this`trace
      ensures Reached() && old(trace) <= trace
      ensures r.GoesOn? ==>
        world.handler.Free? && Own(Router, trace) == old(Own(Router, trace)) + [HandlerStep] + [HandlerStep]
    {
      r := Paused;
      :- Others(Router);
      var newState := CompareAck(ack);
      :- Others(Router);
      var result := RouterSetState(ACK_WAIT, newState);
      r := GoesOn;
    }

    /** The command handler's load of `state_`, the choice of the new one and, on a first start, the target. */
    method ChooseState(start: bool, from: Address) returns (state: StreamerState, newState: Option<StreamerState>)
      requires Reached() && world.handler.Free? && 1 <= from.group < 256 && 1 <= from.instance < 256
      modifies this`world, this`trace
      ensures Reached() && state == old(world.s.state) && newState == Choice(state, old(world.target), start, from)
      ensures world.handler == if newState.Some? then Command(state, newState.value) else Free
      ensures world.target == if newState == Some(CONNECTED) then from else old(world.target)
      ensures Own(Router, trace) == old(Own(Router, trace)) + [CommandArrives(start, from)]
      ensures trace == old(trace) + [CommandArrives(start, from)]
    {
      OwnNext(Router, trace, CommandArrives(start, from));
      state, newState := world.s.state, None;
      if start {
        if state == INIT {
          newState := Some(CONNECTED);
        } else if state == STOPPED {
          if world.target == from { newState := Some(RUNNING); }
        }
      } else if state == RUNNING {
        if world.target == from { newState := Some(STOPPED); }
      }
      CommandStep(world, start, from);
      Act(CommandArrives(start, from));
    }

    /** `proto_command_handler` for a start or stop command from `from`; `seen` is when it loaded the state. It goes on
        to exchange exactly if the state and target it saw let the command ask for a new state. */
    method HandleCommand(start: bool, from: Address) returns (r: Scheduled, ghost seen: nat)
      requires Reached() && world.handler.Free? && 1 <= from.group < 256 && 1 <= from.instance < 256
      modifies this
      ensures Reached() && (r.GoesOn? ==> world.handler.Free?)
      ensures r.GoesOn? ==> old(|trace|) <= seen < |trace| && trace[seen] == CommandArrives(start, from)
      ensures r.GoesOn? ==>
        var w := Run(Start(rt), trace[..seen]);
        Own(Router, trace) == old(Own(Router, trace)) +
          if Choice(w.s.state, w.target, start, from).Some? then [CommandArrives(start, from)] + [HandlerStep]
          else [CommandArrives(start, from)]
    {
      r, seen := Paused, 0;
      :- Others(Router);
      seen := |trace|;
      ghost var before := trace;
      var state, newState := ChooseState(start, from);
      assert trace[..seen] == before;
      if newState.Some? {
        :- Others(Router);
        var result := RouterSetState(state, newState.value);
        assert trace[..seen] == before;
      }
      r := GoesOn;
    }
  }
}
