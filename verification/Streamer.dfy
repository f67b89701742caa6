/** The definition sync protocol between `MutelemetryStreamer` and the telemetry client, as a
    transition system. Every atomic load, compare-exchange, queue operation and packet is one step;
    purely local computation rides on the step before it. Three threads of the streamer
    (`sync_loop`, `discard_loop`, `main_loop`), the router thread that runs the two protocol
    handlers one at a time, the client and the producers take steps in any order. */
module Streamer {
  import Bytes

  type Message = seq<Bytes.byte>

  // MAVLINK_MSG_LOGGING_DATA_FIELD_DATA_LEN and MAVLINK_MSG_LOGGING_DATA_ACKED_FIELD_DATA_LEN
  const MAX_PAYLOAD := 249
  const SEQUENCES := 0x1_0000

  type uint16 = n: int | 0 <= n < SEQUENCES

  /** `sync_timeout_ += 50`, in 16 bits. */
  function Plus50(t: uint16): uint16 {
    if t + 50 < SEQUENCES then t + 50 else t + 50 - SEQUENCES
  }

  /** `check_ulog_data_begin`: the type byte of the message header is 'A'. */
  predicate CheckUlogDataBegin(m: Message) {
    |m| >= 3 && m[2] == 'A' as int
  }

  datatype StreamerState =
    INIT | CONNECTED | SEND_DEF | RESEND_DEF | ACK_RECV | ACK_WAIT | RUNNING | STOPPED

  /** A LOGGING_DATA_ACKED packet; a LOGGING_ACK is just its sequence number. */
  datatype Packet = Packet(sequence: nat, data: Message)

  datatype Address = Address(group: nat, instance: nat)

  /** Where `sync_loop` is: the next atomic operation it will perform. */
  datatype SyncPc =
    | Collect                      // data_queue_->empty()
    | Front                        // data_queue_->front()
    | Take(front: Message)         // data_queue_->dequeue()
    | StartDiscard                 // discarding_ = true
    | Loop                         // state_.load()
    | Send(seen: StreamerState)    // send_ulog_ack
    | Sent(seen: StreamerState)    // exchange seen -> ACK_WAIT
    | Advance                      // exchange ACK_RECV -> SEND_DEF
    | Increment                    // seq_++
    | Sleep                        // sync_timeout_ += 50
    | TimedOut                     // exchange ACK_WAIT -> RESEND_DEF
    | Exit(seen: StreamerState)    // exchange seen -> RUNNING
    | SetRunning                   // running_ = true
    | Exited

  datatype DiscardPc = Absent | Wait | Check | Drop | Count | Finished

  datatype MainPc =
    | Idle                                      // running_ load
    | Started                                   // state_.load()
    | Draining(seen: StreamerState)             // data_queue_->empty()
    | Dequeuing(seen: StreamerState)            // data_queue_->dequeue()
    | Handling(seen: StreamerState, message: Message)  // send_ulog, counters

  datatype HandlerPc =
    | Free
    | AckSeen(ack: nat)                         // state_ was ACK_WAIT; seq_ is read next
    | AckCompared(ack: nat, compared: nat, next: StreamerState)
    | Command(seen: StreamerState, next: StreamerState)

  /** Compare-exchanges that have failed so far. */
  datatype Lost = Lost(send: bool, advance: bool, timeout: bool, exit: bool, ack: bool, command: bool)

  /** What `sync_loop` works on: fields of `MutelemetryStreamer`, its program counter and its history. */
  datatype Sender = Sender(
    state: StreamerState, seq_: nat, definitions: seq<Message>, discarding: bool, running: bool, syncTimeout: uint16,
    sync: SyncPc,
    sent: nat,          // definition packets sent
    resends: nat,       // entries into RESEND_DEF
    rounds: nat,        // iterations of the second loop that did not see INIT
    initRounds: nat,    // iterations of the second loop that saw INIT
    steps: nat,         // steps of the second loop and of the exit
    lost: Lost,
    refused: bool)      // send_ulog_ack turned down a definition

  /** Everything ever sent, and the client. A step may deliver any element of `packets` or `acks` any
      number of times or never, so both are lost, duplicated and reordered but not forged. */
  datatype Net = Net(packets: set<Packet>, acks: set<nat>, keeper: set<nat>, accepted: seq<Message>)

  /** The network queue and its two readers besides `sync_loop`. */
  datatype Stream = Stream(
    queue: seq<Message>, produced: seq<Message>, taken: seq<Message>,
    dequeued: seq<Message>,   // those of `taken` that `main_loop` took
    discard: DiscardPc, main: MainPc, datagrams: set<Message>, sendCntr: nat, skipCntr: nat)

  datatype World = World(
    s: Sender, net: Net, stream: Stream,
    handler: HandlerPc, target: Address,
    unexpected: bool)   // an assertion on `state_` or on the target failed

  function Start(rt: bool): World {
    World(Sender(INIT, 0, [], false, false, 0, Collect, 0, 0, 0, 0, 0,
                 Lost(false, false, false, false, false, false), false),
          Net({}, {}, {}, []),
          Stream([], [], [], [], if rt then Wait else Absent, Idle, {}, 0, 0),
          Free, Address(0, 0), false)
  }

  datatype Action =
    | SyncStep
    | DiscardStep
    | MainStep
    | HandlerStep
    | AckArrives(ack: nat)
    | CommandArrives(start: bool, from: Address)
    | ClientReceives(packet: Packet)
    | Enqueue(message: Message)

  /** One step. A step that is not enabled leaves the world as it is. */
  function Step(w: World, a: Action): World {
    match a
    case SyncStep => SyncLoop(w)
    case DiscardStep => w.(stream := DiscardLoop(w.stream, w.s.discarding, w.s.running))
    case MainStep =>
      w.(stream := MainLoop(w.stream, w.s.running, w.s.state),
         unexpected := w.unexpected || (w.stream.main.Started? && w.s.state != RUNNING && w.s.state != STOPPED))
    case HandlerStep => Handler(w)
    case AckArrives(ack) => ProtoLoggingAckHandler(w, ack)
    case CommandArrives(start, from) => ProtoCommandHandler(w, start, from)
    case ClientReceives(packet) => w.(net := LoggingDataAcked(w.net, packet))
    case Enqueue(m) =>
      if |m| < 3 then w
      else w.(stream := w.stream.(queue := w.stream.queue + [m], produced := w.stream.produced + [m]))
  }

  function Run(w: World, actions: seq<Action>): World {
    if actions == [] then w
    else Step(Run(w, actions[..|actions| - 1]), actions[|actions| - 1])
  }

  /** The first loop of `sync_loop`, up to the first data packet; then its second loop. */
  function SyncLoop(w: World): World {
    var queue := w.stream.queue;
    match w.s.sync
    case Collect => if queue == [] then w else w.(s := w.s.(sync := Front))
    case Front =>
      if queue == [] then w
      else w.(s := w.s.(sync := if CheckUlogDataBegin(queue[0]) then StartDiscard else Take(queue[0])))
    case Take(dp) =>
      if queue == [] then w
      else w.(stream := w.stream.(queue := queue[1..]),
              s := w.s.(definitions := w.s.definitions + [dp], sync := Collect))
    case StartDiscard => w.(s := w.s.(discarding := true, sync := Loop))
    case Send(_) =>
      if Sendable(w.s) then
        w.(s := SyncRound(w.s), net := w.net.(packets := w.net.packets + {DefinitionPacket(w.s.definitions, w.s.seq_)}))
      else w.(s := SyncRound(w.s))
    case Loop =>
      var noTarget := w.s.state == CONNECTED && (w.target.group == 0 || w.target.instance == 0);
      w.(s := SyncRound(w.s),
         unexpected := w.unexpected || (w.s.seq_ < |w.s.definitions| && (noTarget || w.s.state == RUNNING)))
    case _ => w.(s := SyncRound(w.s))
  }

  predicate Sendable(s: Sender) {
    s.seq_ < |s.definitions| && |s.definitions[s.seq_]| <= MAX_PAYLOAD
  }

  /** The packet that carries definition `k`; the sequence number is cut to 16 bits. */
  function DefinitionPacket(definitions: seq<Message>, k: nat): Packet
    requires k < |definitions|
  {
    Packet(k % SEQUENCES, definitions[k])
  }

  /** The second loop of `sync_loop` and the exit. */
  function SyncRound(before: Sender): Sender {
    var s := if before.sync.Exited? then before else before.(steps := before.steps + 1);
    match s.sync
    case Loop =>
      if s.seq_ >= |s.definitions| then s.(sync := Exit(s.state))
      else if s.state == INIT then s.(initRounds := s.initRounds + 1)
      else s.(rounds := s.rounds + 1, sync := Dispatch(s.state))
    case Send(seen) =>
      if Sendable(s) then s.(sent := s.sent + 1, syncTimeout := 0, sync := Sent(seen))
      else s.(sync := Loop, refused := true)
    case Sent(seen) =>
      if s.state == seen then s.(state := ACK_WAIT, sync := Loop)
      else s.(sync := Loop, lost := s.lost.(send := true))
    case Advance =>
      if s.state == ACK_RECV then s.(state := SEND_DEF, sync := Increment)
      else s.(sync := Increment, lost := s.lost.(advance := true))
    case Increment => s.(seq_ := s.seq_ + 1, sync := Loop)
    case Sleep =>
      var t := Plus50(s.syncTimeout);
      s.(syncTimeout := t, sync := if t == 1000 then TimedOut else Loop)
    case TimedOut =>
      if s.state == ACK_WAIT then s.(state := RESEND_DEF, resends := s.resends + 1, sync := Loop)
      else s.(sync := Loop, lost := s.lost.(timeout := true))
    case Exit(seen) =>
      if s.state == seen then s.(state := RUNNING, sync := SetRunning)
      else s.(sync := SetRunning, lost := s.lost.(exit := true))
    case SetRunning => s.(running := true, sync := Exited)
    case _ => s
  }

  /** The switch of the second loop, on the state just loaded. */
  function Dispatch(state: StreamerState): SyncPc {
    match state
    case CONNECTED => Send(state)
    case RESEND_DEF => Send(state)
    case SEND_DEF => Send(state)
    case ACK_RECV => Advance
    case ACK_WAIT => Sleep
    case _ => Loop
  }

  function DiscardLoop(q: Stream, discarding: bool, running: bool): Stream {
    match q.discard
    case Wait => if discarding then q.(discard := Check) else q
    case Check => q.(discard := if running then Finished else Drop)
    case Drop =>
      if q.queue == [] then q
      else q.(queue := q.queue[1..], taken := q.taken + [q.queue[0]], discard := Count)
    case Count => q.(skipCntr := q.skipCntr + 1, discard := Check)
    case _ => q
  }

  function MainLoop(q: Stream, running: bool, state: StreamerState): Stream {
    match q.main
    case Idle => if running then q.(main := Started) else q
    case Started => q.(main := Draining(state))
    case Draining(seen) => q.(main := if q.queue == [] then Idle else Dequeuing(seen))
    case Dequeuing(seen) =>
      if q.queue == [] then q
      else q.(queue := q.queue[1..], taken := q.taken + [q.queue[0]], dequeued := q.dequeued + [q.queue[0]],
              main := Handling(seen, q.queue[0]))
    case Handling(seen, m) =>
      if seen == STOPPED || |m| > MAX_PAYLOAD then q.(skipCntr := q.skipCntr + 1, main := Draining(seen))
      else q.(datagrams := q.datagrams + {m}, sendCntr := q.sendCntr + 1, main := Draining(seen))
  }

  /** Entry of the ack handler up to the load of `state_`; only acks the client sent arrive. */
  function ProtoLoggingAckHandler(w: World, ack: nat): World {
    if w.handler != Free || ack !in w.net.acks || w.s.state != ACK_WAIT then w
    else w.(handler := AckSeen(ack))
  }

  /** Entry of the command handler: the load of `state_`, the choice of the new state and, on a
      first start, the target. Commands come from addresses with ids in 1..255. */
  function ProtoCommandHandler(w: World, start: bool, from: Address): World {
    var state := w.s.state;
    if w.handler != Free || !(1 <= from.group < 256 && 1 <= from.instance < 256) then w
    else if start && state == INIT then w.(target := from, handler := Command(INIT, CONNECTED))
    else if start && state == STOPPED && w.target == from then w.(handler := Command(STOPPED, RUNNING))
    else if !start && state == RUNNING && w.target == from then w.(handler := Command(RUNNING, STOPPED))
    else w
  }

  /** The rest of the handler in progress. */
  function Handler(w: World): World {
    match w.handler
    case Free => w
    case AckSeen(ack) =>
      var next := if ack == w.s.seq_ % SEQUENCES then ACK_RECV else RESEND_DEF;
      w.(handler := AckCompared(ack, w.s.seq_, next))
    case AckCompared(_, _, next) => w.(handler := Free, s := AckExchange(w.s, next))
    case Command(seen, next) => w.(handler := Free, s := CommandExchange(w.s, seen, next))
  }

  function AckExchange(s: Sender, next: StreamerState): Sender {
    if s.state == ACK_WAIT then s.(state := next, resends := if next == RESEND_DEF then s.resends + 1 else s.resends)
    else s.(lost := s.lost.(ack := true))
  }

  function CommandExchange(s: Sender, seen: StreamerState, next: StreamerState): Sender {
    if s.state == seen then s.(state := next) else s.(lost := s.lost.(command := true))
  }

  /** The client's LOGGING_DATA_ACKED handler: keep a sequence number once, acknowledge always. */
  function LoggingDataAcked(net: Net, p: Packet): Net {
    if p !in net.packets then net
    else
      var isNew := p.sequence !in net.keeper;
      net.(keeper := net.keeper + {p.sequence},
           accepted := if isNew then net.accepted + [p.data] else net.accepted,
           acks := net.acks + {p.sequence})
  }
}
