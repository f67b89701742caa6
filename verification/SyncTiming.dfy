/** How long `sync_loop` waits for an ack: the waits themselves are counted, whatever `sync_timeout_` says. */
module SyncTiming {
  import opened Streamer
  import opened StreamerInvariants
  import StreamerTheorems
  import SyncEnds

  /** The waits of 50 ms that `sync_loop` has finished since it last sent a definition. */
  function Waits(rt: bool, actions: seq<Action>): nat {
    if actions == [] then 0
    else
      var before := actions[..|actions| - 1];
      WaitsAfter(Run(Start(rt), before), actions[|actions| - 1], Waits(rt, before))
  }

  /** A packet sent starts the count anew; the end of a wait is one more. */
  function WaitsAfter(w: World, a: Action, waits: nat): nat {
    if Step(w, a).s.sent > w.s.sent then 0 else if a.SyncStep? && w.s.sync.Sleep? then waits + 1 else waits
  }

  /** `sync_timeout_` tells the waits, and the twentieth is the one that times out. */
  predicate Timed(s: Sender, waits: nat) {
    && s.syncTimeout == 50 * waits && waits <= 20
    && (s.sync.TimedOut? ==> waits == 20)
    && (s.sync.Sleep? || (s.sync.Loop? && s.state == ACK_WAIT) ==> waits < 20)
    && (s.sync.Sent? ==> waits == 0)
  }

  lemma RoundKeepsTimed(s: Sender, waits: nat)
    requires SyncControl(s) && !Collecting(s) && Timed(s, waits)
    ensures var t := SyncRound(s);
      Timed(t, if t.sent > s.sent then 0 else if s.sync.Sleep? then waits + 1 else waits)
  {
    match s.sync {
      case Loop =>
      case Send(_) =>
      case Sleep =>
      case _ =>
    }
  }

  lemma SyncKeepsTimed(w: World, waits: nat)
    requires Inv(w) && Timed(w.s, waits)
    ensures Timed(Step(w, SyncStep).s, WaitsAfter(w, SyncStep, waits))
  {
    if !Collecting(w.s) {
      RoundAsExpected(w);
      RoundKeepsTimed(w.s, waits);
    }
  }

  lemma OthersKeepTimed(w: World, a: Action, waits: nat)
    requires Inv(w) && Timed(w.s, waits) && !a.SyncStep?
    ensures Timed(Step(w, a).s, WaitsAfter(w, a, waits))
  {
  }

  /** Nothing is sent, and nothing waited for, by a stream that opens with data. */
  lemma NothingTimed(w: World, a: Action, waits: nat)
    requires NothingToSync(w) && Timed(w.s, waits)
    ensures Timed(Step(w, a).s, WaitsAfter(w, a, waits))
  {
  }

  lemma {:induction false} RunTimed(rt: bool, actions: seq<Action>)
    ensures Timed(Run(Start(rt), actions).s, Waits(rt, actions))
  {
    if actions != [] {
      var before, a := actions[..|actions| - 1], actions[|actions| - 1];
      RunTimed(rt, before);
      Reaches(rt, before);
      StepTimed(Run(Start(rt), before), a, Waits(rt, before));
    }
  }

  lemma StepTimed(w: World, a: Action, waits: nat)
    requires (Inv(w) || NothingToSync(w)) && Timed(w.s, waits)
    ensures Timed(Step(w, a).s, WaitsAfter(w, a, waits))
  {
    if NothingToSync(w) { NothingTimed(w, a, waits); }
    else if a.SyncStep? { SyncKeepsTimed(w, waits); }
    else { OthersKeepTimed(w, a, waits); }
  }

  /** In every run: a wait is one of the first twenty behind its packet; the exchange to RESEND_DEF is reached by the
      twentieth and by no earlier one; so a resend by timeout, at the hands of the sync thread, lies exactly twenty
      waits of 50 ms, one second, behind the packet it repeats. */
  lemma TimeoutAtTwenty(rt: bool, actions: seq<Action>)
    ensures var w, v := Run(Start(rt), actions), Run(Start(rt), actions + [SyncStep]);
      && (w.s.sync.Sleep? ==>
            Waits(rt, actions) < 20 && Waits(rt, actions + [SyncStep]) == Waits(rt, actions) + 1 &&
            (v.s.sync.TimedOut? <==> Waits(rt, actions + [SyncStep]) == 20) && (v.s.sync.TimedOut? || v.s.sync.Loop?))
      && (w.s.sync.TimedOut? ==> Waits(rt, actions) == 20)
      && (v.s.resends > w.s.resends ==> w.s.sync.TimedOut? && Waits(rt, actions) == 20)
  {
    var w := Run(Start(rt), actions);
    StreamerTheorems.RunThen(Start(rt), actions, SyncStep);
    assert (actions + [SyncStep])[..|actions|] == actions;
    Reaches(rt, actions);
    RunTimed(rt, actions);
    RunTimed(rt, actions + [SyncStep]);
    if Inv(w) && !Collecting(w.s) { RoundAsExpected(w); }
  }

  // ---- the counters ----

  /** What `sync_loop` can be counted by. */
  datatype Kind = PacketSent | ResendEntered | InitSeen | OtherSeen

  /** Whether a step is such an occurrence. */
  predicate Occurs(kind: Kind, w: World, a: Action) {
    var looks := a.SyncStep? && w.s.sync.Loop? && w.s.seq_ < |w.s.definitions|;
    match kind
    case PacketSent =>
      a.SyncStep? && w.s.sync.Send? && w.s.seq_ < |w.s.definitions| && |w.s.definitions[w.s.seq_]| <= 249
    case ResendEntered => w.s.state != RESEND_DEF && Step(w, a).s.state == RESEND_DEF
    case InitSeen => looks && w.s.state == INIT
    case OtherSeen => looks && w.s.state != INIT
  }

  function Occurrences(kind: Kind, rt: bool, actions: seq<Action>): nat {
    if actions == [] then 0
    else
      var before := actions[..|actions| - 1];
      Occurrences(kind, rt, before) +
      if Occurs(kind, Run(Start(rt), before), actions[|actions| - 1]) then 1 else 0
  }

  predicate OneMore(before: nat, after: nat, occurs: bool) {
    after == if occurs then before + 1 else before
  }

  predicate CountsStep(w: World, a: Action) {
    var v := Step(w, a);
    && OneMore(w.s.sent, v.s.sent, Occurs(PacketSent, w, a))
    && OneMore(w.s.resends, v.s.resends, Occurs(ResendEntered, w, a))
    && OneMore(w.s.initRounds, v.s.initRounds, Occurs(InitSeen, w, a))
    && OneMore(w.s.rounds, v.s.rounds, Occurs(OtherSeen, w, a))
  }

  lemma StepCounted(w: World, a: Action)
    requires Inv(w) || NothingToSync(w)
    ensures CountsStep(w, a)
  {
    if a.SyncStep? { SyncCounted(w); }
    if a.HandlerStep? { HandlerCounted(w); }
  }

  lemma HandlerCounted(w: World)
    requires Inv(w) || NothingToSync(w)
    ensures CountsStep(w, HandlerStep)
  {
  }

  lemma SyncCounted(w: World)
    ensures CountsStep(w, SyncStep)
  {
    if Collecting(w.s) {
      assert SyncLoop(w).s.(sync := w.s.sync, discarding := w.s.discarding, definitions := w.s.definitions) == w.s;
    } else {
      SyncEnds.RoundIs(w);
      RoundCounts(w.s);
      RoundResends(w.s);
    }
  }

  lemma RoundCounts(s: Sender)
    ensures var t := SyncRound(s); var looks := s.sync.Loop? && s.seq_ < |s.definitions|;
      && t.sent == s.sent + (if s.sync.Send? && Sendable(s) then 1 else 0)
      && t.initRounds == s.initRounds + (if looks && s.state == INIT then 1 else 0)
      && t.rounds == s.rounds + (if looks && s.state != INIT then 1 else 0)
  {
    match s.sync {
      case Loop =>
      case Send(_) =>
      case Sleep =>
      case _ =>
    }
  }

  lemma RoundResends(s: Sender)
    ensures var t := SyncRound(s);
      t.resends == s.resends + (if s.state != RESEND_DEF && t.state == RESEND_DEF then 1 else 0)
  {
    match s.sync {
      case Loop =>
      case Sent(_) =>
      case TimedOut =>
      case Sleep =>
      case _ =>
    }
  }

  /** In every run the streamer's counters are what they are called: the packets sent, the entries into RESEND_DEF, and
      the rounds of the second loop that found INIT and that did not. */
  lemma {:induction false} CountersCount(rt: bool, actions: seq<Action>)
    ensures var s := Run(Start(rt), actions).s;
      && s.sent == Occurrences(PacketSent, rt, actions) && s.resends == Occurrences(ResendEntered, rt, actions)
      && s.initRounds == Occurrences(InitSeen, rt, actions) && s.rounds == Occurrences(OtherSeen, rt, actions)
  {
    if actions != [] {
      var before := actions[..|actions| - 1];
      CountersCount(rt, before);
      Reaches(rt, before);
      StepCounted(Run(Start(rt), before), actions[|actions| - 1]);
    }
  }
}
