/** The logger built with posted I/O: a buffer taken out of use is copied, cleared, stacked and written by a job
    that runs concurrently with `main_loop`, and jobs overtake one another. Swapping and stacking happen under
    `idx_mutex_`, so each is one step. */
module PostedIo {
  import opened Bytes
  import Text
  import opened Logger

  datatype Buffer = Buffer(messages: seq<Message>, full: bool)

  const EMPTY := Buffer([], false)

  /** The job of one buffer, by what it has done. */
  datatype Job =
    | Posted(buffer: nat)
    | Copied(buffer: nat, result: seq<byte>)
    | Cleared(buffer: nat, result: seq<byte>)
    | Stacked(result: seq<byte>)
    | Done

  datatype State = State(
    pool: seq<Buffer>, stack: seq<nat>, curr: nat,
    jobs: seq<Job>,                  // in the order in which they were posted
    file: seq<byte>,
    taken: seq<Message>,             // messages dequeued so far
    chunks: seq<seq<Message>>,       // the messages each job is to write
    written: seq<nat>)               // the jobs in the order in which they wrote

  datatype Action = TakeMessage(m: Message) | Swap | Work(job: nat)

  function Start(): State {
    State(seq(POOL, _ => EMPTY), seq(POOL - 1, i => i + 1), 0, [], [], [], [], [])
  }

  /** One step; a step that is not enabled changes nothing. */
  function Step(s: State, a: Action): State {
    if !InRange(s) then s
    else
    match a
    case TakeMessage(m) => if s.pool[s.curr].full then s else Take(s, m)
    case Swap => if Flat(s.pool[s.curr].messages) == [] || s.stack == [] then s else SwapOut(s)
    case Work(j) => if j < |s.jobs| then WorkOn(s, j) else s
  }

  /** Every index points into the pool. */
  predicate InRange(s: State) {
    && |s.pool| == POOL && s.curr < POOL
    && (forall i :: 0 <= i < |s.stack| ==> s.stack[i] < POOL)
    && (forall j :: 0 <= j < |s.jobs| && Holds(s.jobs[j]) ==> s.jobs[j].buffer < POOL)
  }

  /** The job still has its buffer. */
  predicate Holds(j: Job) {
    j.Posted? || j.Copied? || j.Cleared?
  }

  function Take(s: State, m: Message): State
    requires InRange(s)
  {
    var b := s.pool[s.curr];
    var messages := b.messages + [m];
    s.(pool := s.pool[s.curr := Buffer(messages, |Flat(messages)| >= MAX_DATA_SIZE)], taken := s.taken + [m])
  }

  /** The current buffer, full or old, is exchanged for the top of the stack and handed to a job. */
  function SwapOut(s: State): State
    requires InRange(s) && s.stack != []
  {
    s.(curr := s.stack[|s.stack| - 1], stack := s.stack[..|s.stack| - 1],
       jobs := s.jobs + [Posted(s.curr)], chunks := s.chunks + [s.pool[s.curr].messages])
  }

  function WorkOn(s: State, j: nat): State
    requires InRange(s) && j < |s.jobs|
  {
    match s.jobs[j]
    case Posted(b) => s.(jobs := s.jobs[j := Copied(b, Flat(s.pool[b].messages))])
    case Copied(b, result) => s.(jobs := s.jobs[j := Cleared(b, result)], pool := s.pool[b := EMPTY])
    case Cleared(b, result) => s.(jobs := s.jobs[j := Stacked(result)], stack := s.stack + [b])
    case Stacked(result) => s.(jobs := s.jobs[j := Done], file := s.file + result, written := s.written + [j])
    case Done => s
  }

  function Run(actions: seq<Action>): State {
    if actions == [] then Start() else Step(Run(actions[..|actions| - 1]), actions[|actions| - 1])
  }

  // ---- the invariant ----

  /** Every buffer is current, stacked or held by one job, and in one place only. */
  predicate Partition(s: State) {
    && InRange(s)
    && s.curr !in s.stack && (forall i, j :: 0 <= i < j < |s.stack| ==> s.stack[i] != s.stack[j])
    && (forall j :: 0 <= j < |s.jobs| && Holds(s.jobs[j]) ==>
          s.jobs[j].buffer != s.curr && s.jobs[j].buffer !in s.stack)
    && (forall j, k :: 0 <= j < k < |s.jobs| && Holds(s.jobs[j]) && Holds(s.jobs[k]) ==>
          s.jobs[j].buffer != s.jobs[k].buffer)
    && (forall b :: 0 <= b < POOL ==> b == s.curr || b in s.stack || Held(s.jobs, b))
  }

  predicate Held(jobs: seq<Job>, b: nat) {
    exists j :: 0 <= j < |jobs| && Holds(jobs[j]) && jobs[j].buffer == b
  }

  /** Stacked buffers are empty and not full. */
  predicate StackEmpty(s: State)
    requires InRange(s)
  {
    forall b :: b in s.stack ==> s.pool[b] == EMPTY
  }

  /** Each job is on its way to write its chunk. */
  predicate JobsCarry(s: State)
    requires InRange(s)
  {
    |s.chunks| == |s.jobs| && forall j :: 0 <= j < |s.jobs| ==> JobCarries(s.pool, s.jobs[j], s.chunks[j])
  }

  predicate JobCarries(pool: seq<Buffer>, job: Job, chunk: seq<Message>)
    requires Holds(job) ==> job.buffer < |pool|
  {
    match job
    case Posted(b) => pool[b].messages == chunk
    case Copied(_, result) => result == Flat(chunk)
    case Cleared(b, result) => result == Flat(chunk) && pool[b] == EMPTY
    case Stacked(result) => result == Flat(chunk)
    case Done => true
  }

  function Joined(chunks: seq<seq<Message>>): seq<Message> {
    if chunks == [] then [] else Joined(chunks[..|chunks| - 1]) + chunks[|chunks| - 1]
  }

  /** What the file holds when the chunks were written in this order. */
  function FileOf(chunks: seq<seq<Message>>, written: seq<nat>): seq<byte> {
    if written == [] then []
    else
      var j := written[|written| - 1];
      FileOf(chunks, written[..|written| - 1]) + if j < |chunks| then Flat(chunks[j]) else []
  }

  /** Every job that is done wrote once, and nothing else was written. */
  predicate WrittenOnce(s: State) {
    && (forall i, k :: 0 <= i < k < |s.written| ==> s.written[i] != s.written[k])
    && (forall i :: 0 <= i < |s.written| ==> s.written[i] < |s.jobs| && s.jobs[s.written[i]].Done?)
    && (forall j :: 0 <= j < |s.jobs| && s.jobs[j].Done? ==> j in s.written)
    && s.file == FileOf(s.chunks, s.written)
  }

  /** The messages taken are the chunks, then the current buffer. */
  predicate TakenAll(s: State)
    requires InRange(s)
  {
    s.taken == Joined(s.chunks) + s.pool[s.curr].messages
  }

  predicate Inv(s: State) {
    Partition(s) && StackEmpty(s) && JobsCarry(s) && WrittenOnce(s) && TakenAll(s)
  }

  lemma StartInv()
    ensures Inv(Start())
  {
    var s := Start();
    forall b | 0 <= b < POOL ensures b == s.curr || b in s.stack || Held(s.jobs, b) {
      if b > 0 { assert s.stack[b - 1] == b; }
    }
  }

  lemma TakeKeepsInv(s: State, m: Message)
    requires Inv(s)
    ensures Inv(Take(s, m))
  {
    Text.Reassociate(Joined(s.chunks), s.pool[s.curr].messages, [m]);
  }

  lemma {:induction false} FileOfMore(chunks: seq<seq<Message>>, more: seq<Message>, written: seq<nat>)
    requires forall i :: 0 <= i < |written| ==> written[i] < |chunks|
    ensures FileOf(chunks + [more], written) == FileOf(chunks, written)
  {
    if written != [] { FileOfMore(chunks, more, written[..|written| - 1]); }
  }

  lemma SwapKeepsInv(s: State)
    requires Inv(s) && s.stack != []
    ensures Inv(SwapOut(s)) && SwapOut(s).pool[SwapOut(s).curr] == EMPTY
  {
    var t, top := SwapOut(s), s.stack[|s.stack| - 1];
    assert top in s.stack;
    assert t.chunks[..|s.chunks|] == s.chunks;
    FileOfMore(s.chunks, s.pool[s.curr].messages, s.written);
    SwapKeepsPartition(s);
    SwapKeepsWritten(s);
  }

  lemma SwapKeepsPartition(s: State)
    requires Partition(s) && s.stack != []
    ensures Partition(SwapOut(s))
  {
    var t := SwapOut(s);
    forall b | 0 <= b < POOL ensures b == t.curr || b in t.stack || Held(t.jobs, b) {
      if b == s.curr {
        assert t.jobs[|s.jobs|] == Posted(b);
      } else if Held(s.jobs, b) {
        var j :| 0 <= j < |s.jobs| && Holds(s.jobs[j]) && s.jobs[j].buffer == b;
        assert t.jobs[j] == s.jobs[j];
      }
    }
  }

  lemma SwapKeepsWritten(s: State)
    requires WrittenOnce(s) && InRange(s) && |s.chunks| == |s.jobs| && s.stack != []
    ensures WrittenOnce(SwapOut(s))
  {
    FileOfMore(s.chunks, s.pool[s.curr].messages, s.written);
  }

  lemma WorkKeepsPlaces(s: State, j: nat, b: nat)
    requires Partition(s) && j < |s.jobs| && b < POOL
    ensures var t := WorkOn(s, j); b == t.curr || b in t.stack || Held(t.jobs, b)
  {
    var t := WorkOn(s, j);
    if Held(s.jobs, b) {
      var k :| 0 <= k < |s.jobs| && Holds(s.jobs[k]) && s.jobs[k].buffer == b;
      if k == j && s.jobs[j].Cleared? {
        assert t.stack[|s.stack|] == b;
      } else {
        assert Holds(t.jobs[k]) && t.jobs[k].buffer == b;
      }
    } else if b in s.stack {
      var i :| 0 <= i < |s.stack| && s.stack[i] == b;
      assert t.stack[i] == b;
    }
  }

  lemma WorkKeepsPartition(s: State, j: nat)
    requires Partition(s) && j < |s.jobs|
    ensures Partition(WorkOn(s, j))
  {
    var t := WorkOn(s, j);
    forall b | 0 <= b < POOL ensures b == t.curr || b in t.stack || Held(t.jobs, b) { WorkKeepsPlaces(s, j, b); }
  }

  lemma WorkKeepsRest(s: State, j: nat)
    requires Inv(s) && j < |s.jobs|
    ensures InRange(WorkOn(s, j)) && StackEmpty(WorkOn(s, j)) && JobsCarry(WorkOn(s, j)) && TakenAll(WorkOn(s, j))
  {
    assert JobCarries(s.pool, s.jobs[j], s.chunks[j]);
    WorkKeepsJobs(s, j);
    WorkKeepsStack(s, j);
  }

  lemma WorkKeepsJobs(s: State, j: nat)
    requires Partition(s) && JobsCarry(s) && j < |s.jobs|
    ensures InRange(WorkOn(s, j)) && JobsCarry(WorkOn(s, j))
  {
    var t := WorkOn(s, j);
    forall k | 0 <= k < |t.jobs| ensures JobCarries(t.pool, t.jobs[k], t.chunks[k]) {
      assert JobCarries(s.pool, s.jobs[k], s.chunks[k]);
    }
  }

  lemma WorkKeepsStack(s: State, j: nat)
    requires Partition(s) && StackEmpty(s) && TakenAll(s) && j < |s.jobs|
    requires Holds(s.jobs[j]) && s.jobs[j].Cleared? ==> s.pool[s.jobs[j].buffer] == EMPTY
    ensures InRange(WorkOn(s, j)) && StackEmpty(WorkOn(s, j)) && TakenAll(WorkOn(s, j))
  {
  }

  lemma WorkKeepsWritten(s: State, j: nat)
    requires WrittenOnce(s) && InRange(s) && j < |s.jobs| && !s.jobs[j].Stacked?
    ensures WrittenOnce(WorkOn(s, j))
  {
    var t := WorkOn(s, j);
    WorkStays(s, j);
    forall i | 0 <= i < |t.jobs| && t.jobs[i].Done? ensures i in t.written { assert s.jobs[i].Done?; }
  }

  lemma WorkStays(s: State, j: nat)
    requires InRange(s) && j < |s.jobs| && !s.jobs[j].Stacked?
    ensures var t := WorkOn(s, j);
      && t.written == s.written && t.file == s.file && t.chunks == s.chunks && |t.jobs| == |s.jobs|
      && forall i :: 0 <= i < |s.jobs| ==> (t.jobs[i].Done? <==> s.jobs[i].Done?)
  {
  }

  lemma WriteKeepsWritten(s: State, j: nat)
    requires WrittenOnce(s) && InRange(s) && JobsCarry(s) && j < |s.jobs| && s.jobs[j].Stacked?
    ensures WrittenOnce(WorkOn(s, j))
  {
    assert JobCarries(s.pool, s.jobs[j], s.chunks[j]);
    var t := WorkOn(s, j);
    assert t.written[..|s.written|] == s.written;
    forall k | 0 <= k < |t.jobs| && t.jobs[k].Done? ensures k in t.written {
      if k == j { assert t.written[|s.written|] == j; }
    }
  }

  lemma StepKeepsInv(s: State, a: Action)
    requires Inv(s)
    ensures Inv(Step(s, a))
  {
    match a {
      case TakeMessage(m) => TakeKeepsInv(s, m);
      case Swap => if s.stack != [] { SwapKeepsInv(s); }
      case Work(j) =>
        if j < |s.jobs| {
          WorkKeepsPartition(s, j);
          WorkKeepsRest(s, j);
          if s.jobs[j].Stacked? { WriteKeepsWritten(s, j); } else { WorkKeepsWritten(s, j); }
        }
    }
  }

  // ---- what every run keeps ----

  lemma {:induction false} RunKeepsInv(actions: seq<Action>)
    ensures Inv(Run(actions))
  {
    if actions == [] {
      StartInv();
    } else {
      RunKeepsInv(actions[..|actions| - 1]);
      StepKeepsInv(Run(actions[..|actions| - 1]), actions[|actions| - 1]);
    }
  }

  /** Buffers count as full from 4096 bytes on. */
  predicate FullFrom(s: State) {
    forall b :: 0 <= b < |s.pool| ==> (s.pool[b].full <==> |Flat(s.pool[b].messages)| >= 4096)
  }

  lemma StepFills(s: State, a: Action)
    requires FullFrom(s)
    ensures FullFrom(Step(s, a))
  {
  }

  lemma {:induction false} RunFills(actions: seq<Action>)
    ensures FullFrom(Run(actions))
  {
    if actions != [] {
      RunFills(actions[..|actions| - 1]);
      StepFills(Run(actions[..|actions| - 1]), actions[|actions| - 1]);
    }
  }

  /** In every run a message is taken, into the current buffer, exactly if that has less than 4096 bytes. */
  lemma TakenBelow(actions: seq<Action>, m: Message)
    ensures InRange(Run(actions))
    ensures var s := Run(actions); var room := |Flat(s.pool[s.curr].messages)| < 4096;
      Step(s, TakeMessage(m)).taken == if room then s.taken + [m] else s.taken
  {
    RunKeepsInv(actions);
    RunFills(actions);
  }

  function HeldBuffers(jobs: seq<Job>): set<nat> {
    set j | 0 <= j < |jobs| && Holds(jobs[j]) :: jobs[j].buffer
  }

  function Elements(s: seq<nat>): set<nat> {
    set b | b in s
  }

  lemma {:induction false} DistinctCount(s: seq<nat>)
    requires forall i, j :: 0 <= i < j < |s| ==> s[i] != s[j]
    ensures |Elements(s)| == |s|
  {
    if s != [] {
      var n := |s| - 1;
      DistinctCount(s[..n]);
      assert Elements(s) == Elements(s[..n]) + {s[n]};
    }
  }

  function Below(n: nat): (r: set<nat>)
    ensures (forall b: nat :: b in r <==> b < n) && |r| == n
  {
    if n == 0 then {} else Below(n - 1) + {n - 1}
  }

  function Places(s: State): set<nat> {
    {s.curr} + Elements(s.stack) + HeldBuffers(s.jobs)
  }

  lemma PlaceOf(s: State, b: nat)
    requires Partition(s)
    ensures b in Places(s) <==> b < POOL
  {
    if b < POOL && Held(s.jobs, b) {
      var j :| 0 <= j < |s.jobs| && Holds(s.jobs[j]) && s.jobs[j].buffer == b;
      assert b in HeldBuffers(s.jobs);
    }
  }

  lemma PlacesCovered(s: State)
    requires Partition(s)
    ensures Below(POOL) == Places(s)
  {
    forall b ensures b in Below(POOL) <==> b in Places(s) { PlaceOf(s, b); }
  }

  lemma PlacesCount(curr: nat, stacked: set<nat>, held: set<nat>)
    requires curr !in stacked && curr !in held && stacked !! held
    ensures |{curr} + stacked + held| == 1 + |stacked| + |held|
  {
    assert {curr} !! stacked && ({curr} + stacked) !! held;
  }

  /** In every run the stack and the buffers being written are always seven together: `main_loop` finds the pool
      exhausted exactly while seven buffers are being written. */
  lemma PoolCount(actions: seq<Action>)
    ensures var s := Run(actions); |s.stack| + |HeldBuffers(s.jobs)| == 7
  {
    RunKeepsInv(actions);
    var s := Run(actions);
    DistinctCount(s.stack);
    PlacesCovered(s);
    PlacesCount(s.curr, Elements(s.stack), HeldBuffers(s.jobs));
  }

  /** A buffer that becomes current is empty: the assertion behind the exchange holds in every run. */
  lemma FreshCurrent(actions: seq<Action>)
    requires Run(actions).stack != []
    ensures InRange(Run(actions)) && InRange(SwapOut(Run(actions)))
    ensures var t := SwapOut(Run(actions)); t.pool[t.curr] == EMPTY
  {
    RunKeepsInv(actions);
    SwapKeepsInv(Run(actions));
  }

  predicate InOrder(written: seq<nat>) {
    forall i :: 0 <= i < |written| ==> written[i] == i
  }

  lemma {:induction false} FileInOrder(chunks: seq<seq<Message>>, written: seq<nat>)
    requires InOrder(written) && |written| <= |chunks|
    ensures FileOf(chunks, written) == Flat(Joined(chunks[..|written|]))
  {
    if written == [] {
      assert chunks[..0] == [];
    } else {
      var n := |written| - 1;
      FileInOrder(chunks, written[..n]);
      assert chunks[..|written|][..n] == chunks[..n];
      FlatAppend(Joined(chunks[..n]), chunks[n]);
    }
  }

  lemma WrittenCovers(s: State)
    requires WrittenOnce(s) && forall j :: 0 <= j < |s.jobs| ==> s.jobs[j].Done?
    ensures Elements(s.written) == Below(|s.jobs|) && |s.written| == |s.jobs|
  {
    assert Elements(s.written) == Below(|s.jobs|);
    DistinctCount(s.written);
  }

  lemma OrderKept(s: State)
    requires Inv(s) && InOrder(s.written) && |s.written| == |s.chunks|
    ensures s.file + Flat(s.pool[s.curr].messages) == Flat(s.taken)
  {
    FileInOrder(s.chunks, s.written);
    assert s.chunks[..|s.written|] == s.chunks;
    FlatAppend(Joined(s.chunks), s.pool[s.curr].messages);
  }

  /** Whatever overtook what, when all jobs are done each chunk was written exactly once. If they wrote in the order
      they were posted in, the file is the messages taken less those of the current buffer. */
  lemma AllWritten(actions: seq<Action>)
    requires forall j :: 0 <= j < |Run(actions).jobs| ==> Run(actions).jobs[j].Done?
    ensures InRange(Run(actions))
    ensures var s := Run(actions);
      && |s.stack| == 7 && |s.written| == |s.chunks| && Elements(s.written) == Below(|s.chunks|)
      && (InOrder(s.written) ==> s.file + Flat(s.pool[s.curr].messages) == Flat(s.taken))
  {
    RunKeepsInv(actions);
    var s := Run(actions);
    PoolCount(actions);
    assert HeldBuffers(s.jobs) == {};
    WrittenCovers(s);
    if InOrder(s.written) { OrderKept(s); }
  }

  // ---- the order is not kept in every run ----

  lemma RunStep(before: seq<Action>, a: Action)
    ensures Run(before + [a]) == Step(Run(before), a)
  {
    assert (before + [a])[..|before|] == before;
  }

  /** After a message of one byte went through an empty current buffer to a job of its own. */
  function Passed(s: State, m: byte): State
    requires InRange(s) && s.stack != []
  {
    s.(pool := s.pool[s.curr := Buffer([[m]], false)],
       curr := s.stack[|s.stack| - 1], stack := s.stack[..|s.stack| - 1],
       jobs := s.jobs + [Posted(s.curr)], chunks := s.chunks + [[[m]]], taken := s.taken + [[m]])
  }

  lemma Passes(s: State, m: byte)
    requires InRange(s) && s.pool[s.curr] == EMPTY && s.stack != []
    ensures InRange(Step(s, TakeMessage([m]))) && Step(Step(s, TakeMessage([m])), Swap) == Passed(s, m)
  {
    FlatOne([], [m]);
    assert [] + [[m]] == [[m]];
  }

  /** After a posted job did its four steps in a row. */
  function Finished(s: State, j: nat): State
    requires InRange(s) && j < |s.jobs| && s.jobs[j].Posted?
  {
    var b := s.jobs[j].buffer;
    s.(jobs := s.jobs[j := Done], pool := s.pool[b := EMPTY], stack := s.stack + [b],
       file := s.file + Flat(s.pool[b].messages), written := s.written + [j])
  }

  lemma RunPasses(before: seq<Action>, m: byte)
    requires InRange(Run(before)) && Run(before).pool[Run(before).curr] == EMPTY && Run(before).stack != []
    ensures Run(before + [TakeMessage([m]), Swap]) == Passed(Run(before), m)
  {
    var first := before + [TakeMessage([m])];
    assert first + [Swap] == before + [TakeMessage([m]), Swap];
    RunStep(before, TakeMessage([m]));
    RunStep(first, Swap);
    Passes(Run(before), m);
  }

  lemma StepsFinish(s: State, j: nat)
    requires InRange(s) && j < |s.jobs| && s.jobs[j].Posted?
    ensures Step(Step(Step(Step(s, Work(j)), Work(j)), Work(j)), Work(j)) == Finished(s, j)
  {
    var b, result := s.jobs[j].buffer, Flat(s.pool[s.jobs[j].buffer].messages);
    var t := Step(s, Work(j));
    assert InRange(t) && t.jobs == s.jobs[j := Copied(b, result)];
    var u := Step(t, Work(j));
    assert InRange(u) && u.jobs == s.jobs[j := Cleared(b, result)];
    var v := Step(u, Work(j));
    assert InRange(v) && v.jobs == s.jobs[j := Stacked(result)];
  }

  function FourSteps(before: seq<Action>, j: nat): seq<Action> {
    before + [Work(j)] + [Work(j)] + [Work(j)] + [Work(j)]
  }

  lemma RunFinishes(before: seq<Action>, j: nat)
    requires InRange(Run(before)) && j < |Run(before).jobs| && Run(before).jobs[j].Posted?
    ensures Run(FourSteps(before, j)) == Finished(Run(before), j)
  {
    StepsFinish(Run(before), j);
    RunStep(before, Work(j));
    RunStep(before + [Work(j)], Work(j));
    RunStep(before + [Work(j)] + [Work(j)], Work(j));
    RunStep(before + [Work(j)] + [Work(j)] + [Work(j)], Work(j));
  }

  /** Two jobs of one message each are posted, and nothing is written. */
  predicate TwoPosted(s: State) {
    && InRange(s) && s.jobs == [Posted(0), Posted(7)] && s.pool[0].messages == [[1]] && s.pool[7].messages == [[2]]
    && s.file == [] && s.taken == [[1], [2]] && s.curr == 6 && s.pool[6] == EMPTY
  }

  /** All is written, but not in the order it was taken. */
  predicate OutOfOrder(s: State) {
    && InRange(s) && (forall j :: 0 <= j < |s.jobs| ==> s.jobs[j].Done?) && s.pool[s.curr] == EMPTY
    && s.file != Flat(s.taken)
  }

  lemma TwoPassed()
    ensures InRange(Start()) && InRange(Passed(Start(), 1)) && TwoPosted(Passed(Passed(Start(), 1), 2))
  {
    var s := Passed(Start(), 1);
    assert s.curr == 7 && s.stack[|s.stack| - 1] == 6;
  }

  lemma SecondFirst(s: State)
    requires TwoPosted(s)
    ensures InRange(Finished(s, 1)) && Finished(s, 1).jobs[0].Posted? && OutOfOrder(Finished(Finished(s, 1), 0))
  {
    FlatOne([], [1]);
    FlatOne([], [2]);
    FlatOne([[1]], [2]);
    assert [] + [[1]] == [[1]] && [] + [[2]] == [[2]] && [[1]] + [[2]] == [[1], [2]];
    var t := Finished(Finished(s, 1), 0);
    assert t.file == [2, 1] && Flat(t.taken) == [1, 2];
  }

  lemma OvertakesFrom(before: seq<Action>)
    requires TwoPosted(Run(before))
    ensures exists actions :: OutOfOrder(Run(actions))
  {
    var s, second := Run(before), FourSteps(before, 1);
    SecondFirst(s);
    RunFinishes(before, 1);
    assert Run(second) == Finished(s, 1);
    RunFinishes(second, 0);
    assert OutOfOrder(Run(FourSteps(second, 0)));
  }

  /** The second of two jobs may write first: then the file holds the messages in another order. */
  lemma Overtaken()
    ensures exists actions :: OutOfOrder(Run(actions))
  {
    var first := [TakeMessage([1]), Swap];
    assert [] + first == first;
    TwoPassed();
    RunPasses([], 1);
    RunPasses(first, 2);
    OvertakesFrom(first + [TakeMessage([2]), Swap]);
  }
}
