/** When the build with posted I/O keeps the order of messages: exactly while no two jobs are unfinished. */
module PostedOrder {
  import opened Logger
  import opened PostedIo

  predicate AllDone(s: State) {
    forall j :: 0 <= j < |s.jobs| ==> s.jobs[j].Done?
  }

  /** At most one job has not written yet. */
  predicate AtMostOneUnfinished(s: State) {
    forall i, j :: 0 <= i < j < |s.jobs| ==> s.jobs[i].Done? || s.jobs[j].Done?
  }

  /** The exchange takes place only when every job posted so far has written. */
  predicate NoOverlap(actions: seq<Action>) {
    actions != [] ==>
      var before, a := actions[..|actions| - 1], actions[|actions| - 1];
      NoOverlap(before) && (a.Swap? && Run(actions) != Run(before) ==> AllDone(Run(before)))
  }

  // ---- which jobs have written ----

  /** Jobs that wrote in posting order are the first ones. */
  lemma DoneAreFirst(s: State)
    requires Inv(s) && InOrder(s.written)
    ensures |s.written| <= |s.jobs|
    ensures forall j :: 0 <= j < |s.jobs| ==> (s.jobs[j].Done? <==> j < |s.written|)
  {
    if |s.written| > 0 { assert s.written[|s.written| - 1] < |s.jobs|; }
    forall j | 0 <= j < |s.jobs| ensures s.jobs[j].Done? <==> j < |s.written| {
      if s.jobs[j].Done? {
        var k :| 0 <= k < |s.written| && s.written[k] == j;
      }
      if j < |s.written| { assert s.written[j] == j; }
    }
  }

  /** In order so far, and no job can overtake another. */
  predicate Lined(s: State) {
    InOrder(s.written) && |s.jobs| <= |s.written| + 1
  }

  lemma WorkLined(s: State, j: nat)
    requires Inv(s) && Lined(s) && j < |s.jobs|
    ensures Lined(WorkOn(s, j))
  {
    DoneAreFirst(s);
  }

  lemma StepLined(s: State, a: Action)
    requires Inv(s) && Lined(s) && (a.Swap? && Step(s, a) != s ==> AllDone(s))
    ensures Lined(Step(s, a))
  {
    DoneAreFirst(s);
    if a.Work? && a.job < |s.jobs| { WorkLined(s, a.job); }
  }

  lemma {:induction false} NoOverlapLined(actions: seq<Action>)
    requires NoOverlap(actions)
    ensures Lined(Run(actions))
  {
    if actions != [] {
      var before := actions[..|actions| - 1];
      NoOverlapLined(before);
      RunKeepsInv(before);
      StepLined(Run(before), actions[|actions| - 1]);
    }
  }

  // ---- the file ----

  lemma {:induction false} JoinedFirst(chunks: seq<seq<Message>>, n: nat)
    requires n <= |chunks|
    ensures Joined(chunks[..n]) <= Joined(chunks)
  {
    if n < |chunks| {
      JoinedFirst(chunks[..|chunks| - 1], n);
      assert chunks[..|chunks| - 1][..n] == chunks[..n];
    } else {
      assert chunks[..n] == chunks;
    }
  }

  lemma FlatFirst(a: seq<Message>, b: seq<Message>)
    requires a <= b
    ensures Flat(a) <= Flat(b)
  {
    assert b == a + b[|a|..];
    FlatAppend(a, b[|a|..]);
  }

  /** What was written in order is the beginning of what was taken. */
  lemma FileBegins(s: State)
    requires Inv(s) && InOrder(s.written)
    ensures s.file <= Flat(s.taken)
  {
    DoneAreFirst(s);
    FileInOrder(s.chunks, s.written);
    JoinedFirst(s.chunks, |s.written|);
    FlatFirst(Joined(s.chunks[..|s.written|]), s.taken);
  }

  /** In every run in which no buffer is exchanged while a job is unfinished, jobs write in the order in which they were
      posted: the file is at any time the beginning of the messages taken, and when no job is unfinished all of them
      but those of the current buffer. */
  lemma NoOverlapInOrder(actions: seq<Action>)
    requires NoOverlap(actions)
    ensures var s := Run(actions);
      && InRange(s) && InOrder(s.written) && s.file <= Flat(s.taken)
      && (AllDone(s) ==> s.file + Flat(s.pool[s.curr].messages) == Flat(s.taken))
  {
    RunKeepsInv(actions);
    NoOverlapLined(actions);
    FileBegins(Run(actions));
    if AllDone(Run(actions)) { AllWritten(actions); }
  }

  // ---- exactly when ----

  function Works(jobs: seq<nat>): seq<Action> {
    seq(|jobs|, i requires 0 <= i < |jobs| => Work(jobs[i]))
  }

  /** However the jobs posted so far go on, they write in order. */
  ghost predicate StaysInOrder(actions: seq<Action>) {
    forall jobs: seq<nat> :: InOrder(Run(actions + Works(jobs)).written)
  }

  lemma {:induction false} WorksLined(actions: seq<Action>, jobs: seq<nat>)
    requires Lined(Run(actions))
    ensures Lined(Run(actions + Works(jobs)))
  {
    if jobs == [] {
      assert actions + Works(jobs) == actions;
    } else {
      var before, j := jobs[..|jobs| - 1], jobs[|jobs| - 1];
      WorksLined(actions, before);
      assert actions + Works(jobs) == actions + Works(before) + [Work(j)];
      RunStep(actions + Works(before), Work(j));
      RunKeepsInv(actions + Works(before));
      StepLined(Run(actions + Works(before)), Work(j));
    }
  }

  /** A job that has not written does so within four of its steps, and nothing else is written meanwhile. */
  lemma JobWrites(s: State, j: nat)
    requires Inv(s) && j < |s.jobs| && !s.jobs[j].Done?
    ensures var t := WorkOn(s, j);
      && Inv(t) && |t.jobs| == |s.jobs|
      && (if s.jobs[j].Stacked? then t.jobs[j].Done? && t.written == s.written + [j]
          else !t.jobs[j].Done? && t.written == s.written && Left(t.jobs[j]) == Left(s.jobs[j]) - 1)
  {
    StepKeepsInv(s, Work(j));
    assert Step(s, Work(j)) == WorkOn(s, j);
  }

  /** The steps a job has to do before its last. */
  function Left(job: Job): nat {
    match job
    case Posted(_) => 3
    case Copied(_, _) => 2
    case Cleared(_, _) => 1
    case _ => 0
  }

  lemma WorkNext(actions: seq<Action>, j: nat)
    requires j < |Run(actions).jobs| && !Run(actions).jobs[j].Done?
    ensures var s, t := Run(actions), Run(actions + [Work(j)]);
      && |t.jobs| == |s.jobs|
      && (if s.jobs[j].Stacked? then t.written == s.written + [j]
          else !t.jobs[j].Done? && t.written == s.written && Left(t.jobs[j]) == Left(s.jobs[j]) - 1)
  {
    RunKeepsInv(actions);
    RunStep(actions, Work(j));
    JobWrites(Run(actions), j);
  }

  lemma {:induction false} Overtake(actions: seq<Action>, j: nat, left: nat) returns (jobs: seq<nat>)
    requires j < |Run(actions).jobs| && !Run(actions).jobs[j].Done? && left == Left(Run(actions).jobs[j])
    ensures Run(actions + Works(jobs)).written == Run(actions).written + [j]
    decreases left
  {
    WorkNext(actions, j);
    if Run(actions).jobs[j].Stacked? {
      jobs := [j];
      assert Works(jobs) == [Work(j)];
    } else {
      var rest := Overtake(actions + [Work(j)], j, left - 1);
      jobs := [j] + rest;
      assert actions + Works(jobs) == actions + [Work(j)] + Works(rest);
    }
  }

  lemma UnfinishedLined(s: State)
    requires Inv(s) && InOrder(s.written)
    ensures AtMostOneUnfinished(s) <==> Lined(s)
    ensures !Lined(s) ==> |s.written| + 1 < |s.jobs| && !s.jobs[|s.written| + 1].Done?
  {
    DoneAreFirst(s);
    if |s.jobs| > |s.written| + 1 { assert !s.jobs[|s.written|].Done? && !s.jobs[|s.written| + 1].Done?; }
  }

  /** From any reachable state whose file is in order: all continuations of the jobs posted so far write in order if and
      only if at most one of them is unfinished. */
  lemma StaysInOrderIff(actions: seq<Action>)
    requires InOrder(Run(actions).written)
    ensures StaysInOrder(actions) <==> AtMostOneUnfinished(Run(actions))
  {
    var s := Run(actions);
    RunKeepsInv(actions);
    UnfinishedLined(s);
    if AtMostOneUnfinished(s) {
      forall jobs: seq<nat> ensures InOrder(Run(actions + Works(jobs)).written) { WorksLined(actions, jobs); }
    } else {
      var jobs := Overtake(actions, |s.written| + 1, Left(s.jobs[|s.written| + 1]));
      assert Run(actions + Works(jobs)).written[|s.written|] == |s.written| + 1;
    }
  }

  lemma OneMoreUnfinished(jobs: seq<Job>, b: nat, s: State, t: State)
    requires s.jobs == jobs && t.jobs == jobs + [Posted(b)]
    ensures AtMostOneUnfinished(t) <==> AllDone(s)
  {
    assert t.jobs[|jobs|] == Posted(b);
    if AtMostOneUnfinished(t) {
      forall j | 0 <= j < |jobs| ensures jobs[j].Done? { assert t.jobs[j] == jobs[j]; }
    }
  }

  /** So an exchange of buffers keeps the order in every continuation if and only if no job is unfinished then. */
  lemma SwapKeepsOrderIff(actions: seq<Action>)
    requires InOrder(Run(actions).written) && Run(actions + [Swap]) != Run(actions)
    ensures StaysInOrder(actions + [Swap]) <==> AllDone(Run(actions))
  {
    RunKeepsInv(actions);
    RunStep(actions, Swap);
    var s, t := Run(actions), Run(actions + [Swap]);
    assert t == SwapOut(s);
    StaysInOrderIff(actions + [Swap]);
    OneMoreUnfinished(s.jobs, s.curr, s, t);
  }
}
