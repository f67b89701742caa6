/** The logger from its construction to its release, whatever arrives meanwhile. */
module LoggerRun {
  import opened Bytes
  import Text
  import opened Logger

  /** What else decides one call of `main_loop`: the moment at its end, and whether its buffer is old by then. */
  datatype Turn = Turn(tail: Moment, isOld: bool)

  /** What was there before, and what has arrived by so many looks. */
  function Known(before: seq<Message>, moments: seq<Moment>, looks: nat): seq<Message>
    requires looks <= |moments|
  {
    before + Arrivals(moments[..looks])
  }

  /** Looks at the rest of the moments are later looks at all of them. */
  lemma Later(before: seq<Message>, moments: seq<Moment>, seen: nat, rest: seq<Moment>, now: nat, had: seq<Message>,
              arrived: seq<Message>, has: seq<Message>)
    requires seen <= |moments| && rest == moments[seen..] && now <= |rest| && had == Known(before, moments, seen)
    requires arrived == Arrivals(rest[..now]) && has == had + arrived
    ensures has == Known(before, moments, seen + now)
    ensures LeftAt(rest, now) ==> LeftAt(moments, seen + now)
  {
    assert moments[..seen] + rest[..now] == moments[..seen + now];
    ArrivalsAppend(moments[..seen], rest[..now]);
    Text.Reassociate(before, Arrivals(moments[..seen]), arrived);
  }

  lemma TurnLater(before: seq<Message>, moments: seq<Moment>, seen: nat, rest: seq<Moment>, now: nat,
                  had: seq<Message>, has: seq<Message>, queued: seq<Message>)
    requires seen <= |moments| && rest == moments[seen..] && now <= |rest| && had == Known(before, moments, seen)
    requires has == had + Arrivals(rest[..now]) && (queued != [] ==> LeftAt(rest, now))
    ensures has == Known(before, moments, seen + now) && (queued != [] ==> LeftAt(moments, seen + now))
  {
    Later(before, moments, seen, rest, now, had, Arrivals(rest[..now]), has);
  }

  lemma RestFits(moments: seq<Moment>, seen: nat)
    requires seen <= |moments| && AllFit(moments)
    ensures AllFit(moments[seen..])
  {
  }

  /** One call of `main_loop` while the logger runs. */
  method OneTurn(l: MutelemetryLogger, moments: seq<Moment>, turn: Turn) returns (looks: nat)
    requires l.Valid() && l.running && Fit(l.dataQueue.items) && AllFit(moments)
    modifies l`file, l`inFlight, l`stack, l`curr, l`taken, l.memPool, l.dataQueue
    ensures l.Valid() && l.running && Fit(l.dataQueue.items) && looks <= |moments|
    ensures l.taken + l.dataQueue.items == old(l.taken + l.dataQueue.items) + Arrivals(moments[..looks])
    ensures l.dataQueue.items != [] ==> LeftAt(moments, looks)
  {
    looks := l.MainLoop(moments, turn.tail, turn.isOld);
  }

  /** One call of `main_loop`, behind earlier ones that made `seen` looks. */
  method MakeTurn(l: MutelemetryLogger, moments: seq<Moment>, turn: Turn, seen: nat, ghost before: seq<Message>)
      returns (looks: nat)
    requires l.Valid() && l.running && Fit(l.dataQueue.items) && AllFit(moments) && seen <= |moments|
    requires l.taken + l.dataQueue.items == Known(before, moments, seen)
    modifies l`file, l`inFlight, l`stack, l`curr, l`taken, l.memPool, l.dataQueue
    ensures l.Valid() && l.running && Fit(l.dataQueue.items) && seen <= looks <= |moments|
    ensures l.taken + l.dataQueue.items == Known(before, moments, looks)
    ensures l.dataQueue.items != [] ==> LeftAt(moments, looks)
  {
    var rest := moments[seen..];
    RestFits(moments, seen);
    ghost var had := l.taken + l.dataQueue.items;
    looks := OneTurn(l, rest, turn);
    ghost var queued := l.dataQueue.items;
    TurnLater(before, moments, seen, rest, looks, had, l.taken + queued, queued);
    looks := seen + looks;
  }

  /** `main_loop` again and again: its calls look at the queue at the first `looks` of the moments in all, and the last
      of them leaves nothing there unless an exchange failed. */
  method MakeTurns(l: MutelemetryLogger, moments: seq<Moment>, turns: seq<Turn>) returns (looks: nat)
    requires l.Valid() && l.running && Fit(l.dataQueue.items) && AllFit(moments)
    modifies l`file, l`inFlight, l`stack, l`curr, l`taken, l.memPool, l.dataQueue
    ensures l.Valid() && looks <= |moments|
    ensures l.taken + l.dataQueue.items == old(l.taken + l.dataQueue.items) + Arrivals(moments[..looks])
    ensures turns != [] && l.dataQueue.items != [] ==> LeftAt(moments, looks)
  {
    looks := 0;
    ghost var before := l.taken + l.dataQueue.items;
    assert before + [] == before;
    for i := 0 to |turns|
      invariant l.Valid() && l.running && Fit(l.dataQueue.items) && looks <= |moments|
      invariant l.taken + l.dataQueue.items == Known(before, moments, looks)
      invariant i > 0 && l.dataQueue.items != [] ==> LeftAt(moments, looks)
    {
      looks := MakeTurn(l, moments, turns[i], looks, before);
    }
  }

  /** From `start` to `stop`. */
  method Work(l: MutelemetryLogger, moments: seq<Moment>, turns: seq<Turn>) returns (looks: nat)
    requires l.Valid() && l.dataQueue != null && l.curr != null && Fit(l.dataQueue.items) && AllFit(moments)
    requires l.taken == []
    modifies l`running, l`file, l`inFlight, l`stack, l`curr, l`taken, l.memPool, l.dataQueue
    ensures l.Valid() && !l.running && l.curr != null && looks <= |moments|
    ensures l.taken + l.dataQueue.items == old(l.dataQueue.items) + Arrivals(moments[..looks])
    ensures turns != [] && l.dataQueue.items != [] ==> LeftAt(moments, looks)
  {
    ghost var queued := l.dataQueue.items;
    assert l.taken + queued == queued;
    l.Start();
    looks := MakeTurns(l, moments, turns);
    l.Stop();
  }

  lemma Behind(taken: seq<Message>, items: seq<Message>, all: seq<Message>, late: seq<Message>)
    requires taken + items == all
    ensures taken + (items + late) == all + late && Flat(taken) + Flat(items + late) == Flat(all + late)
    ensures taken <= all && (items + late != late ==> items != [])
  {
    Text.Reassociate(taken, items, late);
    FlatAppend(taken, items + late);
  }

  /** A logger set up on a queue with these messages. */
  method SetUp(queued: seq<Message>) returns (l: MutelemetryLogger)
    ensures fresh(l) && l.Valid() && l.curr != null && l.taken == [] && fresh(l.memPool)
    ensures l.dataQueue != null && fresh(l.dataQueue) && l.dataQueue.items == queued
  {
    var q := new ConcQueue();
    q.Enqueue(queued);
    assert q.items == queued;
    l := new MutelemetryLogger();
    var res := l.Init(q, true);
  }

  /** A whole run: `queued` are the messages already there when the logger starts, those of the moments arrive at its
      looks at the queue, and `late` behind the last of them. What it wrote and what it left in the queue together
      are all of them in order; nothing that was there at its last look is left unless an exchange failed then. */
  method RunLogger(queued: seq<Message>, moments: seq<Moment>, turns: seq<Turn>, late: seq<Message>)
      returns (file: seq<byte>, rest: seq<Message>, ghost written: seq<Message>, looks: nat)
    requires Fit(queued) && AllFit(moments)
    ensures looks <= |moments| && file == Flat(written) && written <= queued + Arrivals(moments[..looks])
    ensures written + rest == queued + Arrivals(moments[..looks]) + late
    ensures file + Flat(rest) == Flat(queued + Arrivals(moments[..looks]) + late)
    ensures turns != [] && rest != late ==> LeftAt(moments, looks)
  {
    var l := SetUp(queued);
    looks := Work(l, moments, turns);
    ghost var arrived := queued + Arrivals(moments[..looks]);
    ghost var taken, items := l.taken, l.dataQueue.items;
    assert taken + items == arrived;
    Behind(taken, items, arrived, late);
    file, rest := Finish(l, late);
    written := taken;
  }

  method Finish(l: MutelemetryLogger, late: seq<Message>) returns (file: seq<byte>, rest: seq<Message>)
    requires l.Valid() && !l.running && l.curr != null && l.dataQueue != null
    modifies l`file, l`inFlight, l`stack, l`curr, l`isOpen, l`dataQueue, l.memPool, l.dataQueue
    ensures l.Valid() && file == Flat(l.taken) && l.taken == old(l.taken) && rest == old(l.dataQueue.items) + late
  {
    var q := l.dataQueue;
    q.Enqueue(late);
    rest := q.items;
    l.Release();
    file := l.file;
  }
}
