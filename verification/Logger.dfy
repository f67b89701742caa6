/** `MutelemetryLogger`: messages drained from a queue into a pool of eight buffers and written out buffer by
    buffer. In the synchronous build one thread does all of it; messages may arrive at any time. */
module Logger {
  import opened Bytes
  import Text

  type Message = seq<byte>

  const MAX_DATA_SIZE := 4096
  const POOL := 8

  /** The messages in one piece. */
  function Flat(messages: seq<Message>): seq<byte> {
    if messages == [] then [] else Flat(messages[..|messages| - 1]) + messages[|messages| - 1]
  }

  lemma {:induction false} FlatAppend(a: seq<Message>, b: seq<Message>)
    ensures Flat(a + b) == Flat(a) + Flat(b)
  {
    if b == [] {
      assert a + b == a;
    } else {
      var n := |b| - 1;
      assert (a + b)[..|a + b| - 1] == a + b[..n];
      FlatAppend(a, b[..n]);
    }
  }

  lemma FlatOne(a: seq<Message>, m: Message)
    ensures Flat(a + [m]) == Flat(a) + m
  {
    assert (a + [m])[..|a|] == a;
  }

  lemma ArrivalsJoin<T>(taken: seq<T>, items: seq<T>, before: seq<T>, arrived: seq<T>, more: seq<T>)
    requires taken + items == before + arrived
    ensures taken + (items + more) == before + (arrived + more)
  {
    Text.Reassociate(taken, items, more);
    Text.Reassociate(before, arrived, more);
  }

  lemma NothingBetween(a: seq<byte>, b: seq<byte>)
    ensures a + [] + b == a + b && a + b + [] == a + b && a + [] == a
  {
  }

  lemma ReachesBuffer(file: seq<byte>, buffer: seq<byte>, dp: Message)
    ensures file + [] + (buffer + dp) == (file + [] + buffer) + dp
  {
  }

  class DataBuffer {
    var buffer: seq<Message>
    var dataSize: nat
    var isFull: bool

    constructor ()
      ensures IsEmpty()
    {
      buffer, dataSize, isFull := [], 0, false;
    }

    /** The size kept is that of the messages, and the buffer is full from 4096 bytes on. */
    predicate Sized()
      reads this
    {
      dataSize == |Flat(buffer)| && (isFull <==> dataSize >= 4096)
    }

    /** As a stacked buffer must be. */
    predicate IsEmpty()
      reads this
    {
      buffer == [] && dataSize == 0 && !isFull
    }

    predicate HasData()
      reads this
    {
      dataSize > 0
    }

    method Add(dp: Message) returns (full: bool)
      requires Sized()
      modifies this
      ensures Sized() && buffer == old(buffer) + [dp] && Flat(buffer) == old(Flat(buffer)) + dp
      ensures full == isFull == (old(isFull) || old(dataSize) + |dp| >= 4096)
    {
      FlatOne(buffer, dp);
      if |dp| + dataSize >= MAX_DATA_SIZE { isFull := true; }
      dataSize := dataSize + |dp|;
      buffer := buffer + [dp];
      full := isFull;
    }

    method Data() returns (result: seq<byte>)
      ensures result == Flat(buffer)
    {
      result := [];
      for i := 0 to |buffer|
        invariant result == Flat(buffer[..i])
      {
        FlatOne(buffer[..i], buffer[i]);
        assert buffer[..i + 1] == buffer[..i] + [buffer[i]];
        result := result + buffer[i];
      }
      assert buffer[..|buffer|] == buffer;
    }

    method Clear()
      modifies this
      ensures IsEmpty() && Sized()
    {
      buffer, dataSize, isFull := [], 0, false;
    }
  }

  class ConcQueue {
    var items: seq<Message>

    constructor ()
      ensures items == []
    {
      items := [];
    }

    method Enqueue(ms: seq<Message>)
      modifies this
      ensures items == old(items) + ms
    {
      items := items + ms;
    }

    method Dequeue() returns (m: Message)
      requires items != []
      modifies this
      ensures m == old(items)[0] && items == old(items)[1..]
    {
      m := items[0];
      items := items[1..];
    }
  }

  /** What happens around one look at the queue: messages arrive; `try_lock` and the weak compare-exchange may
      fail for no reason. */
  datatype Moment = Moment(arrivals: seq<Message>, locks: bool, exchanges: bool)

  const CALM := Moment([], true, true)

  /** What arrives at these looks. */
  function Arrivals(moments: seq<Moment>): seq<Message> {
    if moments == [] then [] else Arrivals(moments[..|moments| - 1]) + moments[|moments| - 1].arrivals
  }

  lemma ArrivalsNext(moments: seq<Moment>, k: nat)
    requires k < |moments|
    ensures Arrivals(moments[..k + 1]) == Arrivals(moments[..k]) + moments[k].arrivals
  {
    assert moments[..k + 1][..k] == moments[..k];
  }

  lemma {:induction false} ArrivalsAppend(a: seq<Moment>, b: seq<Moment>)
    ensures Arrivals(a + b) == Arrivals(a) + Arrivals(b)
  {
    if b == [] {
      assert a + b == a;
    } else {
      var n := |b| - 1;
      assert (a + b)[..|a + b| - 1] == a + b[..n];
      ArrivalsAppend(a, b[..n]);
    }
  }

  /** `main_loop` asserts that no message is larger than a buffer. */
  predicate Fit(messages: seq<Message>) {
    forall i :: 0 <= i < |messages| ==> |messages[i]| <= 4096
  }

  predicate AllFit(moments: seq<Moment>) {
    forall i :: 0 <= i < |moments| ==> Fit(moments[i].arrivals)
  }

  /** An exchange failed at the last of so many looks. */
  predicate LeftAt(moments: seq<Moment>, looks: nat) {
    0 < looks <= |moments| && !moments[looks - 1].exchanges
  }

  class MutelemetryLogger {
    var running: bool
    var dataQueue: ConcQueue?
    var file: seq<byte>
    var isOpen: bool
    const memPool: seq<DataBuffer>
    var stack: seq<DataBuffer>  // pool_stacked_index_, the top last
    var curr: DataBuffer?
    ghost var taken: seq<Message>    // dequeued since `Init`
    ghost var inFlight: seq<byte>    // copied out of a buffer, not yet written

    /** Every buffer is in exactly one place: current, being written, or stacked, empty and not full. */
    ghost predicate Pool(current: DataBuffer?, busy: DataBuffer?)
      reads this, memPool
    {
      && (forall i, j :: 0 <= i < j < |memPool| ==> memPool[i] != memPool[j])
      && (forall i, j :: 0 <= i < j < |stack| ==> stack[i] != stack[j])
      && (forall b :: b in stack ==> b in memPool && b != current && b != busy && b.IsEmpty())
      && (current != null ==> current in memPool && current != busy && current.Sized())
      && (busy != null ==> busy in memPool && busy.Sized())
      && (forall b :: b in memPool ==> b == current || b == busy || b in stack)
      && |memPool| == 8
      && |stack| == 8 - (if current == null then 0 else 1) - (if busy == null then 0 else 1)
    }

    /** Written, being written and current bytes are the messages taken, in order. */
    ghost predicate Conserved(current: DataBuffer?)
      reads this, current
    {
      file + inFlight + (if current == null then [] else Flat(current.buffer)) == Flat(taken)
    }

    ghost predicate Valid()
      reads this, memPool, curr
    {
      && Pool(curr, null) && Conserved(curr) && inFlight == []
      && (curr != null ==> curr.dataSize < 8192)
      && (running ==> dataQueue != null && curr != null) && (dataQueue != null ==> isOpen)
      && (dataQueue == null && curr != null ==> Flat(curr.buffer) == [])
    }

    constructor ()
      ensures Valid() && !running && dataQueue == null && !isOpen && file == [] && taken == []
      ensures curr != null && curr.IsEmpty() && curr == memPool[0] && stack == memPool[1..] && |memPool| == 8
      ensures fresh(memPool)
    {
      running, dataQueue, file, isOpen := false, null, [], false;
      taken, inFlight := [], [];
      var pool: seq<DataBuffer> := [];
      for i := 0 to POOL
        invariant |pool| == i && fresh(pool)
        invariant forall b :: b in pool ==> b.IsEmpty() && b.Sized()
        invariant forall j, k :: 0 <= j < k < i ==> pool[j] != pool[k]
      {
        var b := new DataBuffer();
        pool := pool + [b];
      }
      memPool := pool;
      stack := [];
      curr := pool[0];
      new;
      for i := 1 to |memPool|
        invariant stack == memPool[1..i] && curr == memPool[0] && |memPool| == POOL
        invariant !running && dataQueue == null && file == [] && !isOpen && taken == [] && inFlight == []
        invariant forall b :: b in memPool ==> b.IsEmpty() && b.Sized()
        invariant fresh(memPool)
      {
        stack := stack + [memPool[i]];
      }
    }

    /** `init`; `opens` tells whether the file could be opened. */
    method Init(queue: ConcQueue?, opens: bool) returns (res: bool)
      requires Valid()
      modifies this
      ensures Valid() && res == (!old(running) && old(dataQueue) == null && queue != null && opens)
      ensures res ==> dataQueue == queue && isOpen && file == [] && taken == []
      ensures curr == old(curr) && stack == old(stack) && running == old(running)
    {
      if running || dataQueue != null { return false; }
      if queue == null { return false; }
      res := false;
      file, isOpen, taken := [], opens, [];
      if isOpen {
        dataQueue := queue;
        res := true;
      }
    }

    method Start()
      requires Valid() && dataQueue != null && isOpen && curr != null
      modifies this`running
      ensures Valid() && running
    {
      running := true;
    }

    method Stop()
      requires Valid()
      modifies this`running
      ensures Valid() && !running
    {
      running := false;
    }

    method Write(result: seq<byte>)
      modifies this`file
      ensures file == old(file) + result
    {
      file := file + result;
    }

    /** `start_io_worker` in the synchronous build: the buffer goes back to the stack before its bytes are
        written, and no byte is lost or doubled at any point of it. */
    method StartIoWorker(dbp: DataBuffer, ghost current: DataBuffer?)
      requires Pool(current, dbp) && inFlight == [] && (current == null || current == curr)
      requires file + Flat(dbp.buffer) + (if current == null then [] else Flat(current.buffer)) == Flat(taken)
      modifies this`file, this`inFlight, this`stack, dbp
      ensures Pool(current, null) && Conserved(current) && inFlight == []
      ensures file == old(file) + old(Flat(dbp.buffer)) && dbp.IsEmpty() && stack == old(stack) + [dbp]
    {
      var result := dbp.Data();
      inFlight := result;
      dbp.Clear();
      stack := stack + [dbp];
      assert Pool(current, null) && Conserved(current);
      Write(result);
      inFlight := [];
      assert file + inFlight == file;
    }

    /** Takes the full buffer out of use. */
    method Swap() returns (ioIdx: DataBuffer)
      requires Valid() && curr != null && dataQueue != null
      modifies this`curr, this`stack
      ensures ioIdx == old(curr) && curr != null && curr.IsEmpty() && stack == old(stack[..|stack| - 1])
      ensures Pool(curr, ioIdx)
    {
      ioIdx := curr;
      if |stack| == 0 { assert false; }  // the pool is never exhausted
      var next := stack[|stack| - 1];
      assert next in stack;
      curr, stack := next, stack[..|stack| - 1];
      assert curr.dataSize == 0;
    }

    /** The bytes written, then those in the current buffer, then those queued. */
    ghost function Bytes(): seq<byte>
      reads this, curr, dataQueue
    {
      file + (if curr == null then [] else Flat(curr.buffer)) +
      (if dataQueue == null then [] else Flat(dataQueue.items))
    }

    /** Between any two operations what is written, buffered and queued is what was taken and is queued, in order. */
    lemma BytesAreMessages()
      requires Valid() && dataQueue != null
      ensures Bytes() == Flat(taken + dataQueue.items)
    {
      FlatAppend(taken, dataQueue.items);
    }

    /** Writes the buffer taken out of use and moves on to the new one. */
    method Rotate()
      requires Valid() && curr != null && dataQueue != null
      modifies this`file, this`inFlight, this`stack, this`curr, curr
      ensures Valid() && curr != null && curr.IsEmpty() && |stack| == old(|stack|)
      ensures file == old(file) + old(Flat(curr.buffer)) && Flat(taken) == file
    {
      var ioIdx := Swap();
      assert Flat(curr.buffer) == [];
      assert file + Flat(ioIdx.buffer) + [] == file + Flat(ioIdx.buffer);
      StartIoWorker(ioIdx, curr);
      assert file + [] + Flat(curr.buffer) == file;
    }

    /** One message from the queue into the current buffer. */
    method TakeMessage()
      requires Valid() && running && dataQueue.items != [] && Fit(dataQueue.items) && !curr.isFull
      modifies this`taken, curr, dataQueue
      ensures Valid() && taken + dataQueue.items == old(taken + dataQueue.items) && old(taken) <= taken
      ensures |dataQueue.items| == old(|dataQueue.items|) - 1 && Fit(dataQueue.items)
      ensures curr.buffer == old(curr.buffer) + [old(dataQueue.items[0])]
    {
      Text.HeadMoves(taken, dataQueue.items);
      var dp := dataQueue.Dequeue();
      assert |dp| <= MAX_DATA_SIZE;
      FlatOne(taken, dp);
      ReachesBuffer(file, Flat(curr.buffer), dp);
      taken := taken + [dp];
      var full := curr.Add(dp);
    }

    /** One message from the queue into the current buffer, after a full one was exchanged. */
    method TakeNext()
      requires Valid() && running && dataQueue.items != [] && Fit(dataQueue.items)
      modifies this`file, this`inFlight, this`stack, this`curr, this`taken, curr, memPool, dataQueue
      ensures Valid() && taken + dataQueue.items == old(taken + dataQueue.items) && old(taken) <= taken
      ensures |dataQueue.items| == old(|dataQueue.items|) - 1 && Fit(dataQueue.items) && curr in memPool
    {
      if curr.isFull { Rotate(); }
      TakeMessage();
    }

    /** The loop of `main_loop`; `drained` unless a failed exchange made it return. It looked at the queue at the
        first `looks` of the moments, and once they are over at calm ones. */
    method Drain(moments: seq<Moment>) returns (looks: nat, drained: bool)
      requires Valid() && running && Fit(dataQueue.items) && AllFit(moments)
      modifies this`file, this`inFlight, this`stack, this`curr, this`taken, memPool, dataQueue
      ensures Valid() && Fit(dataQueue.items) && looks <= |moments| && old(taken) <= taken
      ensures taken + dataQueue.items == old(taken + dataQueue.items) + Arrivals(moments[..looks])
      ensures drained <==> dataQueue.items == []
      ensures drained || LeftAt(moments, looks)
    {
      looks := 0;
      ghost var before := taken + dataQueue.items;
      assert before + [] == before;
      while true
        invariant looks <= |moments| && curr in memPool && old(taken) <= taken
        invariant Valid() && Fit(dataQueue.items)
        invariant taken + dataQueue.items == before + Arrivals(moments[..looks])
        decreases |moments| - looks, |dataQueue.items|
      {
        var now := CALM;
        if looks < |moments| {
          now := moments[looks];
          Look(now, before, Arrivals(moments[..looks]));
          ArrivalsNext(moments, looks);
          looks := looks + 1;
        }
        if dataQueue.items == [] { return looks, true; }
        if curr.isFull {
          if !now.locks { continue; }
          if !now.exchanges { return looks, false; }
        }
        TakeNext();
      }
    }

    /** What has arrived by the time of a look. */
    method Look(now: Moment, ghost before: seq<Message>, ghost arrived: seq<Message>)
      requires Valid() && running && Fit(dataQueue.items) && Fit(now.arrivals)
      requires taken + dataQueue.items == before + arrived
      modifies dataQueue
      ensures Valid() && Fit(dataQueue.items) && taken + dataQueue.items == before + (arrived + now.arrivals)
    {
      ArrivalsJoin(taken, dataQueue.items, before, arrived, now.arrivals);
      dataQueue.Enqueue(now.arrivals);
    }

    /** `main_loop`: `moments` are what happens at its looks at the queue, `tail` at its end, and `isOld` is whether
        the current buffer was started at least a second ago. */
    method MainLoop(moments: seq<Moment>, tail: Moment, isOld: bool) returns (looks: nat)
      requires Valid() && (running ==> Fit(dataQueue.items)) && AllFit(moments)
      modifies this`file, this`inFlight, this`stack, this`curr, this`taken, memPool, dataQueue
      ensures Valid() && looks <= |moments| && old(taken) <= taken
      ensures running == old(running) && dataQueue == old(dataQueue)
      ensures !running ==> looks == 0 && taken == old(taken) && file == old(file)
      ensures running ==> Fit(dataQueue.items)
      ensures running ==> taken + dataQueue.items == old(taken + dataQueue.items) + Arrivals(moments[..looks])
      ensures running && dataQueue.items != [] ==> LeftAt(moments, looks)
      ensures running && dataQueue.items == [] && isOld && tail.locks && tail.exchanges ==> file == Flat(taken)
    {
      looks := 0;
      if !running { return; }
      ghost var before := taken + dataQueue.items;
      var drained;
      looks, drained := Drain(moments);
      ghost var all := before + Arrivals(moments[..looks]);
      DrainedBehind(drained, isOld, tail);
      assert taken + dataQueue.items == all;
    }

    /** The rest of `main_loop`, behind its loop. */
    method DrainedBehind(drained: bool, isOld: bool, tail: Moment)
      requires Valid() && running && curr in memPool && (drained <==> dataQueue.items == [])
      modifies this`file, this`inFlight, this`stack, this`curr, memPool
      ensures Valid()
      ensures dataQueue.items == [] && isOld && tail.locks && tail.exchanges ==> file == Flat(taken)
    {
      if drained { WriteOld(isOld, tail); }
    }

    /** A buffer that is old is written, if it has data and can be exchanged. */
    method WriteOld(isOld: bool, tail: Moment)
      requires Valid() && curr != null && dataQueue != null && curr in memPool
      modifies this`file, this`inFlight, this`stack, this`curr, memPool
      ensures Valid() && curr != null
      ensures isOld && tail.locks && tail.exchanges ==> file == Flat(taken)
    {
      if curr.HasData() && isOld && tail.locks && tail.exchanges {
        Rotate();
      } else if !curr.HasData() {
        assert Flat(curr.buffer) == [];
        assert file + [] == file;
      }
    }

    /** The current buffer is written unless it is empty. */
    method WriteLast()
      requires Valid() && !running && curr != null
      modifies this`file, this`inFlight, this`stack, this`curr, memPool
      ensures Valid() && file == Flat(taken)
      ensures old(curr.HasData()) ==> curr == null
      ensures curr != null ==> Flat(curr.buffer) == []
    {
      var currIdx := curr;
      NothingBetween(file, Flat(currIdx.buffer));
      if currIdx.HasData() {
        StartIoWorker(currIdx, null);
        curr := null;
      }
      NothingBetween(file, []);
    }

    /** `release`, as the destructor calls it after `stop`. */
    method Release()
      requires Valid() && !running && (isOpen ==> curr != null)
      modifies this`file, this`inFlight, this`stack, this`curr, this`isOpen, this`dataQueue, memPool
      ensures Valid() && !isOpen && dataQueue == null && taken == old(taken)
      ensures old(isOpen) ==> file == Flat(taken)
      ensures old(isOpen && curr != null && curr.HasData()) ==> curr == null
    {
      if isOpen {
        WriteLast();
        isOpen := false;
      }
      assert curr != null ==> Flat(curr.buffer) == [];
      assert Pool(curr, null) && Conserved(curr);
      dataQueue := null;
    }
  }
}
