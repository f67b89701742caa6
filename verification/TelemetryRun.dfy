/** `MuTelemetry` over a whole sequence of calls: its queues hold what the specification of one caller's run says. */
module TelemetryRun {
  import opened Bytes
  import opened Outcomes
  import FormatRoundTrip
  import opened Encoder
  import opened Events
  import opened Callers
  import ApiStream
  import opened Serial
  import opened TelemetryClass

  /** What a message other than a sample is built from; leaving the structure is the failure of a format alone. */
  function SaidMessage(e: Event): Result<Option<seq<byte>>> {
    match e
    case Sampled(_, _, _, _) => Ok(None)
    case Formatted(name, ds) => FormatMessage(name, FormatRoundTrip.FieldsText(ds))
    case Logged(text, level, timestamp) => Ok(LogMessage(text, level, timestamp))
    case Parameterised(key, bits) => Ok(ParamMessage(key, bits))
    case Informed(key, value) => Ok(InfoMessage(key, value))
    case MultiInformed(key, value, continued) => Ok(MultiInfoMessage(key, value, continued))
  }

  /** What the call enqueues after these tables. */
  function CallMessage(a: Api, call: Call): Result<Option<seq<byte>>> {
    match call
    case Store(name, annotation, timestamp, data) => DataPacket(a, data, name, annotation, timestamp)
    case Say(e) => SaidMessage(e)
  }

  lemma MultiNotEmpty(key: string, value: string, continued: bool)
    requires MultiInfoMessage(key, value, continued).Some?
    ensures MultiInfoMessage(key, value, continued).value != []
  {
  }

  lemma FormatNotEmpty(name: string, fields: string)
    requires FormatMessage(name, fields).Ok? && FormatMessage(name, fields).value.Some?
    ensures FormatMessage(name, fields).value.value != []
  {
  }

  /** Nothing that is sent is empty. */
  lemma SaidIsSent(e: Event)
    requires SaidMessage(e).Ok?
    ensures Built(Say(e), 0, 0) ==
      if SaidMessage(e).value.Some? then Some((SaidMessage(e).value.value, e)) else None
  {
    if SaidMessage(e).value.Some? {
      match e {
        case Formatted(name, ds) => FormatNotEmpty(name, FormatRoundTrip.FieldsText(ds));
        case Logged(text, level, timestamp) => LogType(text, level, timestamp);
        case Parameterised(key, bits) => ParamType(key, bits);
        case Informed(key, value) => InfoType(InfoKey(key, value), value);
        case MultiInformed(key, value, continued) => MultiNotEmpty(key, value, continued);
      }
    }
  }

  /** A call that stays within its bounds changes tables and queue as the specification says. */
  lemma CallIsAfter(w: World, call: Call)
    requires CallMessage(w.api, call).Ok?
    ensures After(w, call).api == (if call.Store? then WithIds(w.api, call.typeName, call.annotation) else w.api)
    ensures var m := CallMessage(w.api, call).value;
      After(w, call).queue == if m.Some? then w.queue + [m.value] else w.queue
  {
    if call.Say? {
      SaidIsSent(call.event);
    } else {
      PacketOf(w.api, WithIds(w.api, call.typeName, call.annotation), call.data, call.typeName, call.annotation,
               call.timestamp);
    }
  }

  /** One call of the API. */
  method Perform(t: MuTelemetry, call: Call) returns (r: Result<bool>)
    requires t.Valid() && t.IsEnabled()
    modifies t`logQueue, t`netQueue, t`multiId, t.msgId, t.multiId.Values
    ensures t.Valid() && forall i: ID :: i in t.multiId.Values ==> i in old(t.multiId.Values) || fresh(i)
    ensures r.Ok? ==> CallMessage(old(t.Tables()), call).Ok?
    ensures r.Ok? ==>
      var m := CallMessage(old(t.Tables()), call).value;
      && t.Enqueued(if m.Some? then [m.value] else [])
      && t.Tables() == if call.Store? then WithIds(old(t.Tables()), call.typeName, call.annotation) else old(t.Tables())
  {
    match call {
      case Store(name, annotation, timestamp, data) => r := t.StoreData(data, name, annotation, timestamp);
      case Say(e) => r := Tell(t, e);
    }
  }

  method Tell(t: MuTelemetry, e: Event) returns (r: Result<bool>)
    requires t.IsEnabled()
    modifies t`logQueue, t`netQueue
    ensures r.Ok? ==> SaidMessage(e).Ok?
    ensures r.Ok? ==> t.Enqueued(if SaidMessage(e).value.Some? then [SaidMessage(e).value.value] else [])
  {
    var res := false;
    match e {
      case Sampled(_, _, _, _) =>
      case Formatted(name, ds) =>
        var sent := t.RegisterDataFormat(name, FormatRoundTrip.FieldsText(ds));
        return sent;
      case Logged(text, level, timestamp) => res := t.StoreMessage(text, level, timestamp);
      case Parameterised(key, bits) => res := t.RegisterParam(key, bits);
      case Informed(key, value) => res := t.RegisterInfo(key, value);
      case MultiInformed(key, value, continued) => res := t.RegisterInfoMulti(key, value, continued);
    }
    r := Ok(res);
  }

  /** The object agrees with the world of one caller. */
  ghost predicate Agrees(t: MuTelemetry, w: World)
    reads t, t.msgId, t.multiId.Values
  {
    && t.Tables() == w.api
    && (t.withNetwork ==> t.netQueue == ApiStream.Output(t.startTimestamp, w))
    && (t.withLocalLog ==> t.logQueue == ApiStream.Output(t.startTimestamp, w))
  }

  /** What both queues gain. */
  lemma OutputGains(start: nat, w: World, v: World, m: seq<seq<byte>>)
    requires v.queue == w.queue + m
    ensures ApiStream.Output(start, v) == ApiStream.Output(start, w) + m
  {
  }

  /** One call of an object that agrees with a world. */
  method Agreeing(t: MuTelemetry, call: Call, ghost w: World) returns (r: Result<bool>)
    requires t.Valid() && t.IsEnabled() && Agrees(t, w)
    modifies t`logQueue, t`netQueue, t`multiId, t.msgId, t.multiId.Values
    ensures t.Valid() && forall i: ID :: i in t.multiId.Values ==> i in old(t.multiId.Values) || fresh(i)
    ensures r.Ok? ==> Agrees(t, After(w, call))
  {
    r := Perform(t, call);
    if r.Ok? {
      CallIsAfter(w, call);
      ghost var m := CallMessage(w.api, call).value;
      OutputGains(t.startTimestamp, w, After(w, call), if m.Some? then [m.value] else []);
    }
  }

  /** The calls made one after the other, from the header on: as long as none leaves its bounds, both queues hold
      header, flags and the messages of the run, and the tables are the run's. */
  method MakeCalls(t: MuTelemetry, calls: seq<Call>) returns (r: Result<bool>)
    requires t.Valid() && t.IsEnabled() && Agrees(t, START)
    modifies t`logQueue, t`netQueue, t`multiId, t.msgId, t.multiId.Values
    ensures t.Valid() && (r.Ok? ==> Agrees(t, Run(SerialSteps(calls))))
  {
    r := Ok(true);
    assert calls[..0] == [];
    for i := 0 to |calls|
      invariant t.Valid() && t.IsEnabled() && Agrees(t, Run(SerialSteps(calls[..i])))
      invariant forall j: ID :: j in t.multiId.Values ==> j in old(t.multiId.Values) || fresh(j)
      invariant r.Ok?
    {
      ghost var w := Run(SerialSteps(calls[..i]));
      r := Agreeing(t, calls[i], w);
      if r.Err? { return; }
      assert calls[..i + 1][..i] == calls[..i];
      SerialCount(calls[..i + 1]);
    }
    assert calls[..|calls|] == calls;
  }

  /** `MuTelemetry` from its construction on. */
  method RunTelemetry(withNetwork: bool, withLocalLog: bool, start: nat, calls: seq<Call>)
      returns (t: MuTelemetry, r: Result<bool>)
    requires withNetwork || withLocalLog
    ensures t.withNetwork == withNetwork && t.withLocalLog == withLocalLog && t.startTimestamp == start
    ensures r.Ok? ==> Agrees(t, Run(SerialSteps(calls)))
  {
    t := new MuTelemetry(withNetwork, withLocalLog, start);
    var res := t.CreateHeaderAndFlags();
    r := MakeCalls(t, calls);
  }
}
