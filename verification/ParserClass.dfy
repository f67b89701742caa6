/** `MutelemetryParser` as the class it is: fields updated by its parsing methods. */
module ParserClass {
  import opened Bytes
  import opened Outcomes
  import Text
  import opened FormatText
  import opened Layout
  import LayoutWalks
  import opened Parser

  /** A parsing method ended as its specification says: with the new state, or with the same fault. On a
      fault the fields are not described: the source has thrown or has undefined behaviour. */
  predicate Ends(spec: Result<Parser>, outcome: Result<()>, after: Parser) {
    match spec
    case Ok(p) => outcome == Ok(()) && after == p
    case Err(f) => outcome == Err(f)
  }

  class MutelemetryParser {
    var state: ParseState
    var startTime: nat
    var timeseries: map<string, Series>
    var formats: Formats
    var subscriptions: map<nat, Subscription>
    var info: map<string, InfoValue>
    var withMultiId: set<string>
    var parameters: seq<Parameter>
    var messageLogs: seq<MessageLog>
    var delivered: seq<MessageData>

    function Abs(): Parser
      reads this
    {
      Parser(state, startTime, formats, subscriptions, timeseries, info, withMultiId, parameters, messageLogs,
             delivered)
    }

    constructor ()
      ensures Abs() == NewParser()
    {
      state, startTime := HEADER, 0;
      timeseries, formats, subscriptions, info := map[], map[], map[], map[];
      withMultiId, parameters, messageLogs, delivered := {}, [], [], [];
    }

    method ReadHeader(buffer: seq<byte>) returns (r: Result<()>)
      modifies this
      ensures Ends(ParseHeader(old(Abs()), buffer), r, Abs())
    {
      if |buffer| < 7 { return Err(OutOfBounds); }
      if buffer[..7] != MAGIC {
        state := INVALID;
        return Ok(());
      }
      if |buffer| < 16 { return Err(OutOfBounds); }
      state, startTime := FLAGS, FromLe(buffer[8..16]);
      r := Ok(());
    }

    method ReadFlags(buffer: seq<byte>) returns (r: Result<()>)
      modifies this
      ensures Ends(ParseFlags(old(Abs()), buffer), r, Abs())
    {
      var h := HeaderAt(buffer, 0);
      if h.Err? { return Err(h.fault); }
      if h.value.type_ != 'B' {
        state := INVALID;
        return Ok(());
      }
      if |buffer| < 19 { return Err(OutOfBounds); }
      var flags := buffer[11..19];
      var hasUnknownBits := flags[0] > 1;
      var i := 1;
      while i < 8 && !hasUnknownBits
        invariant 1 <= i <= 8
        invariant hasUnknownBits ==> UnknownFlags(flags)
        invariant !hasUnknownBits ==> flags[0] <= 1 && forall k :: 1 <= k < i ==> flags[k] == 0
      {
        if flags[i] != 0 {
          assert flags[1..][i - 1] != Zeros(7)[i - 1];
          hasUnknownBits := true;
        }
        i := i + 1;
      }
      if hasUnknownBits {
        state := INVALID;
        return Ok(());
      }
      assert flags[1..] == Zeros(7);
      if flags[0] == 1 && |buffer| < 43 { return Err(OutOfBounds); }
      state := DEFINITION;
      r := Ok(());
    }

    method ReadInfo(message: seq<byte>, size: nat) returns (r: Result<()>)
      modifies this`info
      ensures Ends(ParseInfo(old(Abs()), message, size), r, Abs())
    {
      if |message| < 1 { return Err(OutOfBounds); }
      var keyLen := NumberAt(message, 0, 1).value;
      if 1 + keyLen > |message| { return Err(OutOfBounds); }
      var rawKey := ToText(message[1..1 + keyLen]);
      var parts := Text.SplitString(rawKey, ' ');
      if |parts| < 2 { return Err(Undefined); }
      var value := InfoValueOf(parts[0], rawKey, message, size, keyLen);
      if value.Err? { return Err(value.fault); }
      info := Insert(info, parts[1], value.value);
      r := Ok(());
    }

    method ReadFormatMessage(message: seq<byte>, size: nat) returns (r: Result<()>)
      modifies this`state, this`formats
      ensures Ends(ParseFormatMessage(old(Abs()), message, size), r, Abs())
    {
      if size > |message| { return Err(OutOfBounds); }
      var format := ReadFormat(ToText(message[0..size]));
      if format.Err? { return Err(format.fault); }
      if format.value.None? {
        state := INVALID;
      } else {
        formats := formats[format.value.value.name := format.value.value];
      }
      r := Ok(());
    }

    method ReadParam(message: seq<byte>) returns (r: Result<()>)
      modifies this`state, this`parameters
      ensures Ends(ParseParam(old(Abs()), message), r, Abs())
    {
      var keyLen := NumberAt(message, 0, 1);
      if keyLen.Err? { return Err(keyLen.fault); }
      var key := TextAt(message, 1, keyLen.value);
      if key.Err? { return Err(key.fault); }
      var pos := Text.Find(key.value, ' ');
      if pos == |key.value| {
        state := INVALID;
        return Ok(());
      }
      var word := key.value[..pos];
      if word != "int32_t" && word != "float" {
        state := INVALID;
        return Ok(());
      }
      var bits := NumberAt(message, 1 + keyLen.value, 4);
      if bits.Err? { return Err(bits.fault); }
      var type_ := if word == "float" then FLOAT else INT32;
      parameters := parameters + [Parameter(key.value[pos + 1..], type_, bits.value)];
      r := Ok(());
    }

    method ReadAdd(message: seq<byte>, size: nat) returns (r: Result<()>)
      modifies this`state, this`subscriptions, this`withMultiId
      ensures Ends(ParseAdd(old(Abs()), message, size), r, Abs())
    {
      var multiId := NumberAt(message, 0, 1);
      if multiId.Err? { return Err(multiId.fault); }
      var msgId := NumberAt(message, 1, 2);
      if msgId.Err? { return Err(msgId.fault); }
      if size < 3 { return Err(Exception); }
      var name := TextAt(message, 3, size - 3);
      if name.Err? { return Err(name.fault); }
      var format := if name.value in formats then Some(formats[name.value]) else None;
      subscriptions := Insert(subscriptions, msgId.value, Subscription(msgId.value, multiId.value, name.value, format));
      if multiId.value > 0 { withMultiId := withMultiId + {name.value}; }
      state := DEFINITION_OR_DATA;
      r := Ok(());
    }

    method ReadDataMessage(message: seq<byte>) returns (r: Result<()>)
      requires ParseDataMessage(Abs(), message) != Err(Endless)
      modifies this`state, this`timeseries, this`delivered
      ensures Ends(ParseDataMessage(old(Abs()), message), r, Abs())
    {
      var msgId := NumberAt(message, 0, 2);
      if msgId.Err? { return Err(msgId.fault); }
      if msgId.value in subscriptions {
        var sub := subscriptions[msgId.value];
        if sub.format.None? { return Err(Undefined); }
        var name := SeriesName(Abs(), sub);
        r := StoreSample(name, sub.format.value, message);
      } else {
        state := DEFINITION_OR_DATA;
        r := Ok(());
      }
    }

    method StoreSample(name: string, format: Format, message: seq<byte>) returns (r: Result<()>)
      requires FillSeries(Abs(), name, format, message) != Err(Endless)
      modifies this`state, this`timeseries, this`delivered
      ensures Ends(FillSeries(old(Abs()), name, format, message), r, Abs())
    {
      if name !in timeseries {
        var columns := LayoutWalks.CreateColumns(formats, format);
        if columns.Err? { return Err(columns.fault); }
        timeseries := timeseries[name := Series([], columns.value)];
      }
      var data := timeseries[name].data;
      if |message| < 10 { return Err(OutOfBounds); }
      var filled := LayoutWalks.ParseDataIntl(formats, formats.Keys, format.fields, message, Walk(data, 10, 0));
      if filled.Err? { return Err(filled.fault); }
      if !Complete(filled.value.data) { return Err(Undefined); }
      var series := Series([FromLe(message[2..10])], filled.value.data);
      timeseries := timeseries[name := series];
      var latest := GetLatestData(series, name);
      delivered := delivered + [latest];
      state := DEFINITION_OR_DATA;
      r := Ok(());
    }

    method ReadLogged(message: seq<byte>, size: nat) returns (r: Result<()>)
      modifies this`state, this`messageLogs
      ensures Ends(ParseLogged(old(Abs()), message, size), r, Abs())
    {
      if |message| < 9 { return Err(OutOfBounds); }
      if size < 9 { return Err(Exception); }
      var msg := TextAt(message, 9, size - 9);
      if msg.Err? { return Err(msg.fault); }
      messageLogs := messageLogs + [MessageLog(message[0], FromLe(message[1..9]), msg.value)];
      state := DEFINITION_OR_DATA;
      r := Ok(());
    }

    method ReadRemove(message: seq<byte>) returns (r: Result<()>)
      modifies this`state, this`subscriptions
      ensures Ends(ParseRemove(old(Abs()), message), r, Abs())
    {
      var msgId := NumberAt(message, 0, 2);
      if msgId.Err? { return Err(msgId.fault); }
      subscriptions := subscriptions - {msgId.value};
      state := DEFINITION_OR_DATA;
      r := Ok(());
    }

    method ReadAddThenData(buffer: seq<byte>, size: nat) returns (r: Result<()>)
      requires |buffer| >= 3 && ParseAddThenData(Abs(), buffer, size) != Err(Endless)
      modifies this`state, this`subscriptions, this`withMultiId, this`timeseries, this`delivered
      ensures Ends(ParseAddThenData(old(Abs()), buffer, size), r, Abs())
    {
      r := ReadAdd(buffer[3..], size);
      if r.Err? { return; }
      var next := HeaderAt(buffer, 3 + size);
      if next.Err? { return Err(next.fault); }
      if next.value.type_ == 'D' {
        r := ReadDataMessage(buffer[size + 6..]);
      }
    }

    method ReadDefinition(buffer: seq<byte>) returns (r: Result<()>)
      requires ParseDefinition(Abs(), buffer) != Err(Endless)
      modifies this
      ensures Ends(ParseDefinition(old(Abs()), buffer), r, Abs())
    {
      var h := HeaderAt(buffer, 0);
      if h.Err? { return Err(h.fault); }
      match h.value.type_ {
        case 'I' => r := ReadInfo(buffer[3..], h.value.size);
        case 'M' => r := Ok(());
        case 'F' => r := ReadFormatMessage(buffer[3..], h.value.size);
        case 'P' => r := ReadParam(buffer[3..]);
        case 'A' => r := ReadAddThenData(buffer, h.value.size);
        case _ =>
          state := INVALID;
          r := Ok(());
      }
    }

    method ReadData(buffer: seq<byte>) returns (r: Result<()>)
      requires ParseData(Abs(), buffer) != Err(Endless)
      modifies this
      ensures Ends(ParseData(old(Abs()), buffer), r, Abs())
    {
      var h := HeaderAt(buffer, 0);
      if h.Err? { return Err(h.fault); }
      match h.value.type_ {
        case 'A' => r := ReadAddThenData(buffer, h.value.size);
        case 'D' => r := ReadDataMessage(buffer[3..]);
        case 'L' => r := ReadLogged(buffer[3..], h.value.size);
        case 'I' => r := ReadInfo(buffer[3..], h.value.size);
        case 'M' => r := Ok(());
        case 'P' => r := ReadParam(buffer[3..]);
        case 'S' => r := Ok(());
        case 'O' => r := Ok(());
        case 'R' => r := ReadRemove(buffer[3..]);
        case _ =>
          state := INVALID;
          r := Ok(());
      }
    }

    /** `parse`: true when the new state is not INVALID. */
    method Read(buffer: seq<byte>) returns (r: Result<bool>)
      requires Parse(Abs(), buffer) != Err(Endless)
      modifies this
      ensures Ends(Parse(old(Abs()), buffer), if r.Ok? then Ok(()) else Err(r.fault), Abs())
      ensures r.Ok? ==> r.value == (Abs().state != INVALID)
    {
      var done: Result<()> := Ok(());
      match state {
        case HEADER => done := ReadHeader(buffer);
        case FLAGS => done := ReadFlags(buffer);
        case DEFINITION => done := ReadDefinition(buffer);
        case DEFINITION_OR_DATA => done := ReadData(buffer);
        case INVALID =>
      }
      r := if done.Ok? then Ok(state != INVALID) else Err(done.fault);
    }

    /** `check_ulog_valid` on this parser. */
    method CheckValid(buffer: seq<byte>) returns (r: Result<bool>)
      requires CheckUlogValid(Abs(), buffer) != Err(Endless)
      modifies this
      ensures Ends(CheckUlogValid(old(Abs()), buffer), if r.Ok? then Ok(()) else Err(r.fault), Abs())
      ensures r.Ok? ==> r.value == (Abs().state != INVALID)
    {
      r := Read(buffer);
      if r.Err? || !r.value { return; }
      var h := HeaderAt(buffer, 0);
      if h.Err? { return Err(h.fault); }
      if h.value.type_ == 'A' {
        if 3 + h.value.size > |buffer| { return Err(OutOfBounds); }
        r := Read(buffer[3 + h.value.size..]);
      }
    }
  }

  /** `Timeseries::get_latest_data`: the last timestamp and the last value of every column. */
  method GetLatestData(s: Series, name: string) returns (md: MessageData)
    requires s.timestamps != [] && Complete(s.data)
    ensures md == LatestData(s, name)
  {
    var structured: seq<(string, Value)> := [];
    for i := 0 to |s.data|
      invariant structured == LatestData(s, name).structured[..i]
    {
      var el := s.data[i];
      structured := structured + [(el.name, el.values[|el.values| - 1])];
    }
    md := MessageData(name, s.timestamps[|s.timestamps| - 1], structured);
  }
}
