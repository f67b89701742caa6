/** What each parsing function of `MutelemetryParser` does to the parser's state. */
module Parser {
  import opened Bytes
  import opened Outcomes
  import opened Text
  import opened FormatText
  import opened Layout
  import LayoutWalks

  datatype ParseState = HEADER | FLAGS | DEFINITION | DEFINITION_OR_DATA | INVALID

  /** An info value. The numeric kinds are read from the bytes of the key text itself, never from the
      message, so such a value is known by that text alone. */
  datatype InfoValue = Text(text: string) | FromKey(key: string)

  datatype Parameter = Parameter(name: string, type_: FieldType, bits: nat)

  datatype MessageLog = MessageLog(level: byte, timestamp: nat, msg: string)

  datatype Subscription = Subscription(msgId: nat, multiId: nat, name: string, format: Option<Format>)

  datatype Series = Series(timestamps: seq<nat>, data: seq<Column>)

  /** What the data handler is called with. */
  datatype MessageData = MessageData(name: string, timestamp: nat, structured: seq<(string, Value)>)

  datatype Parser = Parser(
    state: ParseState, startTime: nat,
    formats: Formats, subscriptions: map<nat, Subscription>, timeseries: map<string, Series>,
    info: map<string, InfoValue>, withMultiId: set<string>,
    parameters: seq<Parameter>, messageLogs: seq<MessageLog>,
    delivered: seq<MessageData>)  // calls of the data handler

  function NewParser(): Parser {
    Parser(HEADER, 0, map[], map[], map[], map[], {}, [], [], [])
  }

  /** A `ULogMessageHeader`. */
  datatype Header = Header(size: nat, type_: char)

  function HeaderAt(buffer: seq<byte>, pos: nat): Result<Header> {
    if pos + 3 > |buffer| then Err(OutOfBounds)
    else Ok(Header(FromLe(buffer[pos..pos + 2]), buffer[pos + 2] as char))
  }

  /** `n` bytes of a message as a string. */
  function TextAt(message: seq<byte>, pos: nat, n: nat): Result<string> {
    if pos + n > |message| then Err(OutOfBounds) else Ok(ToText(message[pos..pos + n]))
  }

  function NumberAt(message: seq<byte>, pos: nat, width: nat): Result<nat> {
    if pos + width > |message| then Err(OutOfBounds) else Ok(FromLe(message[pos..pos + width]))
  }

  /** `unordered_map::insert` keeps an entry that is there. */
  function Insert<K, V>(m: map<K, V>, k: K, v: V): map<K, V> {
    if k in m then m else m[k := v]
  }

  // ---- definitions ----

  const MAGIC: seq<byte> := [0x55, 0x4c, 0x6f, 0x67, 0x01, 0x12, 0x35]

  function ParseHeader(p: Parser, buffer: seq<byte>): Result<Parser> {
    if |buffer| < 7 then Err(OutOfBounds)
    else if buffer[..7] != MAGIC then Ok(p.(state := INVALID))
    else
      var time :- NumberAt(buffer, 8, 8);
      Ok(p.(state := FLAGS, startTime := time))
  }

  predicate UnknownFlags(flags: seq<byte>)
    requires |flags| == 8
  {
    flags[0] > 1 || flags[1..] != Zeros(7)
  }

  function ParseFlags(p: Parser, buffer: seq<byte>): Result<Parser> {
    var h :- HeaderAt(buffer, 0);
    if h.type_ != 'B' then Ok(p.(state := INVALID))
    else if |buffer| < 19 then Err(OutOfBounds)
    else if UnknownFlags(buffer[11..19]) then Ok(p.(state := INVALID))
    else if buffer[11] == 1 && |buffer| < 43 then Err(OutOfBounds)  // the appended offsets are copied out
    else Ok(p.(state := DEFINITION))
  }

  const NUMERIC_WORDS := [
    "bool", "uint8_t", "int8_t", "uint16_t", "int16_t", "uint32_t", "int32_t", "float", "double", "uint64_t", "int64_t"]

  function ParseInfo(p: Parser, message: seq<byte>, size: nat): Result<Parser> {
    var keyLen :- NumberAt(message, 0, 1);
    var rawKey :- TextAt(message, 1, keyLen);
    var parts := Split(rawKey, ' ');
    if |parts| < 2 then Err(Undefined)  // key_parts[1]
    else
      var value :- InfoValueOf(parts[0], rawKey, message, size, keyLen);
      Ok(p.(info := Insert(p.info, parts[1], value)))
  }

  function InfoValueOf(word: string, rawKey: string, message: seq<byte>, size: nat, keyLen: nat): Result<InfoValue> {
    if StartsWith(word, "char[") then
      if size < keyLen + 1 then Err(Exception)
      else
        var text :- TextAt(message, 1 + keyLen, size - keyLen - 1);
        Ok(Text(text))
    else if word in NUMERIC_WORDS then Ok(FromKey(rawKey))
    else Ok(Text(""))
  }

  function ParseFormatMessage(p: Parser, message: seq<byte>, size: nat): Result<Parser> {
    var text :- TextAt(message, 0, size);
    var format :- ParseFormat(text);
    if format.None? then Ok(p.(state := INVALID))
    else Ok(p.(formats := p.formats[format.value.name := format.value]))
  }

  function ParseParam(p: Parser, message: seq<byte>): Result<Parser> {
    var keyLen :- NumberAt(message, 0, 1);
    var key :- TextAt(message, 1, keyLen);
    var pos := Find(key, ' ');
    if pos == |key| || (key[..pos] != "int32_t" && key[..pos] != "float") then Ok(p.(state := INVALID))
    else
      var bits :- NumberAt(message, 1 + keyLen, 4);
      var type_ := if key[..pos] == "float" then FLOAT else INT32;
      Ok(p.(parameters := p.parameters + [Parameter(key[pos + 1..], type_, bits)]))
  }

  // ---- data ----

  function ParseAdd(p: Parser, message: seq<byte>, size: nat): Result<Parser> {
    var multiId :- NumberAt(message, 0, 1);
    var msgId :- NumberAt(message, 1, 2);
    if size < 3 then Err(Exception)
    else
      var name :- TextAt(message, 3, size - 3);
      var format := if name in p.formats then Some(p.formats[name]) else None;
      Ok(p.(state := DEFINITION_OR_DATA,
            subscriptions := Insert(p.subscriptions, msgId, Subscription(msgId, multiId, name, format)),
            withMultiId := if multiId > 0 then p.withMultiId + {name} else p.withMultiId))
  }

  /** The name under which the series of a subscription is kept. */
  function SeriesName(p: Parser, sub: Subscription): string {
    if sub.name in p.withMultiId then sub.name + "." + Dec2(sub.multiId) else sub.name
  }

  function ParseDataMessage(p: Parser, message: seq<byte>): Result<Parser> {
    var msgId :- NumberAt(message, 0, 2);
    if msgId !in p.subscriptions then Ok(p.(state := DEFINITION_OR_DATA))
    else
      var sub := p.subscriptions[msgId];
      if sub.format.None? then Err(Undefined)  // the null format is followed
      else FillSeries(p, SeriesName(p, sub), sub.format.value, message)
  }

  /** Finds or creates the series and stores one sample in it. */
  function FillSeries(p: Parser, name: string, format: Format, message: seq<byte>): Result<Parser> {
    var columns :- SeriesColumns(p, name, format);
    var time :- NumberAt(message, 2, 8);
    var filled :- FillFields(p.formats, p.formats.Keys, format.fields, message, Walk(columns, 10, 0));
    if !Complete(filled.data) then Err(Undefined)  // vector::back of an empty column
    else
      var series := Series([time], filled.data);
      Ok(p.(state := DEFINITION_OR_DATA, timeseries := p.timeseries[name := series],
            delivered := p.delivered + [LatestData(series, name)]))
  }

  function SeriesColumns(p: Parser, name: string, format: Format): Result<seq<Column>> {
    if name in p.timeseries then Ok(p.timeseries[name].data)
    else LayoutWalks.EmptyColumns(ColumnNames(p.formats, p.formats.Keys, format.fields, ""))
  }

  predicate Complete(data: seq<Column>) {
    forall i :: 0 <= i < |data| ==> data[i].values != []
  }

  /** `Timeseries::get_latest_data` */
  function LatestData(s: Series, name: string): MessageData
    requires s.timestamps != [] && Complete(s.data)
  {
    MessageData(name, s.timestamps[|s.timestamps| - 1],
                seq(|s.data|, i requires 0 <= i < |s.data| =>
                  (s.data[i].name, s.data[i].values[|s.data[i].values| - 1])))
  }

  function ParseLogged(p: Parser, message: seq<byte>, size: nat): Result<Parser> {
    var level :- NumberAt(message, 0, 1);
    var time :- NumberAt(message, 1, 8);
    if size < 9 then Err(Exception)
    else
      var msg :- TextAt(message, 9, size - 9);
      Ok(p.(state := DEFINITION_OR_DATA, messageLogs := p.messageLogs + [MessageLog(message[0], time, msg)]))
  }

  function ParseRemove(p: Parser, message: seq<byte>): Result<Parser> {
    var msgId :- NumberAt(message, 0, 2);
    Ok(p.(state := DEFINITION_OR_DATA, subscriptions := p.subscriptions - {msgId}))
  }

  /** A subscription and, when it is followed by a data message, that data. */
  function ParseAddThenData(p: Parser, buffer: seq<byte>, size: nat): Result<Parser>
    requires |buffer| >= 3
  {
    var added :- ParseAdd(p, buffer[3..], size);
    var next :- HeaderAt(buffer, 3 + size);
    if next.type_ != 'D' then Ok(added) else ParseDataMessage(added, buffer[size + 6..])
  }

  // ---- the state machine ----

  function ParseDefinition(p: Parser, buffer: seq<byte>): Result<Parser> {
    var h :- HeaderAt(buffer, 0);
    match h.type_
    case 'I' => ParseInfo(p, buffer[3..], h.size)
    case 'M' => Ok(p)
    case 'F' => ParseFormatMessage(p, buffer[3..], h.size)
    case 'P' => ParseParam(p, buffer[3..])
    case 'A' => ParseAddThenData(p, buffer, h.size)
    case _ => Ok(p.(state := INVALID))
  }

  function ParseData(p: Parser, buffer: seq<byte>): Result<Parser> {
    var h :- HeaderAt(buffer, 0);
    match h.type_
    case 'A' => ParseAddThenData(p, buffer, h.size)
    case 'D' => ParseDataMessage(p, buffer[3..])
    case 'L' => ParseLogged(p, buffer[3..], h.size)
    case 'I' => ParseInfo(p, buffer[3..], h.size)
    case 'M' => Ok(p)
    case 'P' => ParseParam(p, buffer[3..])
    case 'S' => Ok(p)
    case 'O' => Ok(p)
    case 'R' => ParseRemove(p, buffer[3..])
    case _ => Ok(p.(state := INVALID))
  }

  /** `MutelemetryParser::parse`; its result is whether the new state is not INVALID. */
  function Parse(p: Parser, buffer: seq<byte>): Result<Parser> {
    match p.state
    case HEADER => ParseHeader(p, buffer)
    case FLAGS => ParseFlags(p, buffer)
    case DEFINITION => ParseDefinition(p, buffer)
    case DEFINITION_OR_DATA => ParseData(p, buffer)
    case INVALID => Ok(p)
  }

  /** `check_ulog_valid`: a data packet is parsed once more from its data message on. */
  function CheckUlogValid(p: Parser, buffer: seq<byte>): Result<Parser> {
    var once :- Parse(p, buffer);
    if once.state == INVALID then Ok(once)
    else
    var h :- HeaderAt(buffer, 0);
    if h.type_ != 'A' then Ok(once)
    else if 3 + h.size > |buffer| then Err(OutOfBounds)
    else Parse(once, buffer[3 + h.size..])
  }
}
