/** `MuTelemetry` as the class it is: it fills message structures in place, with a running size, and enqueues
    them. */
module TelemetryClass {
  import opened Bytes
  import opened Outcomes
  import FormatRoundTrip
  import Parser
  import opened Encoder
  import opened Memory
  import WireFormat

  // ---- the memory of a message structure ----

  /** The bytes `snprintf(dst, size, "%s", text)` writes: the text, cut to leave room for its NUL. */
  function Printed(size: nat, text: string): (r: seq<byte>)
    ensures |r| <= size && |r| <= |text| + 1
  {
    if size == 0 then [] else if |text| < size then ToBytes(text) + [0] else ToBytes(text[..size - 1]) + [0]
  }

  /** `snprintf`, at `at` in the structure; returns the length of the whole text. */
  method Snprintf(dst: array<byte>, at: nat, size: nat, text: string) returns (len: nat)
    requires at + |Printed(size, text)| <= dst.Length
    modifies dst
    ensures len == |text|
    ensures dst[..] == Written(old(dst[..]), at, Printed(size, text))
  {
    Memcpy(dst, at, Printed(size, text));
    len := |text|;
  }

  /** A zeroed structure with its message type set. */
  function Blank(size: nat, type_: char): (r: seq<byte>)
    requires size >= 3
    ensures |r| == size
  {
    Zeros(2) + [type_ as int % 256] + Zeros(size - 3)
  }

  method Structure(size: nat, type_: char) returns (s: array<byte>)
    requires size >= 3
    ensures fresh(s) && s.Length == size && s[..] == Blank(size, type_)
  {
    s := new byte[size](_ => 0);
    s[2] := type_ as int % 256;
  }

  /** The structure of a key and a value behind `lead`, cut to the message. */
  function KeyValue(type_: char, lead: seq<byte>, text: string, value: seq<byte>): (r: seq<byte>)
    requires |text| % 256 + |value| <= 255
  {
    var n, keyLen := 3 + |lead|, |text| % 256;
    var key := Written(Written(Blank(n + 255, type_), n, Printed(255, text)), 3, lead);
    var whole := Written(Written(key, n + keyLen, value), 0, Le(|lead| + keyLen + |value|, 2));
    whole[..n + keyLen + |value|]
  }

  lemma KeyValueBytes(type_: char, lead: seq<byte>, text: string, value: seq<byte>)
    requires |text| % 256 + |value| <= 255
    ensures KeyValue(type_, lead, text, value) ==
      HeaderBytes(|lead| + |text| % 256 + |value|, type_) + lead + Field255(text)[..|text| % 256] + value
  {
  }

  lemma OverBlank(blank: seq<byte>, text: seq<byte>, size: seq<byte>)
    requires |size| == 2 && 3 + |text| <= |blank|
    ensures Written(Written(blank, 3, text), 0, size)[..3 + |text|] == size + [blank[2]] + text
  {
  }

  /** A message that is nothing but a text behind its header. */
  lemma TextBytes(size: nat, type_: char, text: seq<byte>)
    requires 3 + |text| <= size
    ensures Written(Written(Blank(size, type_), 3, text), 0, Le(|text|, 2))[..3 + |text|] ==
            HeaderBytes(|text|, type_) + text
  {
    OverBlank(Blank(size, type_), text, Le(|text|, 2));
  }

  /** Printing a format into as many bytes as it has characters turns its last character into NUL. */
  lemma PrintedCut(format: string)
    requires format != ""
    ensures Printed(|format|, format) == ToBytes(FormatRoundTrip.Cut(format))
  {
  }

  lemma AddBytes(multiId: nat, msgId: nat, typeName: string)
    requires |typeName| <= 255
    ensures var ids := Written(Written(Blank(261, 'A'), 4, Le(msgId, 2)), 3, [multiId % 256]);
      Written(Written(ids, 6, ToBytes(typeName)), 0, Le(3 + |typeName|, 2))[..6 + |typeName|] ==
      AddMessage(multiId, msgId, typeName)
  {
  }

  lemma DataBytes(msgId: nat, timestamp: nat, data: seq<byte>)
    requires 8 <= |data| <= 1500
    ensures var head := Written(Written(Blank(1505, 'D'), 3, Le(msgId, 2)), 5, Le(timestamp, 8));
      Written(Written(head, 13, data[8..]), 0, Le(2 + |data|, 2))[..5 + |data|] == DataMessage(msgId, timestamp, data)
  {
  }

  /** The subscription part of a data packet. */
  method FillAdd(multiId: nat, msgId: nat, typeName: string) returns (part: seq<byte>)
    requires |typeName| <= 255
    ensures part == AddMessage(multiId, msgId, typeName)
  {
    var mA := Structure(261, 'A');
    Memcpy(mA, 4, Le(msgId, 2));
    Memcpy(mA, 3, [multiId % 256]);
    Memcpy(mA, 6, ToBytes(typeName));
    var maSize := 6 + |typeName|;
    Memcpy(mA, 0, Le(maSize - 3, 2));
    AddBytes(multiId, msgId, typeName);
    part := mA[..maSize];
  }

  /** Both parts copied into one buffer. */
  method Concatenated(a: seq<byte>, d: seq<byte>) returns (whole: seq<byte>)
    ensures whole == a + d
  {
    var buffer := new byte[|a| + |d|](_ => 0);
    Memcpy(buffer, 0, a);
    Memcpy(buffer, |a|, d);
    whole := buffer[..];
  }

  /** Both parts of a data packet, for the ids given. */
  method FillPacket(multi: nat, id: nat, typeName: string, timestamp: nat, data: seq<byte>)
      returns (packet: Result<Option<seq<byte>>>)
    ensures packet == PacketBytes(multi, id, typeName, timestamp, data)
  {
    if |typeName| > 255 { return Err(OutOfBounds); }
    var mA := FillAdd(multi, id, typeName);
    if |data| <= 1500 {
      if |data| < 8 { return Err(OutOfBounds); }
      var mD := FillData(id, timestamp, data);
      var buffer := Concatenated(mA, mD);
      packet := Ok(Some(buffer));
    } else {
      packet := Ok(None);
    }
  }

  /** The data part of a data packet; the caller's first eight bytes give way to the timestamp. */
  method FillData(msgId: nat, timestamp: nat, data: seq<byte>) returns (part: seq<byte>)
    requires 8 <= |data| <= 1500
    ensures part == DataMessage(msgId, timestamp, data)
  {
    var mD := Structure(1505, 'D');
    Memcpy(mD, 3, Le(msgId, 2));
    Memcpy(mD, 5, Le(timestamp, 8));
    Memcpy(mD, 13, data[8..]);
    var mdSize := 5 + |data|;
    Memcpy(mD, 0, Le(mdSize - 3, 2));
    DataBytes(msgId, timestamp, data);
    part := mD[..mdSize];
  }

  /** The structure of a multi info, filled in place; none when the value does not fit. */
  method FillMultiInfo(key: string, value: string, isContinued: bool) returns (m: Option<seq<byte>>)
    ensures m == MultiInfoMessage(key, value, isContinued)
  {
    var mM := Structure(260, 'M');
    var text := InfoKey(key, value);
    var continued := if isContinued then 1 else 0;
    var printed := Snprintf(mM, 5, 255, text);
    var keyLen: nat := printed % 256;
    Memcpy(mM, 3, [continued, keyLen]);
    var msgSize := 5 + keyLen;
    if |value| >= 260 - msgSize { return None; }
    Memcpy(mM, msgSize, ToBytes(value));
    msgSize := msgSize + |value|;
    Memcpy(mM, 0, Le(msgSize - 3, 2));
    KeyValueBytes('M', [continued, keyLen], text, ToBytes(value));
    m := Some(mM[..msgSize]);
  }

  /** The packet is built with the ids the tables hold after the call. */
  lemma PacketOf(before: Api, after: Api, data: seq<byte>, typeName: string, annotation: string, timestamp: nat)
    requires after == WithIds(before, typeName, annotation)
    ensures var id := after.msgIds.ids[typeName];
      DataPacket(before, data, typeName, annotation, timestamp) ==
      PacketBytes(after.multiIds[id].ids[annotation], id, typeName, timestamp, data)
  {
  }

  lemma LogBytes(text: string, level: nat, timestamp: nat)
    requires |text| <= 1499
    ensures var head := Written(Written(Blank(1512, 'L'), 3, [level % 256]), 4, Le(timestamp, 8));
      Written(Written(head, 12, Printed(1500, text)), 0, Le(9 + |text|, 2))[..12 + |text|] ==
      HeaderBytes(9 + |text|, 'L') + [level % 256] + Le(timestamp, 8) + ToBytes(text)
  {
  }

  /** `ULogFileHeader::write_to`, with the default magic and version. */
  method WriteTo(buffer: array<byte>, timestamp: nat)
    requires buffer.Length == 16
    modifies buffer
    ensures buffer[..] == [0x55, 0x4c, 0x6f, 0x67, 0x01, 0x12, 0x35, 0x01] + Le(timestamp, 8)
    ensures buffer[..] == FileHeader(timestamp)
  {
    for i := 0 to 7
      invariant buffer[..i] == Parser.MAGIC[..i]
    {
      buffer[i] := Parser.MAGIC[i];
    }
    buffer[7] := 1;
    Memcpy(buffer, 8, Le(timestamp, 8));
  }

  // ---- ids ----

  /** `ID<T>`; the counter wraps around at the width of T. */
  class ID {
    const modulus: nat
    var cntr: nat
    var ids: map<string, nat>

    function Abs(): Ids
      reads this
    {
      Ids(cntr, ids)
    }

    constructor (modulus: nat)
      ensures this.modulus == modulus && Abs() == NO_IDS
    {
      this.modulus := modulus;
      cntr, ids := 0, map[];
    }

    method GetId(name: string) returns (id: nat)
      requires modulus > 0
      modifies this
      ensures Abs() == WithId(old(Abs()), name, modulus) && id == ids[name]
    {
      if name !in ids {
        ids := ids[name := cntr];
        cntr := (cntr + 1) % modulus;
      }
      id := ids[name];
    }
  }

  class MuTelemetry {
    var withNetwork: bool
    var withLocalLog: bool
    var startTimestamp: nat
    const msgId: ID
    var multiId: map<nat, ID>
    var logQueue: seq<seq<byte>>
    var netQueue: seq<seq<byte>>

    /** The id tables are objects of their own. */
    ghost predicate Valid()
      reads this
    {
      && msgId.modulus == 65536
      && (forall k :: k in multiId ==> multiId[k] != msgId && multiId[k].modulus == 256)
      && (forall j, k :: j in multiId && k in multiId && multiId[j] == multiId[k] ==> j == k)
    }

    function Tables(): Api
      reads this, msgId, multiId.Values
    {
      Api(msgId.Abs(), map k | k in multiId :: multiId[k].Abs())
    }

    constructor (withNetwork: bool, withLocalLog: bool, startTimestamp: nat)
      ensures Valid() && Tables() == NEW_API && logQueue == [] && netQueue == [] && fresh(msgId) && multiId == map[]
      ensures this.withNetwork == withNetwork && this.withLocalLog == withLocalLog
      ensures this.startTimestamp == startTimestamp
    {
      this.withNetwork, this.withLocalLog, this.startTimestamp := withNetwork, withLocalLog, startTimestamp;
      msgId := new ID(MSG_IDS);
      multiId, logQueue, netQueue := map[], [], [];
    }

    predicate IsEnabled()
      reads this
    {
      withNetwork || withLocalLog
    }

    /** `m` went to the back of every queue that is in use. */
    twostate predicate Enqueued(m: seq<seq<byte>>)
      reads this
    {
      && logQueue == (if withLocalLog then old(logQueue) + m else old(logQueue))
      && netQueue == (if withNetwork then old(netQueue) + m else old(netQueue))
    }

    /** What a call does whose message is `m`: without one it fails and sends nothing. */
    twostate predicate Sends(m: Option<seq<byte>>, res: bool)
      reads this
    {
      if !IsEnabled() || m.None? then Enqueued([]) && res == !IsEnabled()
      else Enqueued([m.value]) && res
    }

    method ToIo(m: seq<byte>)
      modifies this`logQueue, this`netQueue
      ensures Enqueued([m])
    {
      if withLocalLog { logQueue := logQueue + [m]; }
      if withNetwork { netQueue := netQueue + [m]; }
    }

    /** `register_param`, for both types of value: `bits` are its four bytes. */
    method RegisterParam(key: string, bits: nat) returns (res: bool)
      modifies this`logQueue, this`netQueue
      ensures Sends(ParamMessage(key, bits), res)
    {
      if !IsEnabled() { return true; }
      var mP := Structure(259, 'P');
      var text := CString(key);
      var printed := Snprintf(mP, 4, 255, text);
      var keyLen: nat := printed % 256;
      Memcpy(mP, 3, [keyLen]);
      var msgSize := 4 + keyLen;
      if 4 < 259 - msgSize {
        Memcpy(mP, msgSize, Le(bits, 4));
        msgSize := msgSize + 4;
        Memcpy(mP, 0, Le(msgSize - 3, 2));
        KeyValueBytes('P', [keyLen], text, Le(bits, 4));
        ToIo(mP[..msgSize]);
        res := true;
      } else {
        res := false;
      }
    }

    /** `register_info` */
    method RegisterInfo(key: string, value: string) returns (res: bool)
      modifies this`logQueue, this`netQueue
      ensures Sends(InfoMessage(key, value), res)
    {
      if !IsEnabled() { return true; }
      var mI := Structure(259, 'I');
      var text := InfoKey(key, value);
      var printed := Snprintf(mI, 4, 255, text);
      var keyLen: nat := printed % 256;
      Memcpy(mI, 3, [keyLen]);
      var msgSize := 4 + keyLen;
      if |value| < 259 - msgSize {
        Memcpy(mI, msgSize, ToBytes(value));
        msgSize := msgSize + |value|;
        Memcpy(mI, 0, Le(msgSize - 3, 2));
        KeyValueBytes('I', [keyLen], text, ToBytes(value));
        ToIo(mI[..msgSize]);
        res := true;
      } else {
        res := false;
      }
    }

    /** `register_info_multi` */
    method RegisterInfoMulti(key: string, value: string, isContinued: bool) returns (res: bool)
      modifies this`logQueue, this`netQueue
      ensures Sends(MultiInfoMessage(key, value, isContinued), res)
    {
      if !IsEnabled() { return true; }
      var m := FillMultiInfo(key, value, isContinued);
      res := m.Some?;
      if m.Some? { ToIo(m.value); }
    }

    /** What a call does that may also leave its bounds; then nothing is said of the queues. */
    twostate predicate MaySend(m: Result<Option<seq<byte>>>, new res: Result<bool>)
      reads this
    {
      match m
      case Ok(message) => res.Ok? && Sends(message, res.value)
      case Err(f) => if IsEnabled() then res == Err(f) else Sends(None, true) && res == Ok(true)
    }

    /** `register_data_format` */
    method RegisterDataFormat(typeName: string, fields: string) returns (res: Result<bool>)
      modifies this`logQueue, this`netQueue
      ensures MaySend(FormatMessage(typeName, fields), res)
    {
      if !IsEnabled() { return Ok(true); }
      var mF := Structure(1503, 'F');
      var format := FormatRoundTrip.RegisteredText(typeName, fields);
      var text := CString(format);
      if |Printed(|format|, text)| > 1500 { return Err(OutOfBounds); }
      var formatLen := Snprintf(mF, 3, |format|, text);
      if formatLen != |format| { return Ok(false); }
      var msgSize := 3 + formatLen;
      Memcpy(mF, 0, Le(msgSize - 3, 2));
      assert text == format;
      PrintedCut(format);
      TextBytes(1503, 'F', ToBytes(FormatRoundTrip.Cut(format)));
      ToIo(mF[..msgSize]);
      res := Ok(true);
    }

    /** `get_multi_id`: each message id has a table of its own. */
    method GetMultiId(id: nat, instName: string) returns (multi: nat)
      requires Valid()
      modifies this`multiId, multiId.Values
      ensures Valid() && forall i: ID :: i in multiId.Values ==> i in old(multiId.Values) || fresh(i)
      ensures msgId.Abs() == old(msgId.Abs())
      ensures var table := old(if id in multiId then multiId[id].Abs() else NO_IDS);
        Tables().multiIds == old(Tables().multiIds)[id := WithId(table, instName, 256)] &&
        multi == Tables().multiIds[id].ids[instName]
    {
      if id !in multiId {
        var table := new ID(MULTI_IDS);
        multiId := multiId[id := table];
      }
      multi := multiId[id].GetId(instName);
    }

    /** `get_ids` */
    method GetIds(typeName: string, annotation: string) returns (id: nat, multi: nat)
      requires Valid()
      modifies this`multiId, msgId, multiId.Values
      ensures Valid() && Tables() == WithIds(old(Tables()), typeName, annotation)
      ensures forall i: ID :: i in multiId.Values ==> i in old(multiId.Values) || fresh(i)
      ensures id == Tables().msgIds.ids[typeName] && multi == Tables().multiIds[id].ids[annotation]
    {
      id := msgId.GetId(typeName);
      assert Tables().multiIds == old(Tables()).multiIds;
      multi := GetMultiId(id, annotation);
    }

    /** A message that was built goes out. */
    method Send(m: Result<Option<seq<byte>>>) returns (res: Result<bool>)
      requires IsEnabled() && Valid()
      modifies this`logQueue, this`netQueue
      ensures MaySend(m, res) && Valid() && Tables() == old(Tables())
    {
      match m {
        case Err(fault) => res := Err(fault);
        case Ok(None) => res := Ok(false);
        case Ok(Some(message)) =>
          ToIo(message);
          res := Ok(true);
      }
    }

    /** `store_data_intl`; the ids are given out even when the call then fails. */
    method StoreData(data: seq<byte>, typeName: string, annotation: string, timestamp: nat) returns (res: Result<bool>)
      requires Valid()
      modifies this`logQueue, this`netQueue, this`multiId, msgId, multiId.Values
      ensures Valid() && forall i: ID :: i in multiId.Values ==> i in old(multiId.Values) || fresh(i)
      ensures Tables() == if IsEnabled() then WithIds(old(Tables()), typeName, annotation) else old(Tables())
      ensures MaySend(DataPacket(old(Tables()), data, typeName, annotation, timestamp), res)
    {
      if !IsEnabled() { return Ok(true); }
      var id, multi := GetIds(typeName, annotation);
      var packet := FillPacket(multi, id, typeName, timestamp, data);
      PacketOf(old(Tables()), Tables(), data, typeName, annotation, timestamp);
      res := Send(packet);
    }

    /** `store_message` at time `timestamp` */
    method StoreMessage(message: string, level: nat, timestamp: nat) returns (res: bool)
      modifies this`logQueue, this`netQueue
      ensures Sends(LogMessage(message, level, timestamp), res)
    {
      if !IsEnabled() { return true; }
      var mL := Structure(1512, 'L');
      if |message| + 1 > 1500 { return false; }
      Memcpy(mL, 3, [level % 256]);
      Memcpy(mL, 4, Le(timestamp, 8));
      var text := CString(message);
      var len := Snprintf(mL, 12, 1500, text);
      var msgSize := 12 + len;
      Memcpy(mL, 0, Le(msgSize - 3, 2));
      LogBytes(text, level, timestamp);
      ToIo(mL[..msgSize]);
      res := true;
    }

    /** `create_header_and_flags` */
    method CreateHeaderAndFlags() returns (res: bool)
      modifies this`logQueue, this`netQueue
      ensures res && if IsEnabled() then Enqueued([FileHeader(startTimestamp), FLAG_BITS]) else Enqueued([])
      ensures
        var header := [0x55, 0x4c, 0x6f, 0x67, 0x01, 0x12, 0x35, 0x01] + Le(startTimestamp, 8);
        IsEnabled() ==> Enqueued([header, [40, 0, 0x42] + Zeros(40)])
    {
      if !IsEnabled() { return true; }
      WireFormat.FileHeaderBytes(startTimestamp);
      WireFormat.FlagBitsBytes();
      var fh := new byte[16](_ => 0);
      WriteTo(fh, startTimestamp);
      ToIo(fh[..]);
      var mB := Structure(43, 'B');
      Memcpy(mB, 0, Le(40, 2));
      assert mB[..] == FLAG_BITS;
      ToIo(mB[..]);
      res := true;
    }
  }
}
