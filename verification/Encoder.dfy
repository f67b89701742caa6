/** The messages `MuTelemetry` builds, byte for byte, and its id tables. */
module Encoder {
  import opened Bytes
  import opened Outcomes
  import Text
  import FormatRoundTrip
  import Parser

  // ---- ids ----

  /** `ID<T>`: a counter of type T and the ids given out. */
  datatype Ids = Ids(cntr: nat, ids: map<string, nat>)

  const NO_IDS := Ids(0, map[])
  const MSG_IDS := 0x1_0000   // uint16_t
  const MULTI_IDS := 0x100    // uint8_t

  /** The table after `get_id(name)`; the counter wraps around at the width of its type. */
  function WithId(t: Ids, name: string, modulus: nat): (r: Ids)
    requires modulus > 0
    ensures name in r.ids
  {
    if name in t.ids then t else Ids((t.cntr + 1) % modulus, t.ids[name := t.cntr])
  }

  datatype Api = Api(msgIds: Ids, multiIds: map<nat, Ids>)

  const NEW_API := Api(NO_IDS, map[])

  /** The tables after `get_msg_id(type)` and `get_multi_id(id, annotation)`. */
  function WithIds(a: Api, typeName: string, annotation: string): Api {
    var msgIds := WithId(a.msgIds, typeName, MSG_IDS);
    var id := msgIds.ids[typeName];
    var table := if id in a.multiIds then a.multiIds[id] else NO_IDS;
    Api(msgIds, a.multiIds[id := WithId(table, annotation, MULTI_IDS)])
  }

  // ---- C strings ----

  /** The characters of `s.c_str()`. */
  function CString(s: string): string {
    s[..Text.Find(s, '\0')]
  }

  /** `snprintf(dst, 255, "%s", text)` into a zeroed field: the text, cut to leave room for its NUL. */
  function Field255(text: string): (r: seq<byte>)
    ensures |r| == 255
  {
    if |text| <= 254 then ToBytes(text) + Zeros(255 - |text|) else ToBytes(text[..254]) + [0]
  }

  function HeaderBytes(size: nat, type_: char): (r: seq<byte>)
    ensures |r| == 3
  {
    Le(size, 2) + [type_ as int % 256]
  }

  // ---- the messages ----
  // None: the call fails an assertion; where assertions are compiled out it returns false instead,
  // except that `register_data_format` then sends the text up to its first NUL.

  function FileHeader(start: nat): seq<byte> {
    Parser.MAGIC + [1] + Le(start, 8)
  }

  const FLAG_BITS := HeaderBytes(40, 'B') + Zeros(40)

  /** `register_param`: the key carries the type word, the value is four bytes. */
  function ParamMessage(key: string, bits: nat): Option<seq<byte>> {
    var text := CString(key);
    var keyLen := |text| % 256;  // key_len_ is a uint8_t
    if 4 < 255 - keyLen then
      Some(HeaderBytes(1 + keyLen + 4, 'P') + [keyLen] + Field255(text)[..keyLen] + Le(bits, 4))
    else None
  }

  function InfoKey(key: string, value: string): string {
    "char[" + Text.Dec(|value|) + "] " + CString(key)
  }

  function InfoMessage(key: string, value: string): Option<seq<byte>> {
    InfoBytes(InfoKey(key, value), value)
  }

  function InfoBytes(text: string, value: string): Option<seq<byte>> {
    var keyLen := |text| % 256;
    if |value| < 255 - keyLen then
      Some(HeaderBytes(1 + keyLen + |value|, 'I') + [keyLen] + Field255(text)[..keyLen] + ToBytes(value))
    else None
  }

  function MultiInfoMessage(key: string, value: string, continued: bool): Option<seq<byte>> {
    MultiBytes(InfoKey(key, value), value, continued)
  }

  function MultiBytes(text: string, value: string, continued: bool): Option<seq<byte>> {
    var keyLen := |text| % 256;
    if |value| < 255 - keyLen then
      Some(HeaderBytes(2 + keyLen + |value|, 'M') + [if continued then 1 else 0, keyLen] +
           Field255(text)[..keyLen] + ToBytes(value))
    else None
  }

  function FormatMessage(typeName: string, fields: string): Result<Option<seq<byte>>> {
    var text := FormatRoundTrip.RegisteredText(typeName, fields);
    var n := |CString(text)|;
    if n + 1 > 1500 && |text| > 1500 then Err(OutOfBounds)  // snprintf past format_
    else if n != |text| then Ok(None)
    else Ok(Some(HeaderBytes(n, 'F') + ToBytes(FormatRoundTrip.Cut(text))))
  }

  function AddMessage(multiId: nat, msgId: nat, typeName: string): seq<byte> {
    HeaderBytes(3 + |typeName|, 'A') + [multiId % 256] + Le(msgId, 2) + ToBytes(typeName)
  }

  function DataMessage(msgId: nat, timestamp: nat, data: seq<byte>): seq<byte>
    requires |data| >= 8
  {
    HeaderBytes(2 + |data|, 'D') + Le(msgId, 2) + Le(timestamp, 8) + data[8..]
  }

  /** `store_data_intl`, given the tables with the ids in them. */
  function DataPacket(a: Api, data: seq<byte>, typeName: string, annotation: string,
                      timestamp: nat): Result<Option<seq<byte>>> {
    var b := WithIds(a, typeName, annotation);
    var msgId := b.msgIds.ids[typeName];
    var multiId := b.multiIds[msgId].ids[annotation];
    PacketBytes(multiId, msgId, typeName, timestamp, data)
  }

  function PacketBytes(multiId: nat, msgId: nat, typeName: string, timestamp: nat,
                       data: seq<byte>): Result<Option<seq<byte>>> {
    if |typeName| > 255 then Err(OutOfBounds)
    else if |data| > 1500 then Ok(None)
    else if |data| < 8 then Err(OutOfBounds)
    else Ok(Some(AddMessage(multiId, msgId, typeName) + DataMessage(msgId, timestamp, data)))
  }

  function LogMessage(message: string, level: nat, timestamp: nat): Option<seq<byte>> {
    if |message| + 1 > 1500 then None
    else
      var text := CString(message);
      Some(HeaderBytes(9 + |text|, 'L') + [level % 256] + Le(timestamp, 8) + ToBytes(text))
  }
}
