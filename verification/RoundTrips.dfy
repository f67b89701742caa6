/** What the parser reads back from each message the encoder builds. */
module RoundTrips {
  import opened Bytes
  import opened Outcomes
  import opened Text
  import opened FormatText
  import opened FormatRoundTrip
  import opened Parser
  import opened Encoder

  // ---- pieces of a message ----

  lemma NumberReads(before: seq<byte>, n: nat, width: nat, after: seq<byte>)
    requires n < Pow256(width)
    ensures NumberAt(before + Le(n, width) + after, |before|, width) == Ok(n)
  {
    LeRoundTrip(n, width);
    var m := before + Le(n, width) + after;
    assert m[|before|..|before| + width] == Le(n, width);
  }

  lemma TextReads(before: seq<byte>, s: string, after: seq<byte>)
    requires IsByteText(s)
    ensures TextAt(before + ToBytes(s) + after, |before|, |s|) == Ok(s)
  {
    TextRoundTrip(s);
    var m := before + ToBytes(s) + after;
    assert m[|before|..|before| + |s|] == ToBytes(s);
  }

  lemma ByteReads(before: seq<byte>, b: byte, after: seq<byte>)
    ensures NumberAt(before + [b] + after, |before|, 1) == Ok(b)
  {
    var m := before + [b] + after;
    assert m[|before|..|before| + 1] == [b];
    assert FromLe([b]) == b + 256 * FromLe([b][1..]);
  }

  lemma HeaderReads(before: seq<byte>, size: nat, type_: char, after: seq<byte>)
    requires size < 0x1_0000 && type_ as int < 256
    ensures HeaderAt(before + HeaderBytes(size, type_) + after, |before|) == Ok(Header(size, type_))
  {
    Pow256Values();
    LeRoundTrip(size, 2);
    var m := before + HeaderBytes(size, type_) + after;
    assert m[|before|..|before| + 2] == Le(size, 2);
    assert m[|before| + 2] == type_ as int;
  }

  lemma HeaderTypeReads(before: seq<byte>, size: nat, type_: char, after: seq<byte>)
    requires type_ as int < 256
    ensures HeaderAt(before + HeaderBytes(size, type_) + after, |before|).Ok?
    ensures HeaderAt(before + HeaderBytes(size, type_) + after, |before|).value.type_ == type_
  {
  }

  /** A message at the start of a buffer: its header, and the rest. */
  lemma MessageReads(size: nat, type_: char, body: seq<byte>)
    requires size < 0x1_0000 && type_ as int < 256
    ensures var buffer := HeaderBytes(size, type_) + body;
      HeaderAt(buffer, 0) == Ok(Header(size, type_)) && buffer[3..] == body
  {
    HeaderReads([], size, type_, body);
    assert [] + HeaderBytes(size, type_) + body == HeaderBytes(size, type_) + body;
  }

  predicate PastFlags(p: Parser) {
    p.state == DEFINITION || p.state == DEFINITION_OR_DATA
  }

  /** A C++ string that `c_str()` keeps whole. */
  predicate IsCText(s: string) {
    IsByteText(s) && '\0' !in s
  }

  lemma CStringWhole(s: string)
    requires '\0' !in s
    ensures CString(s) == s
  {
    FindNone(s, '\0');
  }

  lemma ShortField(text: string)
    requires |text| <= 254
    ensures Field255(text)[..|text|] == ToBytes(text)
  {
  }

  // ---- header and flags ----

  lemma FileHeaderParses(p: Parser, start: nat)
    requires p.state == HEADER && start < Pow256(8)
    ensures Parse(p, FileHeader(start)) == Ok(p.(state := FLAGS, startTime := start))
  {
    var b := FileHeader(start);
    assert b == (MAGIC + [1]) + Le(start, 8) + [];
    NumberReads(MAGIC + [1], start, 8, []);
    assert b[..7] == MAGIC;
  }

  lemma FlagBitsParse(p: Parser)
    requires p.state == FLAGS
    ensures Parse(p, FLAG_BITS) == Ok(p.(state := DEFINITION))
  {
    MessageReads(40, 'B', Zeros(40));
    assert FLAG_BITS[11..19] == Zeros(8);
    assert Zeros(8)[1..] == Zeros(7);
  }

  // ---- parameters ----

  function KeyWord(key: string): string { key[..Find(key, ' ')] }

  predicate ParamKey(key: string) {
    ' ' in key && (KeyWord(key) == "int32_t" || KeyWord(key) == "float")
  }

  lemma FoundIn(s: string, c: char)
    ensures c in s <==> Find(s, c) < |s|
  {
    if c in s {
      var k :| 0 <= k < |s| && s[k] == c;
      FoundBy(s, c, k);
    }
  }

  /** What the parser makes of a parameter message. */
  function ParamResult(p: Parser, key: string, bits: nat): Parser {
    if ParamKey(key) then
      p.(parameters := p.parameters +
         [Parameter(key[|KeyWord(key)| + 1..], if KeyWord(key) == "float" then FLOAT else INT32, bits)])
    else p.(state := INVALID)
  }

  lemma ParamBodyParses(p: Parser, key: string, bits: nat)
    requires IsByteText(key) && |key| <= 250 && bits < 0x1_0000_0000
    ensures ParseParam(p, [|key|] + ToBytes(key) + Le(bits, 4)) == Ok(ParamResult(p, key, bits))
  {
    var n := |key|;
    var body := [n] + ToBytes(key) + Le(bits, 4);
    ByteReads([], n, ToBytes(key) + Le(bits, 4));
    assert [] + [n] + (ToBytes(key) + Le(bits, 4)) == body;
    TextReads([n], key, Le(bits, 4));
    Pow256Values();
    NumberReads([n] + ToBytes(key), bits, 4, []);
    assert [n] + ToBytes(key) + Le(bits, 4) + [] == body;
    FoundIn(key, ' ');
  }

  lemma ParamPacketParses(p: Parser, packet: seq<byte>, key: string, bits: nat)
    requires PastFlags(p) && IsByteText(key) && |key| <= 250 && bits < 0x1_0000_0000
    requires packet == HeaderBytes(1 + |key| + 4, 'P') + ([|key|] + ToBytes(key) + Le(bits, 4))
    ensures Parse(p, packet) == Ok(ParamResult(p, key, bits))
  {
    MessageReads(1 + |key| + 4, 'P', [|key|] + ToBytes(key) + Le(bits, 4));
    ParamBodyParses(p, key, bits);
  }

  lemma ParamShape(key: string, bits: nat)
    requires '\0' !in key && |key| <= 250
    ensures ParamMessage(key, bits) == Some(HeaderBytes(1 + |key| + 4, 'P') + ([|key|] + ToBytes(key) + Le(bits, 4)))
  {
    CStringWhole(key);
    ShortField(key);
    Reassociate(HeaderBytes(1 + |key| + 4, 'P'), [|key|] + ToBytes(key), Le(bits, 4));
    Reassociate(HeaderBytes(1 + |key| + 4, 'P'), [|key|], ToBytes(key));
  }

  /** Any parameter of at most 250 bytes of key comes back whole; the parser accepts it exactly when its key
      opens with one of the two type words and a space. */
  lemma ParamRoundTrip(p: Parser, key: string, bits: nat)
    requires PastFlags(p) && IsCText(key) && |key| <= 250 && bits < 0x1_0000_0000
    ensures ParamMessage(key, bits).Some?
    ensures Parse(p, ParamMessage(key, bits).value) == Ok(ParamResult(p, key, bits))
  {
    ParamShape(key, bits);
    ParamPacketParses(p, ParamMessage(key, bits).value, key, bits);
  }

  // ---- info ----

  function InfoWord(n: nat): string {
    "char[" + Dec(n) + "]"
  }

  /** `Split` goes on behind the pieces it has. */
  lemma {:induction false} SplitKeeps(pieces: seq<string>, s: string, d: char)
    ensures pieces <= SplitOnto(pieces, s, d)
    decreases |s|
  {
    if s != "" { SplitKeeps(pieces + [s[..Find(s, d)]], Beyond(s, Find(s, d)), d); }
  }

  /** The first word of a key, under which the parser keeps an info. */
  function FirstWord(key: string): string {
    key[..Find(key, ' ')]
  }

  predicate InfoParts(parts: seq<string>, key: string) {
    |parts| >= 2 && StartsWith(parts[0], "char[") && parts[1] == FirstWord(key)
  }

  lemma InfoKeySplits(key: string, n: nat)
    requires key != ""
    ensures InfoParts(Split("char[" + Dec(n) + "] " + key, ' '), key)
  {
    var digits := Dec(n);
    var word := InfoWord(n);
    assert forall i :: 0 <= i < |digits| ==> IsDigit(digits[i]);
    assert ' ' !in word;
    SplitStep([], word, ' ', key);
    assert "char[" + digits + "] " + key == word + [' '] + key;
    assert word[..5] == "char[";
    var two := [word] + [FirstWord(key)];
    assert [] + [word] == [word];
    assert SplitOnto([word], key, ' ') == SplitOnto(two, Beyond(key, Find(key, ' ')), ' ');
    SplitKeeps(two, Beyond(key, Find(key, ' ')), ' ');
    assert two[0] == word && two[1] == FirstWord(key);
  }

  lemma ByteTextAppend(a: string, b: string)
    requires IsByteText(a) && IsByteText(b)
    ensures IsByteText(a + b)
  {
  }

  lemma DigitsAreBytes(digits: string)
    requires AllDigits(digits)
    ensures IsByteText(digits)
  {
    assert forall i :: 0 <= i < |digits| ==> IsDigit(digits[i]);
  }

  lemma InfoTextBytes(digits: string, key: string)
    requires IsByteText(digits) && IsByteText(key)
    ensures IsByteText("char[" + digits + "] " + key)
  {
    ByteTextAppend("char[", digits);
    ByteTextAppend("char[" + digits, "] ");
    ByteTextAppend("char[" + digits + "] ", key);
  }

  lemma InfoKeyText(key: string, value: string)
    requires IsCText(key)
    ensures InfoKey(key, value) == "char[" + Dec(|value|) + "] " + key && IsByteText(InfoKey(key, value))
  {
    CStringWhole(key);
    DigitsAreBytes(Dec(|value|));
    InfoTextBytes(Dec(|value|), key);
  }

  lemma InfoKeyReads(key: string, value: string)
    requires IsCText(key) && key != ""
    ensures IsByteText(InfoKey(key, value)) && InfoParts(Split(InfoKey(key, value), ' '), key)
  {
    InfoKeyText(key, value);
    InfoKeySplits(key, |value|);
  }

  lemma InfoBodyParses(p: Parser, key: string, text: string, value: string)
    requires IsByteText(text) && IsByteText(value) && |text| <= 254 && InfoParts(Split(text, ' '), key)
    ensures ParseInfo(p, [|text|] + ToBytes(text) + ToBytes(value), 1 + |text| + |value|) ==
            Ok(p.(info := Insert(p.info, FirstWord(key), InfoValue.Text(value))))
  {
    var n := |text|;
    var body := [n] + ToBytes(text) + ToBytes(value);
    ByteReads([], n, ToBytes(text) + ToBytes(value));
    assert [] + [n] + (ToBytes(text) + ToBytes(value)) == body;
    TextReads([n], text, ToBytes(value));
    TextReads([n] + ToBytes(text), value, []);
    assert [n] + ToBytes(text) + ToBytes(value) + [] == body;
  }

  lemma InfoBytesShape(text: string, value: string)
    requires |text| + |value| <= 254
    ensures InfoBytes(text, value) ==
      Some(HeaderBytes(1 + |text| + |value|, 'I') + ([|text|] + ToBytes(text) + ToBytes(value)))
  {
    ShortField(text);
    Reassociate(HeaderBytes(1 + |text| + |value|, 'I'), [|text|] + ToBytes(text), ToBytes(value));
    Reassociate(HeaderBytes(1 + |text| + |value|, 'I'), [|text|], ToBytes(text));
  }

  lemma InfoBytesParse(p: Parser, key: string, text: string, value: string)
    requires PastFlags(p) && IsByteText(text) && IsByteText(value) && |text| + |value| <= 254
    requires InfoParts(Split(text, ' '), key)
    ensures InfoBytes(text, value).Some?
    ensures Parse(p, InfoBytes(text, value).value) ==
            Ok(p.(info := Insert(p.info, FirstWord(key), InfoValue.Text(value))))
  {
    InfoBytesShape(text, value);
    MessageReads(1 + |text| + |value|, 'I', [|text|] + ToBytes(text) + ToBytes(value));
    InfoBodyParses(p, key, text, value);
  }

  /** An info whose key text and value take at most 254 bytes comes back under the first word of its key,
      unless that is taken: the first value stays. */
  lemma InfoParses(p: Parser, key: string, value: string)
    requires PastFlags(p) && IsCText(key) && key != "" && IsByteText(value) && |InfoKey(key, value)| + |value| <= 254
    ensures InfoMessage(key, value).Some?
    ensures Parse(p, InfoMessage(key, value).value) ==
            Ok(p.(info := Insert(p.info, FirstWord(key), InfoValue.Text(value))))
  {
    InfoKeyReads(key, value);
    InfoBytesParse(p, key, InfoKey(key, value), value);
  }

  /** The value of a new info is found under its own key if and only if the key has no space. */
  lemma InfoRoundTrip(p: Parser, key: string, value: string)
    requires PastFlags(p) && IsCText(key) && key != "" && IsByteText(value) && |InfoKey(key, value)| + |value| <= 254
    requires key !in p.info
    ensures InfoMessage(key, value).Some? && Parse(p, InfoMessage(key, value).value).Ok?
    ensures KnownInfo(Parse(p, InfoMessage(key, value).value).value.info, key, value) <==> ' ' !in key
  {
    InfoParses(p, key, value);
    InsertedInfo(p.info, key, value);
  }

  predicate KnownInfo(info: map<string, InfoValue>, key: string, value: string) {
    key in info && info[key] == InfoValue.Text(value)
  }

  lemma InsertedInfo(info: map<string, InfoValue>, key: string, value: string)
    requires key !in info
    ensures KnownInfo(Insert(info, FirstWord(key), InfoValue.Text(value)), key, value) <==> ' ' !in key
  {
    FoundIn(key, ' ');
    if ' ' !in key { assert key[..|key|] == key; }
  }

  /** The parser passes over multi infos. */
  lemma MultiInfoParses(p: Parser, key: string, value: string, continued: bool)
    requires PastFlags(p) && |InfoKey(key, value)| + |value| <= 254
    ensures MultiInfoMessage(key, value, continued).Some?
    ensures Parse(p, MultiInfoMessage(key, value, continued).value) == Ok(p)
  {
    var message := MultiInfoMessage(key, value, continued).value;
    assert HeaderAt(message, 0).Ok? && HeaderAt(message, 0).value.type_ == 'M';
  }

  // ---- logged messages ----

  lemma LogBodyParses(p: Parser, text: string, level: byte, timestamp: nat)
    requires IsByteText(text) && timestamp < Pow256(8)
    ensures ParseLogged(p, [level] + Le(timestamp, 8) + ToBytes(text), 9 + |text|) ==
      Ok(p.(state := DEFINITION_OR_DATA, messageLogs := p.messageLogs + [MessageLog(level, timestamp, text)]))
  {
    var body := [level] + Le(timestamp, 8) + ToBytes(text);
    ByteReads([], level, Le(timestamp, 8) + ToBytes(text));
    assert [] + [level] + (Le(timestamp, 8) + ToBytes(text)) == body;
    NumberReads([level], timestamp, 8, ToBytes(text));
    TextReads([level] + Le(timestamp, 8), text, []);
    assert [level] + Le(timestamp, 8) + ToBytes(text) + [] == body;
  }

  /** A logged message of at most 1499 bytes comes back with its level, time and text. */
  lemma LogRoundTrip(p: Parser, text: string, level: byte, timestamp: nat)
    requires p.state == DEFINITION_OR_DATA && IsCText(text) && |text| <= 1499 && timestamp < Pow256(8)
    ensures LogMessage(text, level, timestamp).Some?
    ensures Parse(p, LogMessage(text, level, timestamp).value) ==
      Ok(p.(messageLogs := p.messageLogs + [MessageLog(level, timestamp, text)]))
  {
    CStringWhole(text);
    var body := [level] + Le(timestamp, 8) + ToBytes(text);
    assert LogMessage(text, level, timestamp).value == HeaderBytes(9 + |text|, 'L') + body;
    MessageReads(9 + |text|, 'L', body);
    LogBodyParses(p, text, level, timestamp);
  }

  // ---- formats ----

  /** A registered format replaces the parser's entry of that name by the fields its text parses to. */
  lemma FormatRegisters(p: Parser, name: string, ds: seq<Declaration>)
    requires p.state == DEFINITION && ds != [] && ':' !in name
    requires forall i :: 0 <= i < |ds| ==> Renderable(CutLast(ds)[i])
    requires IsCText(RegisteredText(name, FieldsText(ds))) && |RegisteredText(name, FieldsText(ds))| <= 1500
    ensures FormatMessage(name, FieldsText(ds)).Ok? && FormatMessage(name, FieldsText(ds)).value.Some?
    ensures Parse(p, FormatMessage(name, FieldsText(ds)).value.value) ==
      Ok(p.(formats := p.formats[name := Format(name, FieldsOf(CutLast(ds)))]))
  {
    FormatMessageShape(name, FieldsText(ds));
    RegisteredFormatParses(name, ds);
    FormatPacketParses(p, FormatMessage(name, FieldsText(ds)).value.value, Cut(RegisteredText(name, FieldsText(ds))),
                       Format(name, FieldsOf(CutLast(ds))));
  }

  lemma FormatMessageShape(name: string, fields: string)
    requires '\0' !in RegisteredText(name, fields) && |RegisteredText(name, fields)| <= 1500
    ensures var text := RegisteredText(name, fields);
      FormatMessage(name, fields) == Ok(Some(HeaderBytes(|text|, 'F') + ToBytes(Cut(text))))
  {
    CStringWhole(RegisteredText(name, fields));
  }

  lemma FormatPacketParses(p: Parser, packet: seq<byte>, cut: string, format: Format)
    requires p.state == DEFINITION && |cut| <= 1500 && packet == HeaderBytes(|cut|, 'F') + ToBytes(cut)
    requires IsByteText(cut) && ParseFormat(cut) == Ok(Some(format))
    ensures Parse(p, packet) == Ok(p.(formats := p.formats[format.name := format]))
  {
    MessageReads(|cut|, 'F', ToBytes(cut));
    FormatBodyParses(p, cut, format);
  }

  lemma FormatBodyParses(p: Parser, cut: string, format: Format)
    requires IsByteText(cut) && ParseFormat(cut) == Ok(Some(format))
    ensures ParseFormatMessage(p, ToBytes(cut), |cut|) == Ok(p.(formats := p.formats[format.name := format]))
  {
    TextReads([], cut, []);
    assert [] + ToBytes(cut) + [] == ToBytes(cut);
  }

  // ---- data packets ----

  /** The parser after the subscription at the head of a data packet. */
  function Added(p: Parser, multiId: nat, msgId: nat, name: string): Parser {
    var format := if name in p.formats then Some(p.formats[name]) else None;
    p.(state := DEFINITION_OR_DATA,
       subscriptions := Insert(p.subscriptions, msgId, Subscription(msgId, multiId, name, format)),
       withMultiId := if multiId > 0 then p.withMultiId + {name} else p.withMultiId)
  }

  /** The body of a data message. */
  function Sample(msgId: nat, timestamp: nat, data: seq<byte>): seq<byte>
    requires |data| >= 8
  {
    Le(msgId, 2) + Le(timestamp, 8) + data[8..]
  }

  lemma AddReads(p: Parser, multiId: byte, msgId: nat, name: string, after: seq<byte>)
    requires IsByteText(name) && msgId < 0x1_0000
    ensures ParseAdd(p, [multiId] + Le(msgId, 2) + ToBytes(name) + after, 3 + |name|) ==
            Ok(Added(p, multiId, msgId, name))
  {
    var body := [multiId] + Le(msgId, 2) + ToBytes(name) + after;
    ByteReads([], multiId, Le(msgId, 2) + ToBytes(name) + after);
    assert [] + [multiId] + (Le(msgId, 2) + ToBytes(name) + after) == body;
    Pow256Values();
    NumberReads([multiId], msgId, 2, ToBytes(name) + after);
    assert [multiId] + Le(msgId, 2) + (ToBytes(name) + after) == body;
    TextReads([multiId] + Le(msgId, 2), name, after);
  }

  /** A subscription at the head of a packet. */
  lemma AddAtHead(multiId: byte, msgId: nat, name: string, rest: seq<byte>)
    requires |name| <= 255
    ensures var packet := AddMessage(multiId, msgId, name) + rest;
      && HeaderAt(packet, 0) == Ok(Header(3 + |name|, 'A'))
      && packet[3..] == [multiId] + Le(msgId, 2) + ToBytes(name) + rest
  {
    var head, sub := HeaderBytes(3 + |name|, 'A'), [multiId] + Le(msgId, 2) + ToBytes(name);
    assert head + sub == AddMessage(multiId, msgId, name);
    Reassociate(head, sub, rest);
    MessageReads(3 + |name|, 'A', sub + rest);
  }

  /** A sample behind it. */
  lemma DataBehind(add: seq<byte>, dataId: nat, timestamp: nat, data: seq<byte>)
    requires |data| >= 8
    ensures var packet := add + DataMessage(dataId, timestamp, data);
      HeaderAt(packet, |add|).Ok? && HeaderAt(packet, |add|).value.type_ == 'D' &&
      packet[|add| + 3..] == Sample(dataId, timestamp, data)
  {
    var next, sample := HeaderBytes(2 + |data|, 'D'), Sample(dataId, timestamp, data);
    assert next + sample == DataMessage(dataId, timestamp, data);
    Reassociate(add, next, sample);
    HeaderTypeReads(add, 2 + |data|, 'D', sample);
  }

  lemma PacketLayout(multiId: byte, msgId: nat, name: string, dataId: nat, timestamp: nat, data: seq<byte>)
    requires |name| <= 255 && |data| >= 8
    ensures var packet := AddMessage(multiId, msgId, name) + DataMessage(dataId, timestamp, data);
      && HeaderAt(packet, 0) == Ok(Header(3 + |name|, 'A'))
      && packet[3..] == [multiId] + Le(msgId, 2) + ToBytes(name) + DataMessage(dataId, timestamp, data)
      && HeaderAt(packet, 6 + |name|).Ok? && HeaderAt(packet, 6 + |name|).value.type_ == 'D'
      && packet[9 + |name|..] == Sample(dataId, timestamp, data)
  {
    AddAtHead(multiId, msgId, name, DataMessage(dataId, timestamp, data));
    DataBehind(AddMessage(multiId, msgId, name), dataId, timestamp, data);
  }

  /** A data packet is its subscription followed by its sample. */
  lemma PacketParses(p: Parser, multiId: byte, msgId: nat, name: string, dataId: nat, timestamp: nat, data: seq<byte>)
    requires PastFlags(p) && IsByteText(name) && |name| <= 255 && msgId < 0x1_0000 && |data| >= 8
    ensures var packet := AddMessage(multiId, msgId, name) + DataMessage(dataId, timestamp, data);
      Parse(p, packet) == ParseDataMessage(Added(p, multiId, msgId, name), Sample(dataId, timestamp, data))
  {
    var packet := AddMessage(multiId, msgId, name) + DataMessage(dataId, timestamp, data);
    PacketLayout(multiId, msgId, name, dataId, timestamp, data);
    AddReads(p, multiId, msgId, name, DataMessage(dataId, timestamp, data));
    assert Parse(p, packet) == ParseAddThenData(p, packet, 3 + |name|);
  }
}
