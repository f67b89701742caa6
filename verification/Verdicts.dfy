/** Which buffers the parser accepts in each of its states, told by their bytes, and what a few messages that the API
    does not send do to it. */
module Verdicts {
  import opened Bytes
  import opened Outcomes
  import opened Text
  import FormatText
  import opened Parser
  import WireFormat

  // ---- parameters ----

  /** The key of a parameter message: as many characters as its first byte says. */
  function KeyOf(message: seq<byte>): string
    requires message != [] && 1 + message[0] <= |message|
  {
    ToText(message[1..1 + message[0]])
  }

  /** Only integers and floats are parameters. */
  predicate IsParam(key: string) {
    StartsWith(key, "int32_t ") || StartsWith(key, "float ")
  }

  lemma WordBefore(key: string, word: string)
    requires ' ' !in word
    ensures StartsWith(key, word + " ") <==> Find(key, ' ') == |word| < |key| && key[..|word|] == word
  {
    if Find(key, ' ') == |word| < |key| && key[..|word|] == word { assert key[..|word| + 1] == word + " "; }
    if StartsWith(key, word + " ") {
      var rest := key[|word| + 1..];
      assert key[..|word| + 1] == word + " ";
      assert key == word + [' '] + rest by { assert key == key[..|word| + 1] + rest; }
      FindAfter(word, ' ', rest);
      assert key[..|word|] == word;
    }
  }

  lemma ParamVerdict(p: Parser, message: seq<byte>)
    requires ParseParam(p, message).Ok?
    ensures message != [] && 1 + message[0] <= |message|
    ensures ParseParam(p, message).value.state == if IsParam(KeyOf(message)) then p.state else INVALID
    ensures var r := ParseParam(p, message).value;
      r.(state := p.state, parameters := p.parameters) == p && p.parameters <= r.parameters
  {
    assert message[0..1][0] == message[0] && FromLe(message[0..1]) == message[0];
    WordBefore(KeyOf(message), "int32_t");
    WordBefore(KeyOf(message), "float");
    assert "int32_t" + " " == "int32_t " && "float" + " " == "float ";
  }

  // ---- formats ----

  lemma FormatVerdict(p: Parser, message: seq<byte>, size: nat)
    requires ParseFormatMessage(p, message, size).Ok?
    ensures size <= |message|
    ensures ParseFormatMessage(p, message, size).value.state ==
            if ':' in ToText(message[..size]) then p.state else INVALID
  {
    assert message[0..0 + size] == message[..size];
    var text := ToText(message[..size]);
    if ':' in text {
      var k :| 0 <= k < |text| && text[k] == ':';
      FormatText.FoundBy(text, ':', k);
    } else {
      FindNone(text, ':');
    }
  }

  // ---- the states behind header and flags ----

  /** Samples leave the state alone or bring it to DEFINITION_OR_DATA. */
  lemma SampleVerdict(p: Parser, message: seq<byte>)
    requires ParseDataMessage(p, message).Ok?
    ensures ParseDataMessage(p, message).value.state == DEFINITION_OR_DATA
  {
  }

  lemma AddVerdict(p: Parser, buffer: seq<byte>, size: nat)
    requires |buffer| >= 3 && ParseAddThenData(p, buffer, size).Ok?
    ensures ParseAddThenData(p, buffer, size).value.state == DEFINITION_OR_DATA
  {
  }

  /** The message behind a header, which has two bytes of size and one of type. */
  function SizeOf(buffer: seq<byte>): nat
    requires |buffer| >= 3
  {
    buffer[0] as int + 0x100 * buffer[1] as int
  }

  lemma HeaderSize(buffer: seq<byte>)
    requires |buffer| >= 3
    ensures HeaderAt(buffer, 0) == Ok(Header(SizeOf(buffer), buffer[2] as char))
  {
    assert buffer[0..2] == [buffer[0], buffer[1]];
    WireFormat.ReadLowFirst([buffer[0], buffer[1]]);
  }

  /** In DEFINITION an A leads on to data, an I, M, F or P changes nothing about the state if it is a format with a
      colon or a parameter of one of the two types where it has to be, and everything else is INVALID. */
  lemma DefinitionVerdict(p: Parser, buffer: seq<byte>)
    requires p.state == DEFINITION && |buffer| >= 3 && Parse(p, buffer).Ok?
    ensures buffer[2] == 0x46 ==> 3 + SizeOf(buffer) <= |buffer|
    ensures buffer[2] == 0x50 ==> |buffer| > 3 && 4 + buffer[3] <= |buffer|
    ensures Parse(p, buffer).value.state ==
      if buffer[2] == 0x41 then DEFINITION_OR_DATA
      else if buffer[2] == 0x49 || buffer[2] == 0x4d then DEFINITION
      else if buffer[2] == 0x46 then
        (if ':' in ToText(buffer[3..3 + SizeOf(buffer)]) then DEFINITION else INVALID)
      else if buffer[2] == 0x50 then (if IsParam(KeyOf(buffer[3..])) then DEFINITION else INVALID)
      else INVALID
  {
    HeaderSize(buffer);
    if buffer[2] == 0x41 { AddVerdict(p, buffer, SizeOf(buffer)); }
    if buffer[2] == 0x46 {
      FormatVerdict(p, buffer[3..], SizeOf(buffer));
      assert buffer[3..][..SizeOf(buffer)] == buffer[3..3 + SizeOf(buffer)];
    }
    if buffer[2] == 0x50 { ParamVerdict(p, buffer[3..]); }
  }

  /** In DEFINITION_OR_DATA the letters A, D, L, I, M, P, S, O and R are accepted, P as before, and nothing else. */
  lemma DataVerdict(p: Parser, buffer: seq<byte>)
    requires p.state == DEFINITION_OR_DATA && |buffer| >= 3 && Parse(p, buffer).Ok?
    ensures buffer[2] == 0x50 ==> |buffer| > 3 && 4 + buffer[3] <= |buffer|
    ensures Parse(p, buffer).value.state ==
      if buffer[2] == 0x50 then (if IsParam(KeyOf(buffer[3..])) then DEFINITION_OR_DATA else INVALID)
      else if buffer[2] in [0x41, 0x44, 0x4c, 0x49, 0x4d, 0x53, 0x4f, 0x52] then DEFINITION_OR_DATA
      else INVALID
  {
    HeaderSize(buffer);
    if buffer[2] == 0x41 { AddVerdict(p, buffer, SizeOf(buffer)); }
    if buffer[2] == 0x44 { SampleVerdict(p, buffer[3..]); }
    if buffer[2] == 0x50 { ParamVerdict(p, buffer[3..]); }
  }

  /** M is read over in both states, S and O among data. */
  lemma ReadOver(p: Parser, buffer: seq<byte>)
    requires |buffer| >= 3
    requires || ((p.state == DEFINITION || p.state == DEFINITION_OR_DATA) && buffer[2] == 0x4d)
             || (p.state == DEFINITION_OR_DATA && (buffer[2] == 0x53 || buffer[2] == 0x4f))
    ensures Parse(p, buffer) == Ok(p)
  {
    HeaderSize(buffer);
  }

  // ---- subscriptions that end ----

  /** After a message R its id has no subscription, every other id keeps its own; samples with the id are read over
      until it is subscribed to again. */
  lemma RemovedIsIgnored(p: Parser, remove: seq<byte>, sample: seq<byte>)
    requires p.state == DEFINITION_OR_DATA && |remove| >= 5 && remove[2] == 0x52
    requires |sample| >= 5 && sample[2] == 0x44 && sample[3] == remove[3] && sample[4] == remove[4]
    ensures var q := Parse(p, remove);
      && q.Ok? && Parse(q.value, sample) == q
      && q.value.(subscriptions := p.subscriptions) == p
      && forall id :: id in q.value.subscriptions <==>
           id in p.subscriptions && id != remove[3] as int + 0x100 * remove[4] as int
  {
    HeaderSize(remove);
    HeaderSize(sample);
    var id := remove[3] as int + 0x100 * remove[4] as int;
    assert remove[3..][0..2] == [remove[3], remove[4]] && sample[3..][0..2] == [remove[3], remove[4]];
    WireFormat.ReadLowFirst([remove[3], remove[4]]);
  }

  // ---- infos ----

  /** The words before a key: a text is read from the message, the eleven numeric kinds are known by the key alone, and
      any other word gives an empty text. */
  lemma InfoKinds(word: string, rawKey: string, message: seq<byte>, size: nat, keyLen: nat)
    requires keyLen + 1 <= size <= |message|
    ensures InfoValueOf(word, rawKey, message, size, keyLen) ==
      Ok(if |word| >= 5 && word[..5] == "char[" then InfoValue.Text(ToText(message[1 + keyLen..size]))
         else if word in ["bool", "uint8_t", "int8_t", "uint16_t", "int16_t", "uint32_t", "int32_t", "float", "double",
                          "uint64_t", "int64_t"] then FromKey(rawKey)
         else InfoValue.Text(""))
  {
  }

  /** An entry that is there is kept, and a new one changes no other. */
  lemma FirstEntryStays<K, V>(m: map<K, V>, k: K, v: V)
    ensures Insert(m, k, v).Keys == m.Keys + {k}
    ensures forall j :: j in m ==> Insert(m, k, v)[j] == m[j]
    ensures k !in m ==> Insert(m, k, v)[k] == v
  {
  }
}
