/** The messages of the API and the conditions of the parser, in the bytes of the ULog file format. */
module WireFormat {
  import opened Bytes
  import opened Outcomes
  import opened Text
  import FormatRoundTrip
  import opened Parser
  import opened Encoder

  // ---- numbers and texts ----

  /** Numbers lie with their low byte first. */
  lemma LowByteFirst(n: nat)
    ensures Le(n, 1) == [n % 256]
    ensures Le(n, 2) == [n % 256, n / 0x100 % 256]
    ensures Le(n, 4) == [n % 256, n / 0x100 % 256, n / 0x1_0000 % 256, n / 0x100_0000 % 256]
  {
    assert n / 0x100 / 0x100 == n / 0x1_0000 && n / 0x1_0000 / 0x100 == n / 0x100_0000;
    assert Le(n / 0x1_0000, 2) == [n / 0x1_0000 % 256, n / 0x100_0000 % 256];
    assert Le(n / 0x100, 3) == [n / 0x100 % 256] + Le(n / 0x1_0000, 2);
  }

  lemma TwoFirst(n: nat, w: nat)
    ensures Le(n, w + 2) == Le(n, 2) + Le(n / 0x1_0000, w)
  {
    assert n / 0x100 / 0x100 == n / 0x1_0000;
    assert Le(n, w + 2) == [n % 256] + Le(n / 0x100, w + 1);
    assert Le(n / 0x100, w + 1) == [n / 0x100 % 256] + Le(n / 0x1_0000, w);
  }

  /** Eight bytes are four for the low half and four for the high half. */
  lemma LowHalfFirst(n: nat)
    ensures Le(n, 8) == Le(n, 4) + Le(n / 0x1_0000_0000, 4)
  {
    var m := n / 0x1_0000;
    assert m / 0x1_0000 == n / 0x1_0000_0000;
    TwoFirst(n, 6);
    TwoFirst(m, 4);
    TwoFirst(n, 2);
    Reassociate(Le(n, 2), Le(m, 2), Le(m / 0x1_0000, 4));
  }

  /** And are read so. */
  lemma ReadLowFirst(s: seq<byte>)
    ensures |s| == 1 ==> FromLe(s) == s[0]
    ensures |s| == 2 ==> FromLe(s) == s[0] as int + 0x100 * s[1] as int
    ensures |s| == 4 ==>
      FromLe(s) == s[0] as int + 0x100 * s[1] as int + 0x1_0000 * s[2] as int + 0x100_0000 * s[3] as int
    ensures |s| == 8 ==> FromLe(s) == FromLe(s[..4]) + 0x1_0000_0000 * FromLe(s[4..])
  {
    if |s| == 4 { ReadFour(s); }
    if |s| == 8 { ReadEight(s); }
  }

  lemma ReadFour(s: seq<byte>)
    requires |s| >= 4
    ensures FromLe(s) ==
      s[0] as int + 0x100 * s[1] as int + 0x1_0000 * s[2] as int + 0x100_0000 * s[3] as int +
      0x1_0000_0000 * FromLe(s[4..])
  {
    assert FromLe(s[3..]) == s[3] + 256 * FromLe(s[4..]) by { assert s[3..][1..] == s[4..]; }
    assert FromLe(s[2..]) == s[2] + 256 * FromLe(s[3..]) by { assert s[2..][1..] == s[3..]; }
    assert FromLe(s[1..]) == s[1] + 256 * FromLe(s[2..]) by { assert s[1..][1..] == s[2..]; }
  }

  lemma ReadEight(s: seq<byte>)
    requires |s| == 8
    ensures FromLe(s) == FromLe(s[..4]) + 0x1_0000_0000 * FromLe(s[4..])
  {
    ReadFour(s);
    ReadFour(s[..4]);
    assert s[..4][4..] == [];
  }

  /** Each character of a text is one byte. */
  lemma CharacterBytes(s: string)
    requires IsByteText(s)
    ensures |ToBytes(s)| == |s| && forall i :: 0 <= i < |s| ==> ToBytes(s)[i] == s[i] as int
  {
  }

  /** A C string ends at its first NUL. */
  lemma UpToNul(a: string, b: string)
    requires '\0' !in a
    ensures CString(a) == a && CString(a + ['\0'] + b) == a
  {
    FindNone(a, '\0');
    FindAfter(a, '\0', b);
    assert a[..|a|] == a && (a + ['\0'] + b)[..|a|] == a;
  }

  // ---- the file header and the flag bits ----

  /** The first message of every stream: "ULog", 01 12 35, version 1, and the start time. */
  lemma FileHeaderBytes(start: nat)
    ensures FileHeader(start) == [0x55, 0x4c, 0x6f, 0x67, 0x01, 0x12, 0x35, 0x01] + Le(start, 8)
  {
  }

  /** The second: forty bytes of flags, none of them set. */
  lemma FlagBitsBytes()
    ensures FLAG_BITS == [40, 0, 0x42] + Zeros(40)
  {
    LowByteFirst(40);
  }

  /** In HEADER exactly the buffers that begin with the seven bytes of the format lead on. */
  lemma HeaderAcceptedIff(p: Parser, buffer: seq<byte>)
    requires p.state == HEADER && |buffer| >= 16
    ensures Parse(p, buffer) ==
      Ok(if buffer[..7] == [0x55, 0x4c, 0x6f, 0x67, 0x01, 0x12, 0x35] then
           p.(state := FLAGS, startTime := FromLe(buffer[8..16]))
         else p.(state := INVALID))
  {
  }

  /** In FLAGS exactly flag messages lead on that set no incompatible bit but the lowest of the first byte. */
  lemma FlagsAcceptedIff(p: Parser, buffer: seq<byte>)
    requires p.state == FLAGS && |buffer| >= 43
    ensures Parse(p, buffer) ==
      Ok(p.(state :=
         if buffer[2] == 0x42 && buffer[11] <= 1 && buffer[12..19] == [0, 0, 0, 0, 0, 0, 0] then DEFINITION
         else INVALID))
  {
    assert buffer[11..19][1..] == buffer[12..19];
    assert Zeros(7) == [0, 0, 0, 0, 0, 0, 0];
  }

  // ---- the messages ----

  /** A message header: the size in two bytes, and the letter of the type. */
  lemma HeaderIs(size: nat, type_: char)
    ensures HeaderBytes(size, type_) == [size % 256, size / 256 % 256, type_ as int % 256]
  {
    LowByteFirst(size);
  }

  /** The text in a key field, whatever its length: as much of it as the length modulo 256 says. */
  lemma KeyField(text: string)
    ensures |text| % 256 <= 254 ==> Field255(text)[..|text| % 256] == ToBytes(text[..|text| % 256])
  {
  }

  /** `register_param`: nothing is sent exactly if the key, up to its first NUL, has no room left for four bytes behind
      it; the length of a key of more than 255 characters is taken modulo 256. */
  lemma ParamBytes(key: string, bits: nat)
    ensures var text := CString(key); var n := |text| % 256;
      ParamMessage(key, bits) ==
        if n > 250 then None
        else Some([5 + n, 0, 0x50, n] + ToBytes(text[..n]) +
                  [bits % 256, bits / 0x100 % 256, bits / 0x1_0000 % 256, bits / 0x100_0000 % 256])
  {
    var text := CString(key);
    var n := |text| % 256;
    LowByteFirst(bits);
    HeaderIs(5 + n, 'P');
    if n <= 250 {
      KeyField(text);
      assert HeaderBytes(1 + n + 4, 'P') + [n] == [5 + n, 0, 0x50, n];
    }
  }

  lemma InfoBytesAre(text: string, value: string)
    ensures var n := |text| % 256;
      InfoBytes(text, value) ==
        if n + |value| > 254 then None
        else Some([1 + n + |value|, 0, 0x49, n] + ToBytes(text[..n]) + ToBytes(value))
  {
    var n := |text| % 256;
    HeaderIs(1 + n + |value|, 'I');
    if n + |value| <= 254 {
      KeyField(text);
      assert HeaderBytes(1 + n + |value|, 'I') + [n] == [1 + n + |value|, 0, 0x49, n];
    }
  }

  lemma MultiBytesAre(text: string, value: string, continued: bool)
    ensures var n := |text| % 256; var size := 2 + n + |value|;
      MultiBytes(text, value, continued) ==
        if n + |value| > 254 then None
        else
          Some([size % 256, size / 256 % 256, 0x4d] + [if continued then 1 else 0, n] + ToBytes(text[..n]) +
               ToBytes(value))
  {
    HeaderIs(2 + |text| % 256 + |value|, 'M');
    KeyField(text);
  }

  /** `register_info`: the key field is the length of the value in brackets, a space and the key. */
  lemma InfoMessageBytes(key: string, value: string)
    ensures var text := "char[" + Dec(|value|) + "] " + CString(key); var n := |text| % 256;
      InfoMessage(key, value) ==
        if n + |value| > 254 then None
        else Some([1 + n + |value|, 0, 0x49, n] + ToBytes(text[..n]) + ToBytes(value))
  {
    var text := InfoKey(key, value);
    InfoBytesAre(text, value);
  }

  /** `register_info_multi`: likewise, with a byte that tells whether the value continues the one before. */
  lemma MultiInfoBytes(key: string, value: string, continued: bool)
    ensures var text := "char[" + Dec(|value|) + "] " + CString(key); var n := |text| % 256;
      var size := 2 + n + |value|;
      MultiInfoMessage(key, value, continued) ==
        if n + |value| > 254 then None
        else
          Some([size % 256, size / 256 % 256, 0x4d] + [if continued then 1 else 0, n] + ToBytes(text[..n]) +
               ToBytes(value))
  {
    var text := InfoKey(key, value);
    MultiBytesAre(text, value, continued);
  }

  lemma NoNulBehind(a: string, b: string, c: string)
    requires '\0' !in a && '\0' !in b && '\0' !in c
    ensures CString(a + b + c) == a + b + c
  {
    UpToNul(a + b + c, "");
  }

  /** `register_data_format`: name, colon, the field of the time, the fields, and NUL over the last character. */
  lemma FormatBytes(name: string, fields: string)
    requires '\0' !in name && '\0' !in fields && |name| + 21 + |fields| <= 1500
    ensures var text := name + ":uint64_t timestamp;" + fields;
      FormatMessage(name, fields) ==
        Ok(Some([|text| % 256, |text| / 256, 0x46] + (ToBytes(text[..|text| - 1]) + [0])))
  {
    var text := name + ":uint64_t timestamp;" + fields;
    Reassociate(name, ":", FormatRoundTrip.TIMESTAMP);
    assert ":" + FormatRoundTrip.TIMESTAMP == ":uint64_t timestamp;";
    assert FormatRoundTrip.RegisteredText(name, fields) == text;
    NoNulBehind(name, ":uint64_t timestamp;", fields);
    HeaderIs(|text|, 'F');
    assert ToBytes(FormatRoundTrip.Cut(text)) == ToBytes(text[..|text| - 1]) + [0];
  }

  /** A text with a NUL in it is refused, but not before 1500 characters without one have run past their field. */
  lemma FormatRefused(name: string, fields: string)
    ensures var text := name + ":uint64_t timestamp;" + fields;
      && (FormatMessage(name, fields).Err? <==> |text| > 1500 && '\0' !in text[..1500])
      && (FormatMessage(name, fields) == Ok(None) <==>
            '\0' in text && (|text| > 1500 ==> '\0' in text[..1500]))
  {
    var text := name + ":uint64_t timestamp;" + fields;
    Reassociate(name, ":", FormatRoundTrip.TIMESTAMP);
    assert ":" + FormatRoundTrip.TIMESTAMP == ":uint64_t timestamp;";
    assert FormatRoundTrip.RegisteredText(name, fields) == text;
    FirstNul(text);
  }

  lemma FirstNul(text: string)
    ensures Find(text, '\0') == |text| <==> '\0' !in text
    ensures |text| > 1500 ==> (Find(text, '\0') >= 1500 <==> '\0' !in text[..1500])
  {
    var n := Find(text, '\0');
    FirstAt(text, '\0');
    if '\0' !in text { FindNone(text, '\0'); }
    if |text| > 1500 && n < 1500 { assert text[..1500][n] == '\0'; }
  }

  lemma {:induction false} FirstAt(s: string, c: char)
    ensures Find(s, c) < |s| ==> s[Find(s, c)] == c
    ensures forall i :: 0 <= i < Find(s, c) ==> s[i] != c
  {
    if s != "" && s[0] != c { FirstAt(s[1..], c); }
  }

  lemma AddBytes(multiId: nat, msgId: nat, typeName: string)
    requires multiId < 256 && msgId < 0x1_0000 && |typeName| <= 255
    ensures var n := 3 + |typeName|;
      AddMessage(multiId, msgId, typeName) ==
        [n % 256, n / 256, 0x41, multiId, msgId % 256, msgId / 256] + ToBytes(typeName)
  {
    var n := 3 + |typeName|;
    HeaderIs(n, 'A');
    LowByteFirst(msgId);
    assert [n % 256, n / 256, 0x41] + [multiId] + [msgId % 256, msgId / 256] ==
           [n % 256, n / 256, 0x41, multiId, msgId % 256, msgId / 256];
  }

  lemma DataBytes(msgId: nat, timestamp: nat, data: seq<byte>)
    requires msgId < 0x1_0000 && 8 <= |data| <= 1500
    ensures var n := 2 + |data|;
      DataMessage(msgId, timestamp, data) ==
        [n % 256, n / 256, 0x44, msgId % 256, msgId / 256] + Le(timestamp, 8) + data[8..]
  {
    var n := 2 + |data|;
    HeaderIs(n, 'D');
    LowByteFirst(msgId);
    assert [n % 256, n / 256, 0x44] + [msgId % 256, msgId / 256] ==
           [n % 256, n / 256, 0x44, msgId % 256, msgId / 256];
  }

  /** `store_data_intl`: the subscription, then the sample, whose first eight bytes are the time. A name of more than
      255 characters leaves its field, a value of more than 1500 bytes is refused. */
  lemma SamplePacketBytes(multiId: nat, msgId: nat, typeName: string, timestamp: nat, data: seq<byte>)
    requires multiId < 256 && msgId < 0x1_0000 && |data| >= 8
    ensures var a, d := 3 + |typeName|, 2 + |data|;
      PacketBytes(multiId, msgId, typeName, timestamp, data) ==
        if |typeName| > 255 then Err(OutOfBounds)
        else if |data| > 1500 then Ok(None)
        else Ok(Some(([a % 256, a / 256, 0x41, multiId, msgId % 256, msgId / 256] + ToBytes(typeName)) +
                     ([d % 256, d / 256, 0x44, msgId % 256, msgId / 256] + Le(timestamp, 8) + data[8..])))
  {
    if |typeName| <= 255 && |data| <= 1500 {
      AddBytes(multiId, msgId, typeName);
      DataBytes(msgId, timestamp, data);
    }
  }

  /** `store_message`: the text up to its first NUL, behind level and time. */
  lemma LogMessageBytes(message: string, level: nat, timestamp: nat)
    ensures var text := CString(message); var n := 9 + |text|;
      LogMessage(message, level, timestamp) ==
        if |message| > 1499 then None
        else Some([n % 256, n / 256 % 256, 0x4c, level % 256] + Le(timestamp, 8) + ToBytes(text))
  {
    var n := 9 + |CString(message)|;
    HeaderIs(n, 'L');
    assert [n % 256, n / 256 % 256, 0x4c] + [level % 256] == [n % 256, n / 256 % 256, 0x4c, level % 256];
  }
}
