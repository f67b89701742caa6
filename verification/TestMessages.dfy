/** What the test program registers, in the texts and bytes it sends. */
module TestMessages {
  import opened Bytes
  import opened Outcomes
  import Text
  import opened FormatText
  import opened FormatRoundTrip
  import opened Events
  import opened TestTypes
  import Encoder
  import WireFormat

  // ---- properties ----

  lemma Whole(text: string)
    requires |text| < 256
    ensures |text| % 256 == |text| && text[..|text| % 256] == text
  {
  }

  lemma InfoText(key: string, value: string, text: string, head: seq<byte>)
    requires '\0' !in key && "char[" + Text.Dec(|value|) + "] " + key == text && |text| + |value| <= 254
    requires head == [1 + |text| + |value|, 0, 0x49, |text|]
    ensures Packet(map[], Informed(key, value)) == head + ToBytes(text) + ToBytes(value)
  {
    InfoIs(key, value, text);
    InfoPacket(key, value, [1 + |text| + |value|, 0, 0x49, |text|] + ToBytes(text) + ToBytes(value));
  }

  lemma InfoPacket(key: string, value: string, m: seq<byte>)
    requires Encoder.InfoMessage(key, value) == Some(m)
    ensures Packet(map[], Informed(key, value)) == m
  {
  }

  lemma InfoIs(key: string, value: string, text: string)
    requires '\0' !in key && "char[" + Text.Dec(|value|) + "] " + key == text && |text| + |value| <= 254
    ensures Encoder.InfoMessage(key, value) ==
            Some([1 + |text| + |value|, 0, 0x49, |text|] + ToBytes(text) + ToBytes(value))
  {
    WireFormat.InfoMessageBytes(key, value);
    WireFormat.UpToNul(key, "");
    Whole(text);
  }

  lemma ParamText(key: string, bits: nat, head: seq<byte>, tail: seq<byte>)
    requires '\0' !in key && |key| <= 250 && head == [5 + |key|, 0, 0x50, |key|]
    requires tail == [bits % 256, bits / 0x100 % 256, bits / 0x1_0000 % 256, bits / 0x100_0000 % 256]
    ensures Packet(map[], Parameterised(key, bits)) == head + ToBytes(key) + tail
  {
    WireFormat.ParamBytes(key, bits);
    WireFormat.UpToNul(key, "");
    Whole(key);
  }

  lemma CompanyText()
    ensures "char[" + Text.Dec(8) + "] " + "company" == "char[8] company"
  {
    assert Text.Dec(8) == "8";
    assert "char[" + "8" + "] " == "char[8] ";
  }

  lemma SystemText()
    ensures "char[" + Text.Dec(5) + "] " + "sys_name" == "char[5] sys_name"
  {
    assert Text.Dec(5) == "5";
    assert "char[" + "5" + "] " == "char[5] ";
  }

  /** The name of the company is the first message behind the flags, */
  lemma CompanySent(logname: string)
    ensures Packet(map[], Definitions(logname)[0]) ==
            [24, 0, 0x49, 15] + ToBytes("char[8] company") + ToBytes("EDEL LLC")
  {
    CompanyText();
    InfoText("company", "EDEL LLC", "char[8] company", [24, 0, 0x49, 15]);
  }

  /** that of the system the second. */
  lemma SystemSent(logname: string)
    ensures Packet(map[], Definitions(logname)[1]) ==
            [22, 0, 0x49, 16] + ToBytes("char[5] sys_name") + ToBytes("RBPi4")
  {
    SystemText();
    InfoText("sys_name", "RBPi4", "char[5] sys_name", [22, 0, 0x49, 16]);
  }

  /** The log's follows, */
  lemma ReplaySent(logname: string)
    ensures Definitions(logname)[2] == Informed("replay", logname)
  {
  }

  /** and the integer 123; */
  lemma IntegerSent(logname: string)
    ensures Packet(map[], Definitions(logname)[3]) ==
            [19, 0, 0x50, 14] + ToBytes("int32_t param1") + [123, 0, 0, 0]
  {
    ParamText("int32_t param1", 123, [19, 0, 0x50, 14], [123, 0, 0, 0]);
  }

  /** the tenth and last is the float -3.01. */
  lemma FloatSent(logname: string)
    ensures |Definitions(logname)| == 10
    ensures Packet(map[], Definitions(logname)[9]) ==
            [17, 0, 0x50, 12] + ToBytes("float param2") + [0xD7, 0xA3, 0x40, 0xC0]
  {
    ParamText("float param2", 0xC040_A3D7, [17, 0, 0x50, 12], [0xD7, 0xA3, 0x40, 0xC0]);
  }

  // ---- formats ----

  lemma OneSection(d: Declaration, base: string, brackets: string, name: string, text: string)
    requires Base(d) == base && Brackets(d.size) == brackets && d.name == name && base + brackets + " " + name == text
    ensures Section(d) == text
  {
  }

  lemma SizeTexts()
    ensures Brackets(None) == "" && Brackets(Some(1)) == "[1]" && Brackets(Some(3)) == "[3]"
    ensures Brackets(Some(4)) == "[4]" && Brackets(Some(5)) == "[5]"
  {
  }

  lemma Sections0()
    ensures Sections(FIELDS0) == ["double a", "uint32_t b", "int16_t c"]
  {
    assert "double" + "" + " " + "a" == "double a";
    assert "uint32_t" + "" + " " + "b" == "uint32_t b";
    assert "int16_t" + "" + " " + "c" == "int16_t c";
    OneSection(FIELDS0[0], "double", "", "a", "double a");
    OneSection(FIELDS0[1], "uint32_t", "", "b", "uint32_t b");
    OneSection(FIELDS0[2], "int16_t", "", "c", "int16_t c");
  }

  lemma Sections1()
    ensures Sections(FIELDS1) == ["float[3] a", "int32_t[4] b"]
  {
    SizeTexts();
    assert "float" + "[3]" + " " + "a" == "float[3] a";
    assert "int32_t" + "[4]" + " " + "b" == "int32_t[4] b";
    OneSection(FIELDS1[0], "float", "[3]", "a", "float[3] a");
    OneSection(FIELDS1[1], "int32_t", "[4]", "b", "int32_t[4] b");
  }

  lemma CharTexts()
    ensures "char" + "[3]" + " " + "b1" == "char[3] b1" && "char" + "[4]" + " " + "b2" == "char[4] b2"
    ensures "char" + "[5]" + " " + "b3" == "char[5] b3" && "char" + "[1]" + " " + "b4" == "char[1] b4"
  {
  }

  lemma Sections2()
    ensures Sections(FIELDS2) == ["double[3] a", "char[3] b1", "char[4] b2", "char[5] b3", "char[1] b4", "bool c"]
  {
    SizeTexts();
    CharTexts();
    assert "double" + "[3]" + " " + "a" == "double[3] a";
    assert "bool" + "" + " " + "c" == "bool c";
    OneSection(FIELDS2[0], "double", "[3]", "a", "double[3] a");
    OneSection(FIELDS2[1], "char", "[3]", "b1", "char[3] b1");
    OneSection(FIELDS2[2], "char", "[4]", "b2", "char[4] b2");
    OneSection(FIELDS2[3], "char", "[5]", "b3", "char[5] b3");
    OneSection(FIELDS2[4], "char", "[1]", "b4", "char[1] b4");
    OneSection(FIELDS2[5], "bool", "", "c", "bool c");
  }

  lemma Sections3()
    ensures Sections(FIELDS3) == ["DataType0[3] a", "DataType1 b", "DataType2 c"]
  {
    SizeTexts();
    assert "DataType0" + "[3]" + " " + "a" == "DataType0[3] a";
    assert "DataType1" + "" + " " + "b" == "DataType1 b";
    assert "DataType2" + "" + " " + "c" == "DataType2 c";
    OneSection(FIELDS3[0], "DataType0", "[3]", "a", "DataType0[3] a");
    OneSection(FIELDS3[1], "DataType1", "", "b", "DataType1 b");
    OneSection(FIELDS3[2], "DataType2", "", "c", "DataType2 c");
  }

  lemma Sections4()
    ensures Sections(FIELDS4) == ["DataType3[3] array"]
  {
    SizeTexts();
    assert "DataType3" + "[3]" + " " + "array" == "DataType3[3] array";
    OneSection(FIELDS4[0], "DataType3", "[3]", "array", "DataType3[3] array");
  }

  /** The event sends this name with these fields, each closed by a semicolon. */
  predicate Registers(e: Event, name: string, fields: seq<string>) {
    e.Formatted? && e.name == name && Sections(e.fields) == fields
  }

  /** In between come the formats of the five types. */
  lemma FormatsSent(logname: string)
    ensures var defs := Definitions(logname);
      && |defs| == 10
      && Registers(defs[4], "DataType0", ["double a", "uint32_t b", "int16_t c"])
      && Registers(defs[5], "DataType1", ["float[3] a", "int32_t[4] b"])
      && Registers(defs[6], "DataType2",
                   ["double[3] a", "char[3] b1", "char[4] b2", "char[5] b3", "char[1] b4", "bool c"])
      && Registers(defs[7], "DataType3", ["DataType0[3] a", "DataType1 b", "DataType2 c"])
      && Registers(defs[8], "DataType4", ["DataType3[3] array"])
  {
    Sections0();
    Sections1();
    Sections2();
    Sections3();
    Sections4();
  }
}
