/** What the words for the twelve builtin types mean, and what is read for a field of each of them. */
module FieldTypes {
  import opened Bytes
  import opened Outcomes
  import opened Text
  import opened FormatText
  import opened FormatRoundTrip
  import opened Layout
  import LayoutTheorems
  import TestSizes
  import ColumnPaths

  // ---- sizes ----

  predicate Unsigned(t: FieldType) {
    t == UINT8 || t == UINT16 || t == UINT32 || t == UINT64
  }

  predicate Integral(t: FieldType) {
    Unsigned(t) || t == INT8 || t == INT16 || t == INT32 || t == INT64
  }

  lemma BitDecimals()
    ensures Dec(8) == "8" && Dec(16) == "16" && Dec(32) == "32" && Dec(64) == "64"
  {
    ColumnPaths.Decimal(16);
    ColumnPaths.Decimal(32);
    ColumnPaths.Decimal(64);
  }

  /** The word of an integer type says how many bits are read for it, eight to a byte; the four other types have four,
      eight, one and one bytes. */
  lemma WordsTellSizes(t: FieldType)
    ensures Integral(t) ==> Word(t) == (if Unsigned(t) then "uint" else "int") + Dec(8 * Width(t)) + "_t"
    ensures !Integral(t) ==>
      (Word(t), Width(t)) in [("float", 4), ("double", 8), ("bool", 1), ("char", 1), ("", 0)]
  {
    BitDecimals();
    match t {
      case UINT8 => assert "uint" + "8" + "_t" == "uint8_t";
      case UINT16 => assert "uint" + "16" + "_t" == "uint16_t";
      case UINT32 => assert "uint" + "32" + "_t" == "uint32_t";
      case UINT64 => assert "uint" + "64" + "_t" == "uint64_t";
      case INT8 => assert "int" + "8" + "_t" == "int8_t";
      case INT16 => assert "int" + "16" + "_t" == "int16_t";
      case INT32 => assert "int" + "32" + "_t" == "int32_t";
      case INT64 => assert "int" + "64" + "_t" == "int64_t";
      case FLOAT => assert [("float", 4), ("double", 8), ("bool", 1), ("char", 1), ("", 0)][0] == ("float", 4);
      case DOUBLE => assert [("float", 4), ("double", 8), ("bool", 1), ("char", 1), ("", 0)][1] == ("double", 8);
      case BOOL => assert [("float", 4), ("double", 8), ("bool", 1), ("char", 1), ("", 0)][2] == ("bool", 1);
      case CHAR => assert [("float", 4), ("double", 8), ("bool", 1), ("char", 1), ("", 0)][3] == ("char", 1);
      case OTHER => assert [("float", 4), ("double", 8), ("bool", 1), ("char", 1), ("", 0)][4] == ("", 0);
    }
  }

  // ---- fields that are no arrays ----

  predicate Scalar(f: Field) {
    f.type_ != OTHER && f.arraySize == 1 && |f.name| < 8
  }

  /** Each field begins where the one before ends. */
  predicate Places(fields: seq<Field>, offsets: seq<nat>) {
    |offsets| == |fields| + 1 &&
    forall i :: 0 <= i < |fields| ==> Scalar(fields[i]) && offsets[i + 1] == offsets[i] + Width(fields[i].type_)
  }

  predicate Ordered(offsets: seq<nat>, bound: nat) {
    forall i, j :: 0 <= i <= j < |offsets| ==> offsets[i] <= offsets[j] <= bound
  }

  /** The values found at these places. */
  function Found(types: seq<FieldType>, offsets: seq<nat>, message: seq<byte>): (r: seq<Value>)
    requires |offsets| == |types| + 1 && Ordered(offsets, |message|)
    ensures |r| == |types|
  {
    seq(|types|, i requires 0 <= i < |types| => Value(types[i], FromLe(message[offsets[i]..offsets[i + 1]])))
  }

  function Types(fields: seq<Field>): (r: seq<FieldType>)
    ensures |r| == |fields|
  {
    seq(|fields|, i requires 0 <= i < |fields| => fields[i].type_)
  }

  lemma {:induction false} PlacesOrdered(fields: seq<Field>, offsets: seq<nat>)
    requires Places(fields, offsets)
    ensures Ordered(offsets, offsets[|fields|])
  {
    if fields != [] {
      assert forall i :: 0 <= i < |fields| - 1 ==> fields[1..][i] == fields[i + 1];
      PlacesOrdered(fields[1..], offsets[1..]);
      assert offsets[0] <= offsets[1];
      forall i, j | 0 <= i <= j < |offsets| ensures offsets[i] <= offsets[j] <= offsets[|fields|] {
        assert forall k :: 1 <= k < |offsets| ==> offsets[k] == offsets[1..][k - 1];
      }
    }
  }

  lemma PlacesBehind(fields: seq<Field>, offsets: seq<nat>)
    requires Places(fields, offsets) && fields != []
    ensures Places(fields[1..], offsets[1..]) && offsets[1] == offsets[0] + Width(fields[0].type_)
  {
    forall i | 0 <= i < |fields| - 1
      ensures Scalar(fields[1..][i]) && offsets[1..][i + 1] == offsets[1..][i] + Width(fields[1..][i].type_)
    {
      assert fields[1..][i] == fields[i + 1];
    }
  }

  lemma FoundBehind(fields: seq<Field>, offsets: seq<nat>, message: seq<byte>)
    requires fields != [] && |offsets| == |fields| + 1 && Ordered(offsets, |message|)
    ensures Ordered(offsets[1..], |message|)
    ensures Found(Types(fields), offsets, message) ==
            [Value(fields[0].type_, FromLe(message[offsets[0]..offsets[1]]))] +
            Found(Types(fields[1..]), offsets[1..], message)
  {
  }

  function Reading(types: seq<FieldType>): (r: seq<Slot>)
    ensures |r| == |types|
  {
    seq(|types|, i requires 0 <= i < |types| => Read(types[i]))
  }

  lemma ScalarFlattened(fm: Formats, open: set<string>, f: Field)
    requires Scalar(f)
    ensures FlattenField(fm, open, f) == Ok([Read(f.type_)])
  {
    assert !IsPadding(f) && FlattenArray(fm, open, f, 1) == Ok([]);
    assert FlattenElement(fm, open, f) == Ok([Read(f.type_)]);
    assert FlattenArray(fm, open, f, 0) == Ok([Read(f.type_)] + []);
    assert [Read(f.type_)] + [] == [Read(f.type_)];
  }

  lemma {:induction false} ScalarsFlattened(fm: Formats, open: set<string>, fields: seq<Field>)
    requires forall i :: 0 <= i < |fields| ==> Scalar(fields[i])
    ensures Flatten(fm, open, fields) == Ok(Reading(Types(fields)))
    decreases |fields|
  {
    if fields != [] {
      ScalarFlattened(fm, open, fields[0]);
      ScalarsFlattened(fm, open, fields[1..]);
      assert Reading(Types(fields)) == [Read(fields[0].type_)] + Reading(Types(fields[1..]));
    }
  }

  lemma {:induction false} ReadValues(fields: seq<Field>, offsets: seq<nat>, message: seq<byte>)
    requires Places(fields, offsets) && Ordered(offsets, |message|)
    ensures var slots := Reading(Types(fields));
      && LayoutTheorems.SlotValues(slots, message, offsets[0]) == Ok(Found(Types(fields), offsets, message))
      && offsets[0] + Size(slots) == offsets[|fields|]
    decreases |fields|
  {
    if fields != [] {
      PlacesBehind(fields, offsets);
      FoundBehind(fields, offsets, message);
      ReadValues(fields[1..], offsets[1..], message);
      assert Reading(Types(fields))[1..] == Reading(Types(fields[1..]));
    }
  }

  lemma FilledBy(slots: seq<Slot>, values: seq<Value>, message: seq<byte>, w: Walk)
    requires LayoutTheorems.SlotValues(slots, message, w.pos) == Ok(values) && w.index + |values| <= |w.data|
    ensures FillSlots(slots, message, w) ==
            Ok(Walk(LayoutTheorems.Overwrite(w.data, w.index, values), w.pos + Size(slots), w.index + |values|))
  {
    LayoutTheorems.FillSlotsEffect(slots, message, w);
  }

  /** Fields that are no arrays are read one behind the other, each into its column. */
  lemma ScalarsRead(fm: Formats, open: set<string>, fields: seq<Field>, offsets: seq<nat>, message: seq<byte>, w: Walk)
    requires Places(fields, offsets) && w.pos == offsets[0] && Ordered(offsets, |message|)
    requires w.index + |fields| <= |w.data|
    ensures FillFields(fm, open, fields, message, w) ==
      Ok(Walk(LayoutTheorems.Overwrite(w.data, w.index, Found(Types(fields), offsets, message)), offsets[|fields|],
              w.index + |fields|))
  {
    var slots, values := Reading(Types(fields)), Found(Types(fields), offsets, message);
    ScalarsFlattened(fm, open, fields);
    FillFollows(fm, open, fields, message, w);
    ReadValues(fields, offsets, message);
    FilledBy(slots, values, message, w);
    assert w.pos + Size(slots) == offsets[|fields|];
  }

  // ---- one field of each type ----

  const TYPES := [UINT8, INT8, UINT16, INT16, UINT32, INT32, UINT64, INT64, FLOAT, DOUBLE, CHAR, BOOL]
  const OFFSETS: seq<nat> := [0, 1, 2, 4, 6, 10, 14, 22, 30, 34, 42, 43, 44]

  const ALL := [
    Field(UINT8, "a", "", 1), Field(INT8, "b", "", 1), Field(UINT16, "c", "", 1), Field(INT16, "d", "", 1),
    Field(UINT32, "e", "", 1), Field(INT32, "f", "", 1), Field(UINT64, "g", "", 1), Field(INT64, "h", "", 1),
    Field(FLOAT, "i", "", 1), Field(DOUBLE, "j", "", 1), Field(CHAR, "k", "", 1), Field(BOOL, "l", "", 1)]

  function Plain(f: Field): Declaration {
    Declaration(f.type_, "", None, f.name)
  }

  /** The text of a declaration without brackets. */
  lemma PlainText(t: FieldType, name: string, text: string)
    requires t != OTHER && Word(t) + " " + name == text
    ensures Section(Declaration(t, "", None, name)) == text
  {
    assert Word(t) + "" == Word(t);
  }

  lemma SmallTexts()
    ensures Section(Plain(ALL[0])) == "uint8_t a" && Section(Plain(ALL[1])) == "int8_t b"
    ensures Section(Plain(ALL[2])) == "uint16_t c" && Section(Plain(ALL[3])) == "int16_t d"
  {
    PlainText(UINT8, "a", "uint8_t a");
    PlainText(INT8, "b", "int8_t b");
    PlainText(UINT16, "c", "uint16_t c");
    PlainText(INT16, "d", "int16_t d");
  }

  lemma LargeTexts()
    ensures Section(Plain(ALL[4])) == "uint32_t e" && Section(Plain(ALL[5])) == "int32_t f"
    ensures Section(Plain(ALL[6])) == "uint64_t g" && Section(Plain(ALL[7])) == "int64_t h"
  {
    PlainText(UINT32, "e", "uint32_t e");
    PlainText(INT32, "f", "int32_t f");
    PlainText(UINT64, "g", "uint64_t g");
    PlainText(INT64, "h", "int64_t h");
  }

  lemma OtherTexts()
    ensures Section(Plain(ALL[8])) == "float i" && Section(Plain(ALL[9])) == "double j"
    ensures Section(Plain(ALL[10])) == "char k" && Section(Plain(ALL[11])) == "bool l"
  {
    PlainText(FLOAT, "i", "float i");
    PlainText(DOUBLE, "j", "double j");
    PlainText(CHAR, "k", "char k");
    PlainText(BOOL, "l", "bool l");
  }

  /** Twelve texts, given one by one. */
  lemma TwelveTexts(ds: seq<Declaration>, texts: seq<string>)
    requires |ds| == |texts| == 12
    requires Section(ds[0]) == texts[0] && Section(ds[1]) == texts[1] && Section(ds[2]) == texts[2]
    requires Section(ds[3]) == texts[3] && Section(ds[4]) == texts[4] && Section(ds[5]) == texts[5]
    requires Section(ds[6]) == texts[6] && Section(ds[7]) == texts[7] && Section(ds[8]) == texts[8]
    requires Section(ds[9]) == texts[9] && Section(ds[10]) == texts[10] && Section(ds[11]) == texts[11]
    ensures Sections(ds) == texts
  {
    forall i | 0 <= i < 12 ensures Sections(ds)[i] == texts[i] { }
  }

  /** Texts of plain fields with names that can be told in a format. */
  lemma PlainParse(fields: seq<Field>, ds: seq<Declaration>, texts: seq<string>)
    requires |ds| == |fields| && Sections(ds) == texts
    requires forall i :: 0 <= i < |fields| ==>
      Scalar(fields[i]) && fields[i].other == "" && FieldName(fields[i].name) && ds[i] == Plain(fields[i])
    ensures ParseBody(Terminated(texts, ';')) == Ok(fields)
  {
    assert FieldsOf(ds) == fields;
    FieldsTextParses(ds);
  }

  const TEXTS := ["uint8_t a", "int8_t b", "uint16_t c", "int16_t d", "uint32_t e", "int32_t f",
                  "uint64_t g", "int64_t h", "float i", "double j", "char k", "bool l"]

  lemma AllPlain(i: nat)
    requires i < 12
    ensures Scalar(ALL[i]) && ALL[i].other == "" && FieldName(ALL[i].name)
  {
  }

  lemma AllTexts(ds: seq<Declaration>)
    requires |ds| == 12 && forall i :: 0 <= i < 12 ==> ds[i] == Plain(ALL[i])
    ensures Sections(ds) == TEXTS
  {
    SmallTexts();
    LargeTexts();
    OtherTexts();
    TwelveTexts(ds, TEXTS);
  }

  /** The texts of the twelve fields are read as these fields. */
  lemma AllParse()
    ensures ParseBody(Terminated(TEXTS, ';')) == Ok(ALL)
  {
    var ds := seq(12, i requires 0 <= i < 12 => Plain(ALL[i]));
    AllTexts(ds);
    forall i | 0 <= i < 12 ensures Scalar(ALL[i]) && ALL[i].other == "" && FieldName(ALL[i].name) { AllPlain(i); }
    PlainParse(ALL, ds, TEXTS);
  }

  lemma AllPlaced()
    ensures Places(ALL, OFFSETS) && Types(ALL) == TYPES
  {
    forall i | 0 <= i < 12
      ensures Scalar(ALL[i]) && OFFSETS[i + 1] == OFFSETS[i] + Width(ALL[i].type_) && ALL[i].type_ == TYPES[i]
    {
      AllPlace(i);
    }
  }

  lemma AllPlace(i: nat)
    requires i < 12
    ensures Scalar(ALL[i]) && OFFSETS[i + 1] == OFFSETS[i] + Width(ALL[i].type_) && ALL[i].type_ == TYPES[i]
  {
  }

  lemma OneByte(message: seq<byte>, i: nat)
    requires i < |message|
    ensures FromLe(message[i..i + 1]) == message[i]
  {
    assert message[i..i + 1] == [message[i]];
  }

  function Twelve(message: seq<byte>): seq<Value>
    requires |message| >= 44
  {
    [ Value(UINT8, message[0]), Value(INT8, message[1]),
      Value(UINT16, FromLe(message[2..4])), Value(INT16, FromLe(message[4..6])),
      Value(UINT32, FromLe(message[6..10])), Value(INT32, FromLe(message[10..14])),
      Value(UINT64, FromLe(message[14..22])), Value(INT64, FromLe(message[22..30])),
      Value(FLOAT, FromLe(message[30..34])), Value(DOUBLE, FromLe(message[34..42])),
      Value(CHAR, message[42]), Value(BOOL, message[43])]
  }

  lemma AllFound(message: seq<byte>)
    requires |message| >= 44 && Ordered(OFFSETS, |message|)
    ensures Found(TYPES, OFFSETS, message) == Twelve(message)
  {
    OneByte(message, 0);
    OneByte(message, 1);
    OneByte(message, 42);
    OneByte(message, 43);
    var found := Found(TYPES, OFFSETS, message);
    forall i | 0 <= i < 12 ensures found[i] == Twelve(message)[i] {
      assert found[i] == Value(TYPES[i], FromLe(message[OFFSETS[i]..OFFSETS[i + 1]]));
    }
  }

  /** Of 44 bytes the twelve fields take 1, 1, 2, 2, 4, 4, 8, 8, 4, 8, 1 and 1, in this order. */
  lemma AllRead(fm: Formats, open: set<string>, message: seq<byte>, data: seq<Column>)
    requires |message| >= 44 && |data| == 12
    ensures FillFields(fm, open, ALL, message, Walk(data, 0, 0)) ==
            Ok(Walk(LayoutTheorems.Overwrite(data, 0, Twelve(message)), 44, 12))
  {
    AllPlaced();
    PlacesOrdered(ALL, OFFSETS);
    ScalarsRead(fm, open, ALL, OFFSETS, message, Walk(data, 0, 0));
    AllFound(message);
  }

  /** Any twelve values written in these sizes are read back. */
  lemma AllReadBack(fm: Formats, open: set<string>, message: seq<byte>, data: seq<Column>, values: seq<nat>)
    requires |message| == 44 && |data| == |values| == 12
    requires message[0] == values[0] && message[1] == values[1]
    requires message[2..4] == Le(values[2], 2) && values[2] < 0x1_0000
    requires message[4..6] == Le(values[3], 2) && values[3] < 0x1_0000
    requires message[6..10] == Le(values[4], 4) && values[4] < 0x1_0000_0000
    requires message[10..14] == Le(values[5], 4) && values[5] < 0x1_0000_0000
    requires message[14..22] == Le(values[6], 8) && values[6] < 0x1_0000_0000_0000_0000
    requires message[22..30] == Le(values[7], 8) && values[7] < 0x1_0000_0000_0000_0000
    requires message[30..34] == Le(values[8], 4) && values[8] < 0x1_0000_0000
    requires message[34..42] == Le(values[9], 8) && values[9] < 0x1_0000_0000_0000_0000
    requires message[42] == values[10] && message[43] == values[11]
    ensures var r := FillFields(fm, open, ALL, message, Walk(data, 0, 0));
      && r.Ok? && r.value.pos == 44 && |r.value.data| == 12
      && forall i :: 0 <= i < 12 ==>
           r.value.data[i] == data[i].(values := [Value(TYPES[i], values[i])])
  {
    AllRead(fm, open, message, data);
    Pow256Values();
    LeRoundTrip(values[2], 2);
    LeRoundTrip(values[3], 2);
    LeRoundTrip(values[4], 4);
    LeRoundTrip(values[5], 4);
    LeRoundTrip(values[6], 8);
    LeRoundTrip(values[7], 8);
    LeRoundTrip(values[8], 4);
    LeRoundTrip(values[9], 8);
    forall i | 0 <= i < 12 ensures Twelve(message)[i] == Value(TYPES[i], values[i]) { }
  }

  /** Any sample of the twelve fields has 44 bytes. */
  lemma AllTake(fm: Formats)
    ensures TestSizes.FieldsSized(fm, ALL, 44)
  {
    var sizes: seq<nat> := [1, 1, 2, 2, 4, 4, 8, 8, 4, 8, 1, 1];
    forall i | 0 <= i < 12 ensures TestSizes.FieldSized(fm, ALL[i], sizes[i]) {
      TestSizes.LeafSized(fm, ALL[i], 1);
    }
    TestSizes.AllSized(fm, ALL, sizes);
    SizesSum();
  }

  lemma SizesSum()
    ensures TestSizes.Sum([1, 1, 2, 2, 4, 4, 8, 8, 4, 8, 1, 1]) == 44
  {
    assert TestSizes.Sum([8, 4, 8, 1, 1]) == 22;
    assert [1, 1, 2, 2, 4, 4, 8, 8, 4, 8, 1, 1][7..] == [8, 4, 8, 1, 1];
    assert [1, 1, 2, 2, 4, 4, 8, 8, 4, 8, 1, 1][4..][3..] == [8, 4, 8, 1, 1];
  }
}
