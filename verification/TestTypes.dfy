/** The formats the test types are registered with: what the serializers build is a sample of them, nested arrays
    included. */
module TestTypes {
  import opened Bytes
  import opened Outcomes
  import opened FormatText
  import opened FormatRoundTrip
  import opened Layout
  import opened Samples
  import opened Events
  import opened Streams
  import EndToEnd
  import opened Serializers

  // ---- "double a;uint32_t b;int16_t c;" and so on, field by field ----

  function Single(t: FieldType, name: string): Declaration {
    Declaration(t, "", None, name)
  }

  function Array(t: FieldType, n: nat, name: string): Declaration {
    Declaration(t, "", Some(n), name)
  }

  const FIELDS0 := [Single(DOUBLE, "a"), Single(UINT32, "b"), Single(INT16, "c")]
  const FIELDS1 := [Array(FLOAT, 3, "a"), Array(INT32, 4, "b")]
  const FIELDS2 := [
    Array(DOUBLE, 3, "a"), Array(CHAR, 3, "b1"), Array(CHAR, 4, "b2"), Array(CHAR, 5, "b3"), Array(CHAR, 1, "b4"),
    Single(BOOL, "c")]
  const FIELDS3 := [
    Declaration(OTHER, "DataType0", Some(3), "a"), Declaration(OTHER, "DataType1", None, "b"),
    Declaration(OTHER, "DataType2", None, "c")]
  const FIELDS4 := [Declaration(OTHER, "DataType3", Some(3), "array")]

  /** The formats of the five types, as the parser has them after their registration. */
  predicate HasTypes(fm: Formats) {
    && "DataType0" in fm && fm["DataType0"].fields == RegisteredFields(FIELDS0)
    && "DataType1" in fm && fm["DataType1"].fields == RegisteredFields(FIELDS1)
    && "DataType2" in fm && fm["DataType2"].fields == RegisteredFields(FIELDS2)
    && "DataType3" in fm && fm["DataType3"].fields == RegisteredFields(FIELDS3)
    && "DataType4" in fm && fm["DataType4"].fields == RegisteredFields(FIELDS4)
  }

  predicate Is0(d: DataType0) {
    d.timestamp < Pow256(8) && d.a < Pow256(8) && d.b < Pow256(4) && d.c < Pow256(2)
  }

  predicate Below(values: seq<nat>, bound: nat) {
    forall i :: 0 <= i < |values| ==> values[i] < bound
  }

  predicate Is1(d: DataType1) {
    |d.a| == 3 && |d.b| == 4 && Below(d.a, Pow256(4)) && Below(d.b, Pow256(4))
  }

  /** Vectors and strings of the declared sizes. */
  predicate Is2(d: DataType2) {
    && |d.a| == 3 && Below(d.a, Pow256(8)) && |d.b| == 4
    && |d.b[0]| == 3 && |d.b[1]| == 4 && |d.b[2]| == 5 && |d.b[3]| == 1
    && forall i :: 0 <= i < |d.b| ==> IsByteText(d.b[i])
  }

  predicate Is3(d: DataType3) {
    |d.a| == 3 && (forall i :: 0 <= i < 3 ==> Is0(d.a[i])) && Is1(d.b) && Is2(d.c)
  }

  predicate Is4(d: DataType4) {
    |d| == 3 && forall i :: 0 <= i < 3 ==> Is3(d[i])
  }

  // ---- fitting ----

  lemma {:induction false} LeavesFit(fm: Formats, f: Field, values: seq<nat>)
    requires f.type_ != OTHER && Below(values, Pow256(Width(f.type_)))
    ensures ElementsFit(fm, f, LeafSeq(f.type_, values))
  {
    if values != [] {
      LeavesFit(fm, f, values[1..]);
      assert LeafSeq(f.type_, values)[1..] == LeafSeq(f.type_, values[1..]);
    }
  }

  lemma NumbersFit(fm: Formats, f: Field, values: seq<nat>)
    requires f.type_ != OTHER && !IsPadding(f) && f.arraySize == |values| && Below(values, Pow256(Width(f.type_)))
    ensures ItemFits(fm, f, Elements(LeafSeq(f.type_, values)))
  {
    LeavesFit(fm, f, values);
  }

  lemma OneFits(fm: Formats, f: Field, bits: nat)
    requires f.type_ != OTHER && !IsPadding(f) && f.arraySize == 1 && bits < Pow256(Width(f.type_))
    ensures ItemFits(fm, f, Elements([Leaf(Value(f.type_, bits))]))
  {
    NumbersFit(fm, f, [bits]);
    assert LeafSeq(f.type_, [bits]) == [Leaf(Value(f.type_, bits))];
  }

  lemma TextFits(fm: Formats, f: Field, text: string)
    requires f.type_ == CHAR && !IsPadding(f) && f.arraySize == |text| && IsByteText(text)
    ensures ItemFits(fm, f, Elements(LeafSeq(CHAR, Codes(text))))
  {
    Pow256Values();
    NumbersFit(fm, f, Codes(text));
  }

  lemma {:induction false} TreesFit(fm: Formats, f: Field, ts: seq<Tree>)
    requires forall i :: 0 <= i < |ts| ==> ElementFits(fm, f, ts[i])
    ensures ElementsFit(fm, f, ts)
  {
    if ts != [] { TreesFit(fm, f, ts[1..]); }
  }

  lemma NestedFits(fm: Formats, f: Field, ts: seq<Tree>)
    requires f.type_ == OTHER && !IsPadding(f) && f.arraySize == |ts|
    requires forall i :: 0 <= i < |ts| ==> ElementFits(fm, f, ts[i])
    ensures ItemFits(fm, f, Elements(ts))
  {
    TreesFit(fm, f, ts);
  }

  lemma {:induction false} AllFit(fm: Formats, fields: seq<Field>, items: seq<Item>)
    requires |items| == |fields| && forall i :: 0 <= i < |items| ==> ItemFits(fm, fields[i], items[i])
    ensures ItemsFit(fm, fields, items)
  {
    if items != [] { AllFit(fm, fields[1..], items[1..]); }
  }

  lemma Fits0(fm: Formats, d: DataType0)
    requires Is0(d)
    ensures ItemsFit(fm, RegisteredFields(FIELDS0), Items0(d))
  {
    var f := RegisteredFields(FIELDS0);
    OneFits(fm, f[0], d.a);
    OneFits(fm, f[1], d.b);
    OneFits(fm, f[2], d.c);
    AllFit(fm, f, Items0(d));
  }

  lemma Fits1(fm: Formats, d: DataType1)
    requires Is1(d)
    ensures ItemsFit(fm, RegisteredFields(FIELDS1), Items1(d))
  {
    var f := RegisteredFields(FIELDS1);
    NumbersFit(fm, f[0], d.a);
    NumbersFit(fm, f[1], d.b);
    AllFit(fm, f, Items1(d));
  }

  lemma Fits2(fm: Formats, d: DataType2)
    requires Is2(d)
    ensures ItemsFit(fm, RegisteredFields(FIELDS2), Items2(d))
  {
    var f, items := RegisteredFields(FIELDS2), Items2(d);
    Pow256Values();
    NumbersFit(fm, f[0], d.a);
    TextFits(fm, f[1], d.b[0]);
    TextFits(fm, f[2], d.b[1]);
    TextFits(fm, f[3], d.b[2]);
    TextFits(fm, f[4], d.b[3]);
    OneFits(fm, f[5], Bit(d.c));
    forall i | 1 <= i <= 4 ensures items[i] == Elements(LeafSeq(CHAR, Codes(d.b[i - 1]))) {
      assert items[i] == TextItems(d.b)[i - 1];
    }
    AllFit(fm, f, items);
  }

  lemma Fits3(fm: Formats, d: DataType3)
    requires HasTypes(fm) && Is3(d)
    ensures ItemsFit(fm, RegisteredFields(FIELDS3), Items3(d))
  {
    var f := RegisteredFields(FIELDS3);
    forall i | 0 <= i < 3 ensures ElementFits(fm, f[0], Trees0(d.a)[i]) { Fits0(fm, d.a[i]); }
    Fits1(fm, d.b);
    Fits2(fm, d.c);
    NestedFits(fm, f[0], Trees0(d.a));
    NestedFits(fm, f[1], [Tree1(d.b)]);
    NestedFits(fm, f[2], [Tree2(d.c)]);
    AllFit(fm, f, Items3(d));
  }

  lemma Fits4(fm: Formats, d: DataType4)
    requires HasTypes(fm) && Is4(d)
    ensures ItemsFit(fm, RegisteredFields(FIELDS4), Items4(d))
  {
    var f := RegisteredFields(FIELDS4);
    forall i | 0 <= i < 3 ensures ElementFits(fm, f[0], Trees3(d)[i]) { Fits3(fm, d[i]); }
    NestedFits(fm, f[0], Trees3(d));
    AllFit(fm, f, Items4(d));
  }

  /** What the serializers build are samples of the formats the test registers: with OutputDelivered, a parser that is
      given the queue's output hands on every value of every nested array. */
  lemma SerializersFit(fm: Formats, d0: DataType0, d1: DataType1, d2: DataType2, d3: DataType3, d4: DataType4)
    requires HasTypes(fm) && Is0(d0) && Is1(d1) && Is2(d2) && Is3(d3) && Is4(d4)
    ensures EndToEnd.Serializes(fm, "DataType0", EncodeTree(Tree0(d0)), Items0(d0))
    ensures EndToEnd.Serializes(fm, "DataType1", EncodeTree(Tree1(d1)), Items1(d1))
    ensures EndToEnd.Serializes(fm, "DataType2", EncodeTree(Tree2(d2)), Items2(d2))
    ensures EndToEnd.Serializes(fm, "DataType3", EncodeTree(Tree3(d3)), Items3(d3))
    ensures EndToEnd.Serializes(fm, "DataType4", EncodeTree(Tree4(d4)), Items4(d4))
  {
    Fits0(fm, d0);
    Fits1(fm, d1);
    Fits2(fm, d2);
    Fits3(fm, d3);
    Fits4(fm, d4);
  }

  // ---- what the program registers before it starts its threads ----

  const NAMES := {"DataType0", "DataType1", "DataType2", "DataType3", "DataType4"}

  const REGISTRATIONS := [
    Formatted("DataType0", FIELDS0), Formatted("DataType1", FIELDS1), Formatted("DataType2", FIELDS2),
    Formatted("DataType3", FIELDS3), Formatted("DataType4", FIELDS4)]

  /** Before the formats; the log's name is known only at run time. */
  function Properties(logname: string): seq<Event> {
    [Informed("company", "EDEL LLC"), Informed("sys_name", "RBPi4"), Informed("replay", logname),
     Parameterised("int32_t param1", 123)]
  }

  // -3.01f
  const LAST_PARAM := [Parameterised("float param2", 0xC040A3D7)]

  function Definitions(logname: string): seq<Event> {
    Properties(logname) + REGISTRATIONS + LAST_PARAM
  }

  predicate IsProperty(e: Event) {
    e.Parameterised? || e.Informed? || e.MultiInformed?
  }

  lemma {:induction false} PropertiesKeep(defs: seq<Event>, more: seq<Event>)
    requires !Started(defs) && forall i :: 0 <= i < |more| ==> IsProperty(more[i])
    ensures FormatsIn(defs + more) == FormatsIn(defs) && !Started(defs + more)
  {
    if more == [] {
      assert defs + more == defs;
    } else {
      var before, e := more[..|more| - 1], more[|more| - 1];
      PropertiesKeep(defs, before);
      assert defs + more == defs + before + [e];
      LastOf(defs + before, e);
    }
  }

  lemma FormatsNext(defs: seq<Event>, name: string, ds: seq<Declaration>)
    requires !Started(defs)
    ensures FormatsIn(defs + [Formatted(name, ds)]) == Defined(FormatsIn(defs), name, ds)
    ensures !Started(defs + [Formatted(name, ds)])
  {
    LastOf(defs, Formatted(name, ds));
  }

  lemma RegistrationsRegister(defs: seq<Event>)
    requires !Started(defs) && FormatsIn(defs) == map[]
    ensures var fm := FormatsIn(defs + REGISTRATIONS); HasTypes(fm) && fm.Keys == NAMES
    ensures !Started(defs + REGISTRATIONS)
  {
    var a := defs + [Formatted("DataType0", FIELDS0)];
    var b := a + [Formatted("DataType1", FIELDS1)];
    var c := b + [Formatted("DataType2", FIELDS2)];
    var d := c + [Formatted("DataType3", FIELDS3)];
    assert defs + REGISTRATIONS == d + [Formatted("DataType4", FIELDS4)];
    FormatsNext(defs, "DataType0", FIELDS0);
    FormatsNext(a, "DataType1", FIELDS1);
    FormatsNext(b, "DataType2", FIELDS2);
    FormatsNext(c, "DataType3", FIELDS3);
    FormatsNext(d, "DataType4", FIELDS4);
  }

  lemma DefinitionsRegister(logname: string)
    ensures var fm := FormatsIn(Definitions(logname)); HasTypes(fm) && fm.Keys == NAMES
  {
    PropertiesKeep([], Properties(logname));
    assert [] + Properties(logname) == Properties(logname);
    RegistrationsRegister(Properties(logname));
    PropertiesKeep(Properties(logname) + REGISTRATIONS, LAST_PARAM);
  }
}
