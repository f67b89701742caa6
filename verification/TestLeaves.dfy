/** What the serializers write and what the data handler gets, for the values of the test types, byte by byte and leaf
    by leaf. */
module TestLeaves {
  import opened Bytes
  import opened Outcomes
  import opened FormatText
  import opened Layout
  import opened Samples
  import EndToEnd
  import opened Serializers
  import opened TestTypes
  import opened TestColumns

  // ---- leaves ----

  /** Numbers of one type, in order. */
  function Values(t: FieldType, bits: seq<nat>): (r: seq<Value>)
    ensures |r| == |bits|
  {
    seq(|bits|, i requires 0 <= i < |bits| => Value(t, bits[i]))
  }

  /** The characters of texts one behind the other. */
  function Characters(texts: seq<string>): seq<Value> {
    if texts == [] then []
    else seq(|texts[0]|, i requires 0 <= i < |texts[0]| => Value(CHAR, texts[0][i] as int)) + Characters(texts[1..])
  }

  lemma {:induction false} SeqLeaves(t: FieldType, bits: seq<nat>)
    ensures ElementLeaves(LeafSeq(t, bits)) == Values(t, bits)
  {
    if bits != [] {
      SeqLeaves(t, bits[1..]);
      assert LeafSeq(t, bits)[1..] == LeafSeq(t, bits[1..]);
      assert Values(t, bits) == [Value(t, bits[0])] + Values(t, bits[1..]);
    }
  }

  lemma {:induction false} TextLeaves(texts: seq<string>)
    ensures Leaves(TextItems(texts)) == Characters(texts)
  {
    if texts != [] {
      TextLeaves(texts[1..]);
      assert TextItems(texts)[1..] == TextItems(texts[1..]);
      SeqLeaves(CHAR, Codes(texts[0]));
    }
  }

  lemma {:induction false} LeavesAppend(a: seq<Item>, b: seq<Item>)
    ensures Leaves(a + b) == Leaves(a) + Leaves(b)
  {
    if a == [] {
      assert a + b == b;
    } else {
      assert (a + b)[1..] == a[1..] + b;
      LeavesAppend(a[1..], b);
    }
  }

  lemma LeavesOne(item: Item)
    ensures Leaves([item]) == ItemLeaves(item)
  {
    assert Leaves([item][1..]) == [];
  }

  lemma LeafAlone(v: Value)
    ensures Leaves([Elements([Leaf(v)])]) == [v]
  {
    LeavesOne(Elements([Leaf(v)]));
    SeqLeaves(v.type_, [v.bits]);
    assert LeafSeq(v.type_, [v.bits]) == [Leaf(v)] && Values(v.type_, [v.bits]) == [v];
  }

  lemma Leaves0(d: DataType0)
    ensures Leaves(Items0(d)) == [Value(DOUBLE, d.a), Value(UINT32, d.b), Value(INT16, d.c)]
  {
    var a, b, c := Value(DOUBLE, d.a), Value(UINT32, d.b), Value(INT16, d.c);
    LeafAlone(a);
    LeafAlone(b);
    LeafAlone(c);
    var first, second, third := [Elements([Leaf(a)])], [Elements([Leaf(b)])], [Elements([Leaf(c)])];
    LeavesAppend(first, second);
    LeavesAppend(first + second, third);
    assert Items0(d) == first + second + third;
  }

  lemma Leaves1(d: DataType1)
    ensures Leaves(Items1(d)) == Values(FLOAT, d.a) + Values(INT32, d.b)
  {
    var a, b := Elements(LeafSeq(FLOAT, d.a)), Elements(LeafSeq(INT32, d.b));
    SeqLeaves(FLOAT, d.a);
    SeqLeaves(INT32, d.b);
    LeavesOne(a);
    LeavesOne(b);
    LeavesAppend([a], [b]);
    assert Items1(d) == [a] + [b];
  }

  /** The last leaf of a DataType2 is its flag: 1 exactly if it is set. */
  lemma Leaves2(d: DataType2)
    ensures Leaves(Items2(d)) == Values(DOUBLE, d.a) + Characters(d.b) + [Value(BOOL, if d.c then 1 else 0)]
  {
    var a, c := Elements(LeafSeq(DOUBLE, d.a)), Value(BOOL, if d.c then 1 else 0);
    SeqLeaves(DOUBLE, d.a);
    LeavesOne(a);
    TextLeaves(d.b);
    LeafAlone(c);
    LeavesAppend([a], TextItems(d.b));
    LeavesAppend([a] + TextItems(d.b), [Elements([Leaf(c)])]);
  }

  lemma {:induction false} NestedLeaves(ts: seq<Tree>, values: seq<seq<Value>>)
    requires |ts| == |values| && forall i :: 0 <= i < |ts| ==> ts[i].Nested? && Leaves(ts[i].items) == values[i]
    ensures ElementLeaves(ts) == Concatenated(values)
  {
    if ts != [] { NestedLeaves(ts[1..], values[1..]); }
  }

  function Concatenated<T>(parts: seq<seq<T>>): seq<T> {
    if parts == [] then [] else parts[0] + Concatenated(parts[1..])
  }

  lemma OneConcatenated<T>(a: seq<T>)
    ensures Concatenated([a]) == a
  {
    assert Concatenated([a][1..]) == [];
    assert Concatenated([a]) == a + [];
  }

  lemma ThreeConcatenated<T>(a: seq<T>, b: seq<T>, c: seq<T>)
    ensures Concatenated([a, b, c]) == a + b + c
  {
    OneConcatenated(c);
    var two, three := [b, c], [a, b, c];
    assert two[1..] == [c] && three[1..] == two;
    assert Concatenated(two) == b + c;
    assert a + (b + c) == a + b + c;
  }

  /** A DataType3 is three DataType0, a DataType1 and a DataType2, without their times. */
  lemma Leaves3(d: DataType3)
    requires |d.a| == 3
    ensures Leaves(Items3(d)) ==
            Leaves(Items0(d.a[0])) + Leaves(Items0(d.a[1])) + Leaves(Items0(d.a[2])) +
            Leaves(Items1(d.b)) + Leaves(Items2(d.c))
  {
    var a, b, c := Elements(Trees0(d.a)), Elements([Tree1(d.b)]), Elements([Tree2(d.c)]);
    var zeros := [Leaves(Items0(d.a[0])), Leaves(Items0(d.a[1])), Leaves(Items0(d.a[2]))];
    NestedLeaves(Trees0(d.a), zeros);
    NestedLeaves([Tree1(d.b)], [Leaves(Items1(d.b))]);
    NestedLeaves([Tree2(d.c)], [Leaves(Items2(d.c))]);
    ThreeConcatenated(zeros[0], zeros[1], zeros[2]);
    OneConcatenated(Leaves(Items1(d.b)));
    OneConcatenated(Leaves(Items2(d.c)));
    LeavesOne(a);
    LeavesOne(b);
    LeavesOne(c);
    LeavesAppend([a], [b]);
    LeavesAppend([a] + [b], [c]);
    assert Items3(d) == [a] + [b] + [c];
  }

  lemma Leaves4(d: DataType4)
    requires |d| == 3
    ensures Leaves(Items4(d)) == Leaves(Items3(d[0])) + Leaves(Items3(d[1])) + Leaves(Items3(d[2]))
  {
    var threes := [Leaves(Items3(d[0])), Leaves(Items3(d[1])), Leaves(Items3(d[2]))];
    NestedLeaves(Trees3(d), threes);
    ThreeConcatenated(threes[0], threes[1], threes[2]);
    LeavesOne(Elements(Trees3(d)));
  }

  // ---- what the data handler gets ----

  lemma Handed0(fm: Formats, d: DataType0)
    requires HasTypes(fm)
    ensures EndToEnd.Named(fm, "DataType0", Items0(d)) ==
            [("/a", Value(DOUBLE, d.a)), ("/b", Value(UINT32, d.b)), ("/c\0", Value(INT16, d.c))]
  {
    TypeColumns(fm);
    Leaves0(d);
  }

  lemma Handed1(fm: Formats, d: DataType1)
    requires HasTypes(fm) && Is1(d)
    ensures EndToEnd.Named(fm, "DataType1", Items1(d)) ==
            [("/a.00", Value(FLOAT, d.a[0])), ("/a.01", Value(FLOAT, d.a[1])), ("/a.02", Value(FLOAT, d.a[2])),
             ("/b\0.00", Value(INT32, d.b[0])), ("/b\0.01", Value(INT32, d.b[1])),
             ("/b\0.02", Value(INT32, d.b[2])), ("/b\0.03", Value(INT32, d.b[3]))]
  {
    TypeColumns(fm);
    Leaves1(d);
  }

  function Letter(text: string, i: nat): Value
    requires i < |text|
  {
    Value(CHAR, text[i] as int)
  }

  lemma FourTexts(d: DataType2)
    requires Is2(d)
    ensures Characters(d.b) ==
            [Letter(d.b[0], 0), Letter(d.b[0], 1), Letter(d.b[0], 2),
             Letter(d.b[1], 0), Letter(d.b[1], 1), Letter(d.b[1], 2), Letter(d.b[1], 3),
             Letter(d.b[2], 0), Letter(d.b[2], 1), Letter(d.b[2], 2), Letter(d.b[2], 3), Letter(d.b[2], 4),
             Letter(d.b[3], 0)]
  {
    assert Characters(d.b[4..]) == [];
    assert Characters(d.b[3..]) == [Letter(d.b[3], 0)] by { assert d.b[3..][1..] == d.b[4..]; }
    var third := [Letter(d.b[2], 0), Letter(d.b[2], 1), Letter(d.b[2], 2), Letter(d.b[2], 3), Letter(d.b[2], 4)];
    assert Characters(d.b[2..]) == third + Characters(d.b[3..]) by { assert d.b[2..][1..] == d.b[3..]; }
    var second := [Letter(d.b[1], 0), Letter(d.b[1], 1), Letter(d.b[1], 2), Letter(d.b[1], 3)];
    assert Characters(d.b[1..]) == second + Characters(d.b[2..]) by { assert d.b[1..][1..] == d.b[2..]; }
    var first := [Letter(d.b[0], 0), Letter(d.b[0], 1), Letter(d.b[0], 2)];
    assert Characters(d.b) == first + Characters(d.b[1..]);
  }

  lemma Handed2(fm: Formats, d: DataType2)
    requires HasTypes(fm) && Is2(d)
    ensures EndToEnd.Named(fm, "DataType2", Items2(d)) ==
            [("/a.00", Value(DOUBLE, d.a[0])), ("/a.01", Value(DOUBLE, d.a[1])), ("/a.02", Value(DOUBLE, d.a[2])),
             ("/b1.00", Letter(d.b[0], 0)), ("/b1.01", Letter(d.b[0], 1)), ("/b1.02", Letter(d.b[0], 2)),
             ("/b2.00", Letter(d.b[1], 0)), ("/b2.01", Letter(d.b[1], 1)), ("/b2.02", Letter(d.b[1], 2)),
             ("/b2.03", Letter(d.b[1], 3)), ("/b3.00", Letter(d.b[2], 0)), ("/b3.01", Letter(d.b[2], 1)),
             ("/b3.02", Letter(d.b[2], 2)), ("/b3.03", Letter(d.b[2], 3)), ("/b3.04", Letter(d.b[2], 4)),
             ("/b4", Letter(d.b[3], 0)), ("/c\0", Value(BOOL, if d.c then 1 else 0))]
  {
    TypeColumns(fm);
    Leaves2(d);
    FourTexts(d);
  }

  lemma ZipAppend(m: seq<string>, n: seq<string>, v: seq<Value>, w: seq<Value>)
    requires |m| == |v| && |n| == |w|
    ensures |m + n| == |v + w| && EndToEnd.Zip(m + n, v + w) == EndToEnd.Zip(m, v) + EndToEnd.Zip(n, w)
  {
  }

  lemma LeafCounts(d: DataType3)
    requires Is3(d)
    ensures |Leaves(Items0(d.a[0]))| == |Leaves(Items0(d.a[1]))| == |Leaves(Items0(d.a[2]))| == |COLUMNS0|
    ensures |Leaves(Items1(d.b))| == |COLUMNS1| && |Leaves(Items2(d.c))| == |COLUMNS2|
    ensures |Leaves(Items3(d))| == |COLUMNS3|
  {
    Leaves0(d.a[0]);
    Leaves0(d.a[1]);
    Leaves0(d.a[2]);
    Leaves1(d.b);
    Leaves2(d.c);
    FourTexts(d.c);
    Leaves3(d);
  }

  /** The leaves of nested values under their paths. */
  function At(path: string, names: seq<string>, values: seq<Value>): seq<(string, Value)>
    requires |names| == |values|
  {
    EndToEnd.Zip(Behind(path, names), values)
  }

  lemma Handed3(fm: Formats, d: DataType3)
    requires HasTypes(fm) && Is3(d)
    ensures |Leaves(Items0(d.a[0]))| == |Leaves(Items0(d.a[1]))| == |Leaves(Items0(d.a[2]))| == |COLUMNS0|
    ensures |Leaves(Items1(d.b))| == |COLUMNS1| && |Leaves(Items2(d.c))| == |COLUMNS2|
    ensures EndToEnd.Named(fm, "DataType3", Items3(d)) ==
            At("/a.00", COLUMNS0, Leaves(Items0(d.a[0]))) + At("/a.01", COLUMNS0, Leaves(Items0(d.a[1]))) +
            At("/a.02", COLUMNS0, Leaves(Items0(d.a[2]))) + At("/b", COLUMNS1, Leaves(Items1(d.b))) +
            At("/c\0", COLUMNS2, Leaves(Items2(d.c)))
  {
    TypeColumns(fm);
    LeafCounts(d);
    Leaves3(d);
    var u, v, w := Leaves(Items0(d.a[0])), Leaves(Items0(d.a[1])), Leaves(Items0(d.a[2]));
    var x, y := Leaves(Items1(d.b)), Leaves(Items2(d.c));
    var k, l, m := Behind("/a.00", COLUMNS0), Behind("/a.01", COLUMNS0), Behind("/a.02", COLUMNS0);
    ZipAppend(k, l, u, v);
    ZipAppend(k + l, m, u + v, w);
    ZipAppend(k + l + m, Behind("/b", COLUMNS1), u + v + w, x);
    ZipAppend(k + l + m + Behind("/b", COLUMNS1), Behind("/c\0", COLUMNS2), u + v + w + x, y);
  }

  lemma Handed4(fm: Formats, d: DataType4)
    requires HasTypes(fm) && Is4(d)
    ensures forall i :: 0 <= i < 3 ==> |Leaves(Items3(d[i]))| == |COLUMNS3|
    ensures EndToEnd.Named(fm, "DataType4", Items4(d)) ==
            At("/array\0.00", COLUMNS3, Leaves(Items3(d[0]))) + At("/array\0.01", COLUMNS3, Leaves(Items3(d[1]))) +
            At("/array\0.02", COLUMNS3, Leaves(Items3(d[2])))
  {
    TypeColumns(fm);
    forall i | 0 <= i < 3 ensures |Leaves(Items3(d[i]))| == |COLUMNS3| { LeafCounts(d[i]); }
    Leaves4(d);
    var u, v, w := Leaves(Items3(d[0])), Leaves(Items3(d[1])), Leaves(Items3(d[2]));
    var k, l := Behind("/array\0.00", COLUMNS3), Behind("/array\0.01", COLUMNS3);
    ZipAppend(k, l, u, v);
    ZipAppend(k + l, Behind("/array\0.02", COLUMNS3), u + v, w);
  }

  // ---- what the serializers write ----

  /** Numbers of `n` bytes each, one behind the other. */
  function Words(values: seq<nat>, n: nat): seq<byte> {
    if values == [] then [] else Le(values[0], n) + Words(values[1..], n)
  }

  /** The characters of texts as bytes, without any NUL between them. */
  function Texts(texts: seq<string>): seq<byte> {
    if texts == [] then [] else ToBytes(texts[0]) + Texts(texts[1..])
  }

  lemma {:induction false} SeqBytes(t: FieldType, values: seq<nat>, n: nat)
    requires Width(t) == n
    ensures EncodeElements(LeafSeq(t, values)) == Words(values, n)
  {
    if values != [] {
      SeqBytes(t, values[1..], n);
      assert LeafSeq(t, values)[1..] == LeafSeq(t, values[1..]);
    }
  }

  lemma {:induction false} TextBytes(texts: seq<string>)
    ensures Encode(TextItems(texts)) == Texts(texts)
  {
    if texts != [] {
      TextBytes(texts[1..]);
      assert TextItems(texts)[1..] == TextItems(texts[1..]);
      TextElements(texts[0]);
    }
  }

  lemma Bytes0(d: DataType0)
    ensures EncodeTree(Tree0(d)) == Le(d.timestamp, 8) + Le(d.a, 8) + Le(d.b, 4) + Le(d.c, 2)
  {
    var items := Items0(d);
    ThreeItems(items[0], items[1], items[2]);
    OneElement(Leaf(Value(DOUBLE, d.a)));
    OneElement(Leaf(Value(UINT32, d.b)));
    OneElement(Leaf(Value(INT16, d.c)));
    FourParts(Le(d.timestamp, 8), Le(d.a, 8), Le(d.b, 4), Le(d.c, 2));
  }

  lemma Bytes1(d: DataType1)
    ensures EncodeTree(Tree1(d)) == Zeros(8) + Words(d.a, 4) + Words(d.b, 4)
  {
    TwoItems(Items1(d)[0], Items1(d)[1]);
    SeqBytes(FLOAT, d.a, 4);
    SeqBytes(INT32, d.b, 4);
    assert Zeros(8) + (Words(d.a, 4) + Words(d.b, 4)) == Zeros(8) + Words(d.a, 4) + Words(d.b, 4);
  }

  /** The last byte tells the flag: 1 if it is set, else 0. */
  lemma Bytes2(d: DataType2)
    ensures EncodeTree(Tree2(d)) == Zeros(8) + Words(d.a, 8) + Texts(d.b) + [if d.c then 1 else 0]
  {
    Items2Encode(d);
    SeqBytes(DOUBLE, d.a, 8);
    TextBytes(d.b);
    FourParts(Zeros(8), Words(d.a, 8), Texts(d.b), [if d.c then 1 else 0]);
  }

  lemma {:induction false} TreesBytes(ts: seq<Tree>, parts: seq<seq<byte>>)
    requires |ts| == |parts| && forall i :: 0 <= i < |ts| ==> EncodeTree(ts[i]) == parts[i]
    ensures EncodeElements(ts) == Concatenated(parts)
  {
    if ts != [] { TreesBytes(ts[1..], parts[1..]); }
  }

  /** A nested value is its own serialization, its eight bytes of time included. */
  lemma Bytes3(d: DataType3)
    ensures EncodeTree(Tree3(d)) ==
            Zeros(8) + Concatenated(seq(|d.a|, i requires 0 <= i < |d.a| => EncodeTree(Tree0(d.a[i])))) +
            EncodeTree(Tree1(d.b)) + EncodeTree(Tree2(d.c))
  {
    var zeros := seq(|d.a|, i requires 0 <= i < |d.a| => EncodeTree(Tree0(d.a[i])));
    TreesBytes(Trees0(d.a), zeros);
    var items := Items3(d);
    ThreeItems(items[0], items[1], items[2]);
    OneElement(Tree1(d.b));
    OneElement(Tree2(d.c));
    FourParts(Zeros(8), Concatenated(zeros), EncodeTree(Tree1(d.b)), EncodeTree(Tree2(d.c)));
  }

  lemma Bytes4(d: DataType4)
    ensures EncodeTree(Tree4(d)) ==
            Zeros(8) + Concatenated(seq(|d|, i requires 0 <= i < |d| => EncodeTree(Tree3(d[i]))))
  {
    TreesBytes(Trees3(d), seq(|d|, i requires 0 <= i < |d| => EncodeTree(Tree3(d[i]))));
    OneItem(Items4(d)[0]);
  }
}
