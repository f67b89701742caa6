/** The serializers of the test types: they fill and grow a byte vector with a running length. What they build is
    the nested encoding that the parser's data walk expects. */
module Serializers {
  import opened Bytes
  import Text
  import opened FormatText
  import opened Layout
  import opened Samples
  import opened Memory

  // Leaves are their bits: a double's eight bytes, a float's four, and so on.
  datatype DataType0 = DataType0(timestamp: nat, a: nat, b: nat, c: nat)
  datatype DataType1 = DataType1(a: seq<nat>, b: seq<nat>)
  datatype DataType2 = DataType2(a: seq<nat>, b: seq<string>, c: bool)
  datatype DataType3 = DataType3(a: seq<DataType0>, b: DataType1, c: DataType2)
  type DataType4 = seq<DataType3>

  // ---- the values as samples ----

  function LeafSeq(t: FieldType, values: seq<nat>): (r: seq<Tree>)
    ensures |r| == |values|
  {
    seq(|values|, i requires 0 <= i < |values| => Leaf(Value(t, values[i])))
  }

  function Codes(s: string): (r: seq<nat>)
    ensures |r| == |s|
  {
    seq(|s|, i requires 0 <= i < |s| => s[i] as int)
  }

  function Bit(b: bool): nat { if b then 1 else 0 }

  function Items0(d: DataType0): seq<Item> {
    [Elements([Leaf(Value(DOUBLE, d.a))]), Elements([Leaf(Value(UINT32, d.b))]), Elements([Leaf(Value(INT16, d.c))])]
  }

  function Tree0(d: DataType0): Tree { Nested(Le(d.timestamp, 8), Items0(d)) }

  function Items1(d: DataType1): seq<Item> {
    [Elements(LeafSeq(FLOAT, d.a)), Elements(LeafSeq(INT32, d.b))]
  }

  function Tree1(d: DataType1): Tree { Nested(Zeros(8), Items1(d)) }

  function TextItems(texts: seq<string>): (r: seq<Item>)
    ensures |r| == |texts|
  {
    seq(|texts|, i requires 0 <= i < |texts| => Elements(LeafSeq(CHAR, Codes(texts[i]))))
  }

  function Items2(d: DataType2): seq<Item> {
    [Elements(LeafSeq(DOUBLE, d.a))] + TextItems(d.b) + [Elements([Leaf(Value(BOOL, Bit(d.c)))])]
  }

  function Tree2(d: DataType2): Tree { Nested(Zeros(8), Items2(d)) }

  function Trees0(ds: seq<DataType0>): (r: seq<Tree>)
    ensures |r| == |ds|
  {
    seq(|ds|, i requires 0 <= i < |ds| => Tree0(ds[i]))
  }

  function Items3(d: DataType3): seq<Item> {
    [Elements(Trees0(d.a)), Elements([Tree1(d.b)]), Elements([Tree2(d.c)])]
  }

  function Tree3(d: DataType3): Tree { Nested(Zeros(8), Items3(d)) }

  function Trees3(ds: seq<DataType3>): (r: seq<Tree>)
    ensures |r| == |ds|
  {
    seq(|ds|, i requires 0 <= i < |ds| => Tree3(ds[i]))
  }

  function Items4(d: DataType4): seq<Item> { [Elements(Trees3(d))] }

  function Tree4(d: DataType4): Tree { Nested(Zeros(8), Items4(d)) }

  // ---- encodings of concatenations ----

  lemma {:induction false} ElementsAppend(a: seq<Tree>, b: seq<Tree>)
    ensures EncodeElements(a + b) == EncodeElements(a) + EncodeElements(b)
  {
    if a == [] {
      assert a + b == b;
    } else {
      assert (a + b)[1..] == a[1..] + b;
      ElementsAppend(a[1..], b);
    }
  }

  lemma OneElement(t: Tree)
    ensures EncodeElements([t]) == EncodeTree(t)
  {
    assert EncodeElements([t][1..]) == [];
  }

  lemma ElementsNext(ts: seq<Tree>, i: nat)
    requires i < |ts|
    ensures EncodeElements(ts[..i + 1]) == EncodeElements(ts[..i]) + EncodeTree(ts[i])
  {
    assert ts[..i + 1] == ts[..i] + [ts[i]];
    ElementsAppend(ts[..i], [ts[i]]);
    OneElement(ts[i]);
  }

  lemma {:induction false} ItemsAppend(a: seq<Item>, b: seq<Item>)
    ensures Encode(a + b) == Encode(a) + Encode(b)
  {
    if a == [] {
      assert a + b == b;
    } else {
      assert (a + b)[1..] == a[1..] + b;
      ItemsAppend(a[1..], b);
    }
  }

  lemma OneItem(item: Item)
    ensures Encode([item]) == EncodeItem(item)
  {
    assert Encode([item][1..]) == [];
  }

  lemma TwoItems(a: Item, b: Item)
    ensures Encode([a, b]) == EncodeItem(a) + EncodeItem(b)
  {
    assert [a, b] == [a] + [b];
    ItemsAppend([a], [b]);
    OneItem(a);
    OneItem(b);
  }

  lemma ThreeItems(a: Item, b: Item, c: Item)
    ensures Encode([a, b, c]) == EncodeItem(a) + EncodeItem(b) + EncodeItem(c)
  {
    assert [a, b, c] == [a, b] + [c];
    ItemsAppend([a, b], [c]);
    TwoItems(a, b);
    OneItem(c);
  }

  /** Characters are written as they are. */
  lemma {:induction false} TextElements(s: string)
    ensures EncodeElements(LeafSeq(CHAR, Codes(s))) == ToBytes(s)
  {
    var ts := LeafSeq(CHAR, Codes(s));
    if s != "" {
      TextElements(s[1..]);
      assert ts[1..] == LeafSeq(CHAR, Codes(s[1..]));
      assert Le(s[0] as int, 1) == [s[0] as int % 256];
      assert ToBytes(s) == [s[0] as int % 256] + ToBytes(s[1..]);
    }
  }

  // ---- the serializers ----

  lemma {:induction false} LeavesLength(t: FieldType, values: seq<nat>)
    ensures |EncodeElements(LeafSeq(t, values))| == Width(t) * |values|
  {
    if values != [] {
      LeavesLength(t, values[1..]);
      assert LeafSeq(t, values)[1..] == LeafSeq(t, values[1..]);
      WidthTimes(Width(t), |values| - 1, |values|);
    }
  }

  lemma WidthTimes(w: nat, i: nat, n: nat)
    requires i < n
    ensures w * (i + 1) == w * i + w && w * (i + 1) <= w * n
  {
    assert w * n == w * (i + 1) + w * (n - i - 1);
  }

  /** The memory of an array of numbers of one type. */
  function Numbers(t: FieldType, values: seq<nat>): (r: seq<byte>)
    ensures |r| == Width(t) * |values|
  {
    LeavesLength(t, values);
    EncodeElements(LeafSeq(t, values))
  }

  lemma NumbersNext(t: FieldType, values: seq<nat>, i: nat)
    requires i < |values|
    ensures Numbers(t, values[..i + 1]) == Numbers(t, values[..i]) + Le(values[i], Width(t))
  {
    ElementsNext(LeafSeq(t, values), i);
    assert LeafSeq(t, values)[..i + 1] == LeafSeq(t, values[..i + 1]);
    assert LeafSeq(t, values)[..i] == LeafSeq(t, values[..i]);
  }

  lemma CopiedNext(dst: seq<byte>, at: nat, t: FieldType, values: seq<nat>, i: nat, len: nat)
    requires i < |values| && len == at + Width(t) * i && len + Width(t) <= |dst|
    ensures |Numbers(t, values[..i])| == len - at
    ensures Written(Written(dst, at, Numbers(t, values[..i])), len, Le(values[i], Width(t))) ==
            Written(dst, at, Numbers(t, values[..i + 1]))
  {
    NumbersNext(t, values, i);
    WrittenNext(dst, at, Numbers(t, values[..i]), Le(values[i], Width(t)));
  }

  /** `memcpy` of an array of numbers into a vector that has room for it. */
  method CopyNumbers(dst: seq<byte>, at: nat, t: FieldType, values: seq<nat>) returns (r: seq<byte>)
    requires at + Width(t) * |values| <= |dst|
    ensures r == Written(dst, at, Numbers(t, values))
  {
    r := dst;
    var len := at;
    assert Written(dst, at, []) == dst;
    for i := 0 to |values|
      invariant len == at + Width(t) * i && Width(t) * i <= Width(t) * |values|
      invariant r == Written(dst, at, Numbers(t, values[..i]))
    {
      WidthTimes(Width(t), i, |values|);
      CopiedNext(dst, at, t, values, i, len);
      r := Written(r, len, Le(values[i], Width(t)));
      len := len + Width(t);
    }
    assert values[..|values|] == values;
  }

  /** `DataType0::serialize` */
  method Serialize0(d: DataType0) returns (serialized: seq<byte>)
    ensures serialized == EncodeTree(Tree0(d))
  {
    serialized := Zeros(22);
    var len := 0;
    serialized := Written(serialized, 0, Le(d.timestamp, 8));
    len := len + 8;
    serialized := Written(serialized, len, Le(d.a, 8));
    len := len + 8;
    serialized := Written(serialized, len, Le(d.b, 4));
    len := len + 4;
    serialized := Written(serialized, len, Le(d.c, 2));
    assert |serialized| == 2 + len;
    var items := Items0(d);
    ThreeItems(items[0], items[1], items[2]);
    OneElement(Leaf(Value(DOUBLE, d.a)));
    OneElement(Leaf(Value(UINT32, d.b)));
    OneElement(Leaf(Value(INT16, d.c)));
    assert serialized == Le(d.timestamp, 8) + (Le(d.a, 8) + Le(d.b, 4) + Le(d.c, 2));
  }

  /** `DataType1Serializable::serialize` */
  method Serialize1(d: DataType1) returns (serialized: seq<byte>)
    ensures serialized == EncodeTree(Tree1(d))
  {
    serialized := Zeros(8 + 4 * |d.a| + 4 * |d.b|);
    var len := 8;
    serialized := Written(serialized, 0, Le(0, 8));
    serialized := CopyNumbers(serialized, len, FLOAT, d.a);
    len := len + 4 * |d.a|;
    serialized := CopyNumbers(serialized, len, INT32, d.b);
    assert |serialized| == 4 * |d.b| + len;
    TwoItems(Items1(d)[0], Items1(d)[1]);
    ZeroStamp();
    assert serialized == Zeros(8) + (Numbers(FLOAT, d.a) + Numbers(INT32, d.b));
  }

  lemma ZeroStamp()
    ensures Le(0, 8) == Zeros(8)
  {
    assert Le(0, 4) == Zeros(4);
    assert Le(0, 8) == [0, 0, 0, 0] + Le(0, 4);
  }

  lemma TextsNext(texts: seq<string>, i: nat)
    requires i < |texts|
    ensures Encode(TextItems(texts[..i + 1])) == Encode(TextItems(texts[..i])) + ToBytes(texts[i])
  {
    var item := Elements(LeafSeq(CHAR, Codes(texts[i])));
    assert TextItems(texts[..i + 1]) == TextItems(texts[..i]) + [item];
    ItemsAppend(TextItems(texts[..i]), [item]);
    OneItem(item);
    TextElements(texts[i]);
  }

  lemma Items2Encode(d: DataType2)
    ensures Encode(Items2(d)) == Numbers(DOUBLE, d.a) + Encode(TextItems(d.b)) + [Bit(d.c)]
  {
    var first, last := Elements(LeafSeq(DOUBLE, d.a)), Elements([Leaf(Value(BOOL, Bit(d.c)))]);
    ItemsAppend([first] + TextItems(d.b), [last]);
    ItemsAppend([first], TextItems(d.b));
    OneItem(first);
    OneItem(last);
    OneElement(Leaf(Value(BOOL, Bit(d.c))));
    assert Le(Bit(d.c), 1) == [Bit(d.c)];
  }

  /** `DataType2_serialize` */
  method Serialize2(d2: DataType2) returns (serialized: seq<byte>)
    ensures serialized == EncodeTree(Tree2(d2))
    ensures serialized != [] && serialized[|serialized| - 1] == if d2.c then 1 else 0
  {
    var newSize := 8 + 8 * |d2.a|;
    serialized := Zeros(newSize);
    serialized := Written(serialized, 0, Le(0, 8));
    serialized := CopyNumbers(serialized, 8, DOUBLE, d2.a);
    var len := newSize;
    ZeroStamp();
    ghost var front := Zeros(8) + Numbers(DOUBLE, d2.a);
    assert serialized == front;
    assert front + Encode(TextItems(d2.b[..0])) == front;
    for i := 0 to |d2.b|
      invariant serialized == front + Encode(TextItems(d2.b[..i]))
      invariant len == newSize == |serialized|
    {
      var v := d2.b[i];
      newSize := newSize + |v|;
      TextsNext(d2.b, i);
      Appended(serialized, ToBytes(v));
      Text.Reassociate(front, Encode(TextItems(d2.b[..i])), ToBytes(v));
      serialized := Written(serialized + Zeros(|v|), len, ToBytes(v));
      len := len + |v|;
    }
    assert d2.b[..|d2.b|] == d2.b;
    Items2Encode(d2);
    serialized := serialized + [Bit(d2.c)];
    FourParts(Zeros(8), Numbers(DOUBLE, d2.a), Encode(TextItems(d2.b)), [Bit(d2.c)]);
  }

  lemma FourParts(a: seq<byte>, b: seq<byte>, c: seq<byte>, d: seq<byte>)
    ensures a + b + c + d == a + (b + c + d)
  {
  }

  /** Growing a vector and filling the new part. */
  lemma Appended(s: seq<byte>, more: seq<byte>)
    ensures Written(s + Zeros(|more|), |s|, more) == s + more
  {
  }

  /** `DataType3_serialize` */
  method Serialize3(d3: DataType3) returns (serialized: seq<byte>)
    ensures serialized == EncodeTree(Tree3(d3))
  {
    ZeroStamp();
    serialized := Written(Zeros(8), 0, Le(0, 8));
    ghost var trees := Trees0(d3.a);
    assert serialized == Zeros(8) + EncodeElements(trees[..0]);
    for i := 0 to |d3.a|
      invariant serialized == Zeros(8) + EncodeElements(trees[..i])
    {
      var aSerialized := Serialize0(d3.a[i]);
      ElementsNext(trees, i);
      Text.Reassociate(Zeros(8), EncodeElements(trees[..i]), aSerialized);
      serialized := serialized + aSerialized;
    }
    assert trees[..|d3.a|] == trees;
    var bSerialized := Serialize1(d3.b);
    serialized := serialized + bSerialized;
    var cSerialized := Serialize2(d3.c);
    serialized := serialized + cSerialized;
    ThreeItems(Items3(d3)[0], Items3(d3)[1], Items3(d3)[2]);
    OneElement(Tree1(d3.b));
    OneElement(Tree2(d3.c));
    FourParts(Zeros(8), EncodeElements(trees), bSerialized, cSerialized);
  }

  /** `DataType4_serialize` */
  method Serialize4(d4: DataType4) returns (serialized: seq<byte>)
    ensures serialized == EncodeTree(Tree4(d4))
  {
    ZeroStamp();
    serialized := Written(Zeros(8), 0, Le(0, 8));
    ghost var trees := Trees3(d4);
    assert serialized == Zeros(8) + EncodeElements(trees[..0]);
    for i := 0 to |d4|
      invariant serialized == Zeros(8) + EncodeElements(trees[..i])
    {
      var d3Serialized := Serialize3(d4[i]);
      ElementsNext(trees, i);
      Text.Reassociate(Zeros(8), EncodeElements(trees[..i]), d3Serialized);
      serialized := serialized + d3Serialized;
    }
    assert trees[..|d4|] == trees;
    OneItem(Items4(d4)[0]);
  }
}
