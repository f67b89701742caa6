/** Sample values and the nested encoding the serializers use: every nested value is preceded by an
    eight-byte timestamp, arrays are written element by element, padding is raw bytes. */
module Samples {
  import opened Bytes
  import opened Outcomes
  import Text
  import opened FormatText
  import opened Layout
  import LayoutTheorems

  /** One value: a leaf, or a nested value with its timestamp. */
  datatype Tree = Leaf(value: Value) | Nested(stamp: seq<byte>, items: seq<Item>)

  /** What is stored for one field. */
  datatype Item = Pad(bytes: seq<byte>) | Elements(elements: seq<Tree>)

  // ---- samples of a format ----

  predicate ItemsFit(fm: Formats, fields: seq<Field>, items: seq<Item>)
    decreases items
  {
    |items| == |fields| &&
    (items != [] ==> ItemFits(fm, fields[0], items[0]) && ItemsFit(fm, fields[1..], items[1..]))
  }

  predicate ItemFits(fm: Formats, f: Field, item: Item)
    decreases item
  {
    if IsPadding(f) then item.Pad? && |item.bytes| == f.arraySize
    else
      && item.Elements? && |item.elements| == (if f.arraySize > 0 then f.arraySize else 0)
      && ElementsFit(fm, f, item.elements)
  }

  predicate ElementsFit(fm: Formats, f: Field, elements: seq<Tree>)
    decreases elements
  {
    elements != [] ==> ElementFits(fm, f, elements[0]) && ElementsFit(fm, f, elements[1..])
  }

  predicate ElementFits(fm: Formats, f: Field, t: Tree)
    decreases t
  {
    if f.type_ == OTHER then
      t.Nested? && |t.stamp| == 8 && f.other in fm && ItemsFit(fm, fm[f.other].fields, t.items)
    else t.Leaf? && t.value.type_ == f.type_ && t.value.bits < Pow256(Width(f.type_))
  }

  // ---- the encoding, and the leaves in order ----

  function Encode(items: seq<Item>): seq<byte>
    decreases items
  {
    if items == [] then [] else EncodeItem(items[0]) + Encode(items[1..])
  }

  function EncodeItem(item: Item): seq<byte>
    decreases item
  {
    match item
    case Pad(bytes) => bytes
    case Elements(elements) => EncodeElements(elements)
  }

  function EncodeElements(elements: seq<Tree>): seq<byte>
    decreases elements
  {
    if elements == [] then [] else EncodeTree(elements[0]) + EncodeElements(elements[1..])
  }

  function EncodeTree(t: Tree): seq<byte>
    decreases t
  {
    match t
    case Leaf(value) => Le(value.bits, Width(value.type_))
    case Nested(stamp, items) => stamp + Encode(items)
  }

  function Leaves(items: seq<Item>): seq<Value>
    decreases items
  {
    if items == [] then [] else ItemLeaves(items[0]) + Leaves(items[1..])
  }

  function ItemLeaves(item: Item): seq<Value>
    decreases item
  {
    match item
    case Pad(_) => []
    case Elements(elements) => ElementLeaves(elements)
  }

  function ElementLeaves(elements: seq<Tree>): seq<Value>
    decreases elements
  {
    if elements == [] then [] else TreeLeaves(elements[0]) + ElementLeaves(elements[1..])
  }

  function TreeLeaves(t: Tree): seq<Value>
    decreases t
  {
    match t
    case Leaf(value) => [value]
    case Nested(_, items) => Leaves(items)
  }

  // ---- reading back ----

  /** `bytes` lie in `message` at `pos`. */
  predicate At(message: seq<byte>, pos: nat, bytes: seq<byte>) {
    pos + |bytes| <= |message| && message[pos..pos + |bytes|] == bytes
  }

  lemma AtParts(message: seq<byte>, pos: nat, a: seq<byte>, b: seq<byte>)
    requires At(message, pos, a + b)
    ensures At(message, pos, a) && At(message, pos + |a|, b)
  {
    assert message[pos..pos + |a|] == (a + b)[..|a|];
    assert message[pos + |a|..pos + |a| + |b|] == (a + b)[|a|..];
  }

  lemma {:induction false} SlotValuesAppend(a: seq<Slot>, b: seq<Slot>, message: seq<byte>, pos: int,
                                            first: seq<Value>, second: seq<Value>)
    requires LayoutTheorems.SlotValues(a, message, pos) == Ok(first)
    requires LayoutTheorems.SlotValues(b, message, pos + Size(a)) == Ok(second)
    ensures LayoutTheorems.SlotValues(a + b, message, pos) == Ok(first + second)
    ensures Size(a + b) == Size(a) + Size(b)
  {
    ReadsAppend(a, b);
    if a == [] {
      assert a + b == b && first + second == second;
    } else {
      assert (a + b)[1..] == a[1..] + b;
      var tail := LayoutTheorems.SlotValues(a[1..], message, pos + SlotSize(a[0])).value;
      SlotValuesAppend(a[1..], b, message, pos + SlotSize(a[0]), tail, second);
      if a[0].Read? {
        Text.Reassociate([first[0]], tail, second);
        assert first == [first[0]] + tail;
      }
    }
  }

  predicate Reading(slots: seq<Slot>, message: seq<byte>, pos: nat, bytes: seq<byte>, values: seq<Value>) {
    Size(slots) == |bytes| && LayoutTheorems.SlotValues(slots, message, pos) == Ok(values)
  }

  lemma ReadingAppend(a: seq<Slot>, b: seq<Slot>, message: seq<byte>, pos: nat, first: seq<byte>, second: seq<byte>,
                      v: seq<Value>, w: seq<Value>)
    requires Reading(a, message, pos, first, v) && Reading(b, message, pos + |first|, second, w)
    ensures Reading(a + b, message, pos, first + second, v + w)
  {
    SlotValuesAppend(a, b, message, pos, v, w);
  }

  /** The slots of a format read exactly the leaves of any encoded sample of that format. */
  lemma {:induction false} ItemsRead(fm: Formats, open: set<string>, fields: seq<Field>, items: seq<Item>,
                                     message: seq<byte>, pos: nat)
    requires Flatten(fm, open, fields).Ok? && ItemsFit(fm, fields, items) && At(message, pos, Encode(items))
    ensures Reading(Flatten(fm, open, fields).value, message, pos, Encode(items), Leaves(items))
    decreases items
  {
    if items != [] {
      var first, rest := EncodeItem(items[0]), Encode(items[1..]);
      AtParts(message, pos, first, rest);
      ItemRead(fm, open, fields[0], items[0], message, pos);
      ItemsRead(fm, open, fields[1..], items[1..], message, pos + |first|);
      ReadingAppend(FlattenField(fm, open, fields[0]).value, Flatten(fm, open, fields[1..]).value, message, pos,
                    first, rest, ItemLeaves(items[0]), Leaves(items[1..]));
    }
  }

  lemma {:induction false} ItemRead(fm: Formats, open: set<string>, f: Field, item: Item, message: seq<byte>, pos: nat)
    requires FlattenField(fm, open, f).Ok? && ItemFits(fm, f, item) && At(message, pos, EncodeItem(item))
    ensures Reading(FlattenField(fm, open, f).value, message, pos, EncodeItem(item), ItemLeaves(item))
    decreases item
  {
    if item.Elements? {
      ElementsRead(fm, open, f, 0, item.elements, message, pos);
    } else {
      assert Size([Skip(f.arraySize)][1..]) == 0;
    }
  }

  lemma {:induction false} ElementsRead(fm: Formats, open: set<string>, f: Field, i: nat, elements: seq<Tree>,
                                        message: seq<byte>, pos: nat)
    requires |elements| == if f.arraySize > i then f.arraySize - i else 0
    requires FlattenArray(fm, open, f, i).Ok? && ElementsFit(fm, f, elements)
    requires At(message, pos, EncodeElements(elements))
    ensures Reading(FlattenArray(fm, open, f, i).value, message, pos, EncodeElements(elements), ElementLeaves(elements))
    decreases elements
  {
    if elements != [] {
      var first, rest := EncodeTree(elements[0]), EncodeElements(elements[1..]);
      AtParts(message, pos, first, rest);
      ElementRead(fm, open, f, elements[0], message, pos);
      ElementsRead(fm, open, f, i + 1, elements[1..], message, pos + |first|);
      ReadingAppend(FlattenElement(fm, open, f).value, FlattenArray(fm, open, f, i + 1).value, message, pos,
                    first, rest, TreeLeaves(elements[0]), ElementLeaves(elements[1..]));
    }
  }

  lemma {:induction false} ElementRead(fm: Formats, open: set<string>, f: Field, t: Tree, message: seq<byte>, pos: nat)
    requires FlattenElement(fm, open, f).Ok? && ElementFits(fm, f, t) && At(message, pos, EncodeTree(t))
    ensures Reading(FlattenElement(fm, open, f).value, message, pos, EncodeTree(t), TreeLeaves(t))
    decreases t
  {
    if f.type_ == OTHER {
      var nested := Flatten(fm, open - {f.other}, fm[f.other].fields).value;
      AtParts(message, pos, t.stamp, Encode(t.items));
      ItemsRead(fm, open - {f.other}, fm[f.other].fields, t.items, message, pos + 8);
      StampRead(message, pos, t.stamp);
      ReadingAppend([Skip(8)], nested, message, pos, t.stamp, Encode(t.items), [], Leaves(t.items));
      assert [] + Leaves(t.items) == Leaves(t.items);
    } else {
      LeafRead(t.value, message, pos);
    }
  }

  lemma StampRead(message: seq<byte>, pos: nat, stamp: seq<byte>)
    requires |stamp| == 8
    ensures Reading([Skip(8)], message, pos, stamp, [])
  {
    assert Size([Skip(8)][1..]) == 0;
  }

  lemma LeafRead(value: Value, message: seq<byte>, pos: nat)
    requires value.bits < Pow256(Width(value.type_)) && At(message, pos, Le(value.bits, Width(value.type_)))
    ensures Reading([Read(value.type_)], message, pos, Le(value.bits, Width(value.type_)), [value])
  {
    LeRoundTrip(value.bits, Width(value.type_));
    var slots := [Read(value.type_)];
    var n := Width(value.type_);
    assert slots[1..] == [];
    assert Size(slots[1..]) == 0 && LayoutTheorems.SlotValues(slots[1..], message, pos + n) == Ok([]);
    assert Value(value.type_, FromLe(message[pos..pos + n])) == value;
    assert [value] + [] == [value];
  }
}
