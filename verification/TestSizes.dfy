/** How long the values of the test types are when serialized: those of DataType4 are too long for a packet. */
module TestSizes {
  import opened FormatText
  import opened Layout
  import opened Samples
  import opened TestTypes
  import Bytes
  import Events
  import EndToEnd

  // ---- fields of one size ----

  ghost predicate ElementSized(fm: Formats, f: Field, k: nat) {
    forall t :: ElementFits(fm, f, t) ==> |EncodeTree(t)| == k
  }

  ghost predicate FieldSized(fm: Formats, f: Field, k: nat) {
    forall item :: ItemFits(fm, f, item) ==> |EncodeItem(item)| == k
  }

  ghost predicate FieldsSized(fm: Formats, fields: seq<Field>, k: nat) {
    forall items :: ItemsFit(fm, fields, items) ==> |Encode(items)| == k
  }

  lemma OneMore(n: nat, k: nat)
    ensures (n + 1) * k == n * k + k
  {
  }

  lemma {:induction false} ElementsSize(fm: Formats, f: Field, elements: seq<Tree>, k: nat)
    requires ElementsFit(fm, f, elements) && ElementSized(fm, f, k)
    ensures |EncodeElements(elements)| == |elements| * k
  {
    if elements != [] {
      var rest := elements[1..];
      ElementsSize(fm, f, rest, k);
      assert |EncodeElements(elements)| == |EncodeTree(elements[0])| + |EncodeElements(rest)|;
      OneMore(|rest|, k);
    }
  }

  lemma ArraySized(fm: Formats, f: Field, k: nat)
    requires !IsPadding(f) && f.arraySize >= 0 && ElementSized(fm, f, k)
    ensures FieldSized(fm, f, f.arraySize * k)
  {
    forall item | ItemFits(fm, f, item) ensures |EncodeItem(item)| == f.arraySize * k {
      ElementsSize(fm, f, item.elements, k);
    }
  }

  lemma LeafSized(fm: Formats, f: Field, n: nat)
    requires !IsPadding(f) && f.type_ != OTHER && f.arraySize == n
    ensures FieldSized(fm, f, n * Width(f.type_))
  {
    ArraySized(fm, f, Width(f.type_));
  }

  /** A nested value takes eight bytes more than its fields. */
  lemma NestedSized(fm: Formats, f: Field, n: nat, k: nat)
    requires !IsPadding(f) && f.type_ == OTHER && f.arraySize == n && f.other in fm
    requires FieldsSized(fm, fm[f.other].fields, k)
    ensures FieldSized(fm, f, n * (8 + k))
  {
    forall t | ElementFits(fm, f, t) ensures |EncodeTree(t)| == 8 + k {
      assert ItemsFit(fm, fm[f.other].fields, t.items);
    }
    ArraySized(fm, f, 8 + k);
  }

  function Sum(sizes: seq<nat>): nat {
    if sizes == [] then 0 else sizes[0] + Sum(sizes[1..])
  }

  lemma {:induction false} AllSized(fm: Formats, fields: seq<Field>, sizes: seq<nat>)
    requires |sizes| == |fields| && forall i :: 0 <= i < |fields| ==> FieldSized(fm, fields[i], sizes[i])
    ensures FieldsSized(fm, fields, Sum(sizes))
  {
    if fields != [] {
      AllSized(fm, fields[1..], sizes[1..]);
      forall items | ItemsFit(fm, fields, items) ensures |Encode(items)| == Sum(sizes) {
        assert ItemFits(fm, fields[0], items[0]) && ItemsFit(fm, fields[1..], items[1..]);
      }
    }
  }

  // ---- the five types ----

  lemma Sized0(fm: Formats)
    ensures FieldsSized(fm, Events.RegisteredFields(FIELDS0), 14)
  {
    var f := Events.RegisteredFields(FIELDS0);
    LeafSized(fm, f[0], 1);
    LeafSized(fm, f[1], 1);
    LeafSized(fm, f[2], 1);
    AllSized(fm, f, [8, 4, 2]);
  }

  lemma Sized1(fm: Formats)
    ensures FieldsSized(fm, Events.RegisteredFields(FIELDS1), 28)
  {
    var f := Events.RegisteredFields(FIELDS1);
    LeafSized(fm, f[0], 3);
    LeafSized(fm, f[1], 4);
    AllSized(fm, f, [12, 16]);
  }

  lemma Sized2(fm: Formats)
    ensures FieldsSized(fm, Events.RegisteredFields(FIELDS2), 38)
  {
    var f := Events.RegisteredFields(FIELDS2);
    LeafSized(fm, f[0], 3);
    LeafSized(fm, f[1], 3);
    LeafSized(fm, f[2], 4);
    LeafSized(fm, f[3], 5);
    LeafSized(fm, f[4], 1);
    LeafSized(fm, f[5], 1);
    AllSized(fm, f, [24, 3, 4, 5, 1, 1]);
  }

  lemma Sized3(fm: Formats)
    requires HasTypes(fm)
    ensures FieldsSized(fm, Events.RegisteredFields(FIELDS3), 148)
  {
    var f := Events.RegisteredFields(FIELDS3);
    Sized0(fm);
    Sized1(fm);
    Sized2(fm);
    NestedSized(fm, f[0], 3, 14);
    NestedSized(fm, f[1], 1, 28);
    NestedSized(fm, f[2], 1, 38);
    AllSized(fm, f, [66, 36, 46]);
  }

  lemma Sized4(fm: Formats)
    requires HasTypes(fm)
    ensures FieldsSized(fm, Events.RegisteredFields(FIELDS4), 468)
  {
    var f := Events.RegisteredFields(FIELDS4);
    Sized3(fm);
    NestedSized(fm, f[0], 3, 148);
    AllSized(fm, f, [468]);
  }

  /** The bytes of a serialized value of each type. */
  function ValueSize(name: string): nat {
    if name == "DataType0" then 22
    else if name == "DataType1" then 36
    else if name == "DataType2" then 46
    else if name == "DataType3" then 156
    else 476
  }

  /** A serialized value of one of the five types has the size of its type. */
  lemma SerializedValue(fm: Formats, name: string, data: seq<Bytes.byte>, items: seq<Item>)
    requires HasTypes(fm) && name in NAMES && EndToEnd.Serializes(fm, name, data, items)
    ensures |data| == ValueSize(name)
  {
    Sized0(fm);
    Sized1(fm);
    Sized2(fm);
    Sized3(fm);
    Sized4(fm);
    assert ItemsFit(fm, fm[name].fields, items) && |data| == 8 + |Encode(items)|;
  }
}
