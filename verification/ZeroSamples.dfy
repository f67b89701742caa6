/** Every acyclic format has a sample: the one in which every leaf is zero. */
module ZeroSamples {
  import opened Bytes
  import opened FormatText
  import opened Layout
  import opened LayoutTheorems
  import opened Samples
  import TypeCollisions
  import EndToEnd

  function ZeroItems(fm: Formats, rank: map<string, nat>, fields: seq<Field>, bound: nat): seq<Item>
    requires Ranked(fm, rank) && FieldsRanked(fm, rank, fields, bound)
    decreases bound, 3, |fields|
  {
    if fields == [] then []
    else [ZeroItem(fm, rank, fields[0], bound)] + ZeroItems(fm, rank, fields[1..], bound)
  }

  function ZeroItem(fm: Formats, rank: map<string, nat>, f: Field, bound: nat): Item
    requires Ranked(fm, rank) && FieldRanked(fm, rank, f, bound)
    decreases bound, 2
  {
    if IsPadding(f) then Pad(Zeros(f.arraySize))
    else Elements(ZeroElements(fm, rank, f, bound, if f.arraySize > 0 then f.arraySize else 0))
  }

  function ZeroElements(fm: Formats, rank: map<string, nat>, f: Field, bound: nat, n: nat): (r: seq<Tree>)
    requires Ranked(fm, rank) && FieldRanked(fm, rank, f, bound) && !IsPadding(f)
    ensures |r| == n
    decreases bound, 1, n
  {
    if n == 0 then [] else [ZeroTree(fm, rank, f, bound)] + ZeroElements(fm, rank, f, bound, n - 1)
  }

  function ZeroTree(fm: Formats, rank: map<string, nat>, f: Field, bound: nat): Tree
    requires Ranked(fm, rank) && FieldRanked(fm, rank, f, bound) && !IsPadding(f)
    decreases bound, 0
  {
    if f.type_ == OTHER then Nested(Zeros(8), ZeroItems(fm, rank, fm[f.other].fields, rank[f.other]))
    else Leaf(Value(f.type_, 0))
  }

  predicate AllZero(bytes: seq<byte>) {
    forall i :: 0 <= i < |bytes| ==> bytes[i] == 0
  }

  lemma {:induction false} ZerosLe(width: nat)
    ensures AllZero(Le(0, width))
  {
    if width > 0 { ZerosLe(width - 1); }
  }

  lemma {:induction false} ItemsZero(fm: Formats, rank: map<string, nat>, fields: seq<Field>, bound: nat)
    requires Ranked(fm, rank) && FieldsRanked(fm, rank, fields, bound)
    ensures var items := ZeroItems(fm, rank, fields, bound); ItemsFit(fm, fields, items) && AllZero(Encode(items))
    decreases bound, 3, |fields|
  {
    if fields != [] {
      ItemZero(fm, rank, fields[0], bound);
      ItemsZero(fm, rank, fields[1..], bound);
      assert ZeroItems(fm, rank, fields, bound)[1..] == ZeroItems(fm, rank, fields[1..], bound);
    }
  }

  lemma {:induction false} ItemZero(fm: Formats, rank: map<string, nat>, f: Field, bound: nat)
    requires Ranked(fm, rank) && FieldRanked(fm, rank, f, bound)
    ensures var item := ZeroItem(fm, rank, f, bound); ItemFits(fm, f, item) && AllZero(EncodeItem(item))
    decreases bound, 2
  {
    if !IsPadding(f) { ElementsZero(fm, rank, f, bound, if f.arraySize > 0 then f.arraySize else 0); }
  }

  lemma {:induction false} ElementsZero(fm: Formats, rank: map<string, nat>, f: Field, bound: nat, n: nat)
    requires Ranked(fm, rank) && FieldRanked(fm, rank, f, bound) && !IsPadding(f)
    ensures var ts := ZeroElements(fm, rank, f, bound, n); ElementsFit(fm, f, ts) && AllZero(EncodeElements(ts))
    decreases bound, 1, n
  {
    if n > 0 {
      TreeZero(fm, rank, f, bound);
      ElementsZero(fm, rank, f, bound, n - 1);
      assert ZeroElements(fm, rank, f, bound, n)[1..] == ZeroElements(fm, rank, f, bound, n - 1);
    }
  }

  lemma {:induction false} TreeZero(fm: Formats, rank: map<string, nat>, f: Field, bound: nat)
    requires Ranked(fm, rank) && FieldRanked(fm, rank, f, bound) && !IsPadding(f)
    ensures var t := ZeroTree(fm, rank, f, bound); ElementFits(fm, f, t) && AllZero(EncodeTree(t))
    decreases bound, 0
  {
    if f.type_ == OTHER {
      ItemsZero(fm, rank, fm[f.other].fields, rank[f.other]);
    } else {
      ZerosLe(Width(f.type_));
    }
  }

  /** The zero sample serializes the zero values. */
  lemma ZeroSerializes(fm: Formats, rank: map<string, nat>, n: string)
    requires Ranked(fm, rank) && n in fm
    ensures Flatten(fm, fm.Keys, fm[n].fields).Ok?
    ensures EndToEnd.Serializes(fm, n, TypeCollisions.ZeroData(fm, n), ZeroItems(fm, rank, fm[n].fields, rank[n]))
  {
    var items := ZeroItems(fm, rank, fm[n].fields, rank[n]);
    var message := Zeros(10) + Encode(items);
    assert message[10..] == Encode(items);
    ItemsZero(fm, rank, fm[n].fields, rank[n]);
    EndToEnd.LeavesRead(fm, rank, n, items, message);
    assert TypeCollisions.ZeroData(fm, n)[8..] == Encode(items);
  }
}
