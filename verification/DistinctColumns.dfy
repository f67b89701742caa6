/** The column names of a time series are pairwise distinct. */
module DistinctColumns {
  import opened Text
  import opened FormatText
  import opened Layout

  predicate Plain(a: string) {
    '/' !in a && '.' !in a
  }

  /** Field names that carry columns are distinct and contain no separator. */
  predicate PlainFields(fields: seq<Field>) {
    && (forall i :: 0 <= i < |fields| && !IsPadding(fields[i]) ==> Plain(fields[i].name))
    && (forall i, j :: 0 <= i < j < |fields| && !IsPadding(fields[i]) && !IsPadding(fields[j]) ==>
          fields[i].name != fields[j].name)
  }

  predicate PlainFormats(fm: Formats) {
    forall n :: n in fm ==> PlainFields(fm[n].fields)
  }

  /** `x` is the path `u` or goes on from it with a separator. */
  predicate Under(u: string, x: string) {
    |u| <= |x| && x[..|u|] == u && (|x| == |u| || x[|u|] == '/' || x[|u|] == '.')
  }

  predicate Distinct(names: seq<string>) {
    forall i, j :: 0 <= i < j < |names| ==> names[i] != names[j]
  }

  /** Two plain segments after the same path cannot lead to the same name. */
  lemma SameSegment(u: string, a: string, b: string, x: string)
    requires Plain(a) && Plain(b) && Under(u + a, x) && Under(u + b, x)
    ensures a == b
  {
    if |a| <= |b| { Segment(u, a, b, x); } else { Segment(u, b, a, x); }
  }

  lemma Segment(u: string, a: string, b: string, x: string)
    requires Plain(b) && Under(u + a, x) && Under(u + b, x) && |a| <= |b|
    ensures a == b
  {
    if |a| == |b| {
      assert a == (u + a)[|u|..] && b == (u + b)[|u|..];
    }
  }

  lemma UnderPrefix(u: string, v: string, x: string)
    requires Under(u + v, x) && v != "" && (v[0] == '/' || v[0] == '.')
    ensures Under(u, x)
  {
    assert x[..|u|] == x[..|u + v|][..|u|] == u;
    assert x[|u|] == x[..|u + v|][|u|] == v[0];
  }

  lemma DigitsArePlain(i: nat)
    ensures Plain(Dec2(i))
  {
    var s := Dec2(i);
    assert forall k :: 0 <= k < |s| ==> IsDigit(s[k]);
  }

  /** Some field from `fields` owns `x`. */
  ghost predicate Owned(fields: seq<Field>, prefix: string, x: string) {
    exists k :: 0 <= k < |fields| && !IsPadding(fields[k]) && Under(prefix + "/" + fields[k].name, x)
  }

  lemma OwnedHead(fields: seq<Field>, prefix: string, x: string)
    requires fields != [] && !IsPadding(fields[0]) && Under(prefix + "/" + fields[0].name, x)
    ensures Owned(fields, prefix, x)
  {
  }

  lemma OwnedTail(fields: seq<Field>, prefix: string, x: string)
    requires fields != [] && Owned(fields[1..], prefix, x)
    ensures Owned(fields, prefix, x)
  {
    var k :| 0 <= k < |fields[1..]| && !IsPadding(fields[1..][k]) && Under(prefix + "/" + fields[1..][k].name, x);
    assert fields[k + 1] == fields[1..][k];
  }

  lemma {:induction false} NamesOwned(fm: Formats, open: set<string>, fields: seq<Field>, prefix: string, x: string)
    requires ColumnNames(fm, open, fields, prefix).Ok? && x in ColumnNames(fm, open, fields, prefix).value
    ensures Owned(fields, prefix, x) && Under(prefix, x)
    decreases open, 2, |fields|
  {
    var base := prefix + "/" + fields[0].name;
    if !IsPadding(fields[0]) && x in ArrayNames(fm, open, fields[0], 0, base).value {
      ArrayNamesUnder(fm, open, fields[0], 0, base, x);
      OwnedHead(fields, prefix, x);
      assert base == prefix + ("/" + fields[0].name);
      UnderPrefix(prefix, "/" + fields[0].name, x);
    } else {
      NamesOwned(fm, open, fields[1..], prefix, x);
      OwnedTail(fields, prefix, x);
    }
  }

  /** A name from the elements `i..` of an array lies under the suffix of one of them. */
  ghost predicate Indexed(f: Field, i: nat, base: string, x: string) {
    exists k :: i <= k < f.arraySize && Under(base + "." + Dec2(k), x)
  }

  lemma ElementUnder(f: Field, i: nat, base: string, x: string)
    requires Under(base + ArraySuffix(f, i), x)
    ensures Under(base, x) && (f.arraySize > 1 ==> Under(base + "." + Dec2(i), x))
  {
    var digits := Dec2(i);
    if f.arraySize > 1 {
      assert base + ("." + digits) == base + "." + digits;
      UnderPrefix(base, "." + digits, x);
    } else {
      assert base + "" == base;
    }
  }

  lemma {:induction false} ArrayNamesUnder(fm: Formats, open: set<string>, f: Field, i: nat, base: string, x: string)
    requires ArrayNames(fm, open, f, i, base).Ok? && x in ArrayNames(fm, open, f, i, base).value
    ensures Under(base, x) && (f.arraySize > 1 ==> Indexed(f, i, base, x))
    decreases open, 1, f.arraySize - i
  {
    var name := base + ArraySuffix(f, i);
    ArrayNamesParts(fm, open, f, i, base, x);
    if x in ElementNames(fm, open, f, name).value {
      ElementNamesUnder(fm, open, f, name, x);
      ElementUnder(f, i, base, x);
      assert f.arraySize > 1 ==> Indexed(f, i, base, x);
    } else {
      ArrayNamesUnder(fm, open, f, i + 1, base, x);
      if f.arraySize > 1 { IndexedBefore(f, i, base, x); }
    }
  }

  lemma IndexedBefore(f: Field, i: nat, base: string, x: string)
    requires Indexed(f, i + 1, base, x)
    ensures Indexed(f, i, base, x)
  {
  }

  /** A name of an array is one of its first element or of the others. */
  lemma ArrayNamesParts(fm: Formats, open: set<string>, f: Field, i: nat, base: string, x: string)
    requires ArrayNames(fm, open, f, i, base).Ok? && x in ArrayNames(fm, open, f, i, base).value
    ensures i < f.arraySize && ElementNames(fm, open, f, base + ArraySuffix(f, i)).Ok?
    ensures ArrayNames(fm, open, f, i + 1, base).Ok?
    ensures || x in ElementNames(fm, open, f, base + ArraySuffix(f, i)).value
            || x in ArrayNames(fm, open, f, i + 1, base).value
  {
  }

  lemma {:induction false} ElementNamesUnder(fm: Formats, open: set<string>, f: Field, name: string, x: string)
    requires ElementNames(fm, open, f, name).Ok? && x in ElementNames(fm, open, f, name).value
    ensures Under(name, x)
    decreases open, 0
  {
    if f.type_ == OTHER { NamesOwned(fm, open - {f.other}, fm[f.other].fields, name, x); }
  }

  lemma DistinctAppend(a: seq<string>, b: seq<string>)
    requires Distinct(a) && Distinct(b) && forall x :: x in a ==> x !in b
    ensures Distinct(a + b)
  {
    forall i, j | 0 <= i < j < |a + b| ensures (a + b)[i] != (a + b)[j] {
      if i < |a| <= j { assert a[i] in a; }
    }
  }

  lemma TailPlain(fields: seq<Field>)
    requires PlainFields(fields) && fields != []
    ensures PlainFields(fields[1..])
  {
    assert forall i :: 0 <= i < |fields| - 1 ==> fields[1..][i] == fields[i + 1];
  }

  /** For every format map whose field names are plain and distinct within a format, all column names differ. */
  lemma {:induction false} ColumnNamesDistinct(fm: Formats, open: set<string>, fields: seq<Field>, prefix: string)
    requires PlainFormats(fm) && PlainFields(fields)
    requires ColumnNames(fm, open, fields, prefix).Ok?
    ensures Distinct(ColumnNames(fm, open, fields, prefix).value)
    decreases open, 2, |fields|
  {
    if fields != [] {
      TailPlain(fields);
      ColumnNamesDistinct(fm, open, fields[1..], prefix);
      if !IsPadding(fields[0]) {
        var base := prefix + "/" + fields[0].name;
        var first := ArrayNames(fm, open, fields[0], 0, base).value;
        var rest := ColumnNames(fm, open, fields[1..], prefix).value;
        ArrayNamesDistinct(fm, open, fields[0], 0, base);
        forall x | x in first ensures x !in rest {
          if x in rest {
            ArrayNamesUnder(fm, open, fields[0], 0, base, x);
            NamesOwned(fm, open, fields[1..], prefix, x);
            HeadNotOwned(fields, prefix, x);
          }
        }
        DistinctAppend(first, rest);
      } else {
        var rest := ColumnNames(fm, open, fields[1..], prefix).value;
        assert [] + rest == rest;
      }
    }
  }

  lemma HeadNotOwned(fields: seq<Field>, prefix: string, x: string)
    requires fields != [] && PlainFields(fields) && !IsPadding(fields[0])
    requires Under(prefix + "/" + fields[0].name, x)
    ensures !Owned(fields[1..], prefix, x)
  {
    if Owned(fields[1..], prefix, x) {
      var k :| 0 <= k < |fields[1..]| && !IsPadding(fields[1..][k]) && Under(prefix + "/" + fields[1..][k].name, x);
      SameSegment(prefix + "/", fields[0].name, fields[k + 1].name, x);
    }
  }

  lemma IndexNotIndexed(f: Field, i: nat, base: string, x: string)
    requires Under(base + "." + Dec2(i), x)
    ensures !Indexed(f, i + 1, base, x)
  {
    if Indexed(f, i + 1, base, x) {
      var k :| i + 1 <= k < f.arraySize && Under(base + "." + Dec2(k), x);
      DigitsArePlain(i);
      DigitsArePlain(k);
      SameSegment(base + ".", Dec2(i), Dec2(k), x);
      Dec2Injective(i, k);
    }
  }

  lemma {:induction false} ArrayNamesDistinct(fm: Formats, open: set<string>, f: Field, i: nat, base: string)
    requires PlainFormats(fm) && ArrayNames(fm, open, f, i, base).Ok?
    ensures Distinct(ArrayNames(fm, open, f, i, base).value)
    decreases open, 1, f.arraySize - i
  {
    if i < f.arraySize {
      var name := base + ArraySuffix(f, i);
      var first, rest := ElementNames(fm, open, f, name).value, ArrayNames(fm, open, f, i + 1, base).value;
      ElementNamesDistinct(fm, open, f, name);
      ArrayNamesDistinct(fm, open, f, i + 1, base);
      forall x | x in first ensures x !in rest {
        if x in rest {
          ElementNamesUnder(fm, open, f, name, x);
          ArrayNamesUnder(fm, open, f, i + 1, base, x);
          ElementUnder(f, i, base, x);
          IndexNotIndexed(f, i, base, x);
        }
      }
      DistinctAppend(first, rest);
    }
  }

  lemma {:induction false} ElementNamesDistinct(fm: Formats, open: set<string>, f: Field, name: string)
    requires PlainFormats(fm) && ElementNames(fm, open, f, name).Ok?
    ensures Distinct(ElementNames(fm, open, f, name).value)
    decreases open, 0
  {
    if f.type_ == OTHER { ColumnNamesDistinct(fm, open - {f.other}, fm[f.other].fields, name); }
  }
}
