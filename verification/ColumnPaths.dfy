/** The names of columns in closed form: a path of field names, with the number of the element behind each array. */
module ColumnPaths {
  import opened Outcomes
  import opened Text
  import opened FormatText
  import opened Layout
  import LayoutWalks

  // ---- numbers ----

  /** What the decimal of a number is: a digit, or the decimal of its tens and a digit. */
  lemma Decimal(n: nat)
    ensures n < 10 ==> Dec(n) == ["0123456789"[n]]
    ensures n >= 10 ==> Dec(n) == Dec(n / 10) + ["0123456789"[n % 10]]
    ensures Dec2(n) == (if n < 10 then "0" else "") + Dec(n)
  {
    assert "" + Dec(n) == Dec(n);
  }

  /** How element `i` of an array is told in its columns: a dot and its number in at least two digits. */
  function Numbered(i: nat): string {
    (if i < 10 then ".0" else ".") + Dec(i)
  }

  lemma NumberedIs(i: nat)
    ensures Numbered(i) == "." + Dec2(i)
  {
  }

  // ---- one field ----

  /** Padding is told by the first eight characters of the name. */
  predicate Pads(name: string) {
    |name| >= 8 && name[..8] == "_padding"
  }

  lemma OnlyField(fm: Formats, open: set<string>, f: Field, prefix: string)
    ensures ColumnNames(fm, open, [f], prefix) ==
      if Pads(f.name) then Ok([]) else ArrayNames(fm, open, f, 0, prefix + "/" + f.name)
  {
    assert ColumnNames(fm, open, [f][1..], prefix) == Ok([]);
    var base := prefix + "/" + f.name;
    var first := if Pads(f.name) then Ok([]) else ArrayNames(fm, open, f, 0, base);
    if first.Ok? { assert first.value + [] == first.value; }
  }

  /** A field of a builtin type that is no array makes exactly one column, named by its path; padding makes none. */
  lemma ScalarColumn(fm: Formats, open: set<string>, f: Field, prefix: string)
    requires f.type_ != OTHER && f.arraySize == 1
    ensures ColumnNames(fm, open, [f], prefix) == Ok(if Pads(f.name) then [] else [prefix + "/" + f.name])
  {
    OnlyField(fm, open, f, prefix);
    var base := prefix + "/" + f.name;
    assert base + "" == base && [base] + [] == [base];
    assert ArrayNames(fm, open, f, 1, base) == Ok([]);
  }

  /** A nested field that is no array has the columns of its format, each under the field's own path. */
  lemma NestedColumns(fm: Formats, open: set<string>, f: Field, prefix: string)
    requires f.type_ == OTHER && f.other in fm && f.other in open && f.arraySize == 1 && !Pads(f.name)
    ensures ColumnNames(fm, open, [f], prefix) ==
            ColumnNames(fm, open - {f.other}, fm[f.other].fields, prefix + "/" + f.name)
  {
    OnlyField(fm, open, f, prefix);
    var base := prefix + "/" + f.name;
    var nested := ColumnNames(fm, open - {f.other}, fm[f.other].fields, base);
    assert base + "" == base;
    assert ArrayNames(fm, open, f, 1, base) == Ok([]);
    if nested.Ok? { assert nested.value + [] == nested.value; }
  }

  /** The columns of the first `n` elements of an array of the type `other`. */
  function Elements(fm: Formats, open: set<string>, other: string, base: string, n: nat): Result<seq<string>>
    requires other in fm && other in open
  {
    if n == 0 then Ok([])
    else
      LayoutWalks.Then(Elements(fm, open, other, base, n - 1),
                       ColumnNames(fm, open - {other}, fm[other].fields, base + Numbered(n - 1)))
  }

  lemma {:induction false} ElementsAfter(fm: Formats, open: set<string>, f: Field, base: string, i: nat)
    requires f.type_ == OTHER && f.other in fm && f.other in open && 1 < f.arraySize <= MAX_INDEX && i <= f.arraySize
    ensures Elements(fm, open, f.other, base, f.arraySize) ==
            LayoutWalks.Then(Elements(fm, open, f.other, base, i), ArrayNames(fm, open, f, i, base))
    decreases f.arraySize - i
  {
    var before := Elements(fm, open, f.other, base, i);
    if i == f.arraySize {
      if before.Ok? { assert before.value + [] == before.value; }
    } else {
      ElementsAfter(fm, open, f, base, i + 1);
      NumberedIs(i);
      var next, rest := ElementNames(fm, open, f, base + Numbered(i)), ArrayNames(fm, open, f, i + 1, base);
      assert ArrayNames(fm, open, f, i, base) == LayoutWalks.Then(next, rest);
      if before.Ok? { LayoutWalks.OntoThen(before.value, next, rest); }
    }
  }

  /** A nested array has the columns of its format once for each element, under the path with the element's number. */
  lemma NestedArrayColumns(fm: Formats, open: set<string>, f: Field, prefix: string)
    requires f.type_ == OTHER && f.other in fm && f.other in open && !Pads(f.name) && 1 < f.arraySize <= 100_000_000
    ensures ColumnNames(fm, open, [f], prefix) == Elements(fm, open, f.other, prefix + "/" + f.name, f.arraySize)
  {
    var base := prefix + "/" + f.name;
    OnlyField(fm, open, f, prefix);
    ElementsAfter(fm, open, f, base, 0);
    LayoutWalks.OntoNothing([], ArrayNames(fm, open, f, 0, base));
  }

  lemma {:induction false} LeavesAfter(fm: Formats, open: set<string>, f: Field, base: string, i: nat)
    requires f.type_ != OTHER && f.arraySize > 1 && i <= f.arraySize
    ensures var r := ArrayNames(fm, open, f, i, base);
      && (r.Ok? <==> f.arraySize <= MAX_INDEX || i == f.arraySize) && (r.Err? ==> r.fault == OutOfBounds)
      && (r.Ok? ==> |r.value| == f.arraySize - i)
      && (r.Ok? ==> forall k :: 0 <= k < |r.value| ==> r.value[k] == base + Numbered(i + k))
    decreases f.arraySize - i
  {
    if i < f.arraySize {
      LeavesAfter(fm, open, f, base, i + 1);
      NumberedIs(i);
    }
  }

  /** An array of a builtin type has a column for each element, named by the field's path and the element's number;
      one of more than 100,000,000 elements writes its numbers out of their buffer. */
  lemma ArrayColumns(fm: Formats, open: set<string>, f: Field, prefix: string)
    requires f.type_ != OTHER && f.arraySize > 1 && !Pads(f.name)
    ensures var r := ColumnNames(fm, open, [f], prefix);
      && (if f.arraySize <= 100_000_000 then r.Ok? else r == Err(OutOfBounds))
      && (r.Ok? ==> |r.value| == f.arraySize)
      && (r.Ok? ==> forall k :: 0 <= k < |r.value| ==> r.value[k] == prefix + "/" + f.name + Numbered(k))
  {
    OnlyField(fm, open, f, prefix);
    LeavesAfter(fm, open, f, prefix + "/" + f.name, 0);
  }

  // ---- more fields ----

  lemma OneThen(fm: Formats, open: set<string>, fields: seq<Field>, prefix: string)
    requires fields != []
    ensures ColumnNames(fm, open, fields, prefix) ==
            LayoutWalks.Then(ColumnNames(fm, open, [fields[0]], prefix), ColumnNames(fm, open, fields[1..], prefix))
  {
    OnlyField(fm, open, fields[0], prefix);
  }

  /** The columns of fields are those of the first ones and then those of the rest: every field adds its own. */
  lemma {:induction false} ColumnsAppend(fm: Formats, open: set<string>, a: seq<Field>, b: seq<Field>, prefix: string)
    ensures ColumnNames(fm, open, a + b, prefix) ==
            LayoutWalks.Then(ColumnNames(fm, open, a, prefix), ColumnNames(fm, open, b, prefix))
  {
    var second := ColumnNames(fm, open, b, prefix);
    if a == [] {
      assert a + b == b;
      LayoutWalks.OntoNothing([], second);
    } else {
      assert (a + b)[0] == a[0] && (a + b)[1..] == a[1..] + b;
      OneThen(fm, open, a + b, prefix);
      OneThen(fm, open, a, prefix);
      ColumnsAppend(fm, open, a[1..], b, prefix);
      var first, rest := ColumnNames(fm, open, [a[0]], prefix), ColumnNames(fm, open, a[1..], prefix);
      if first.Ok? { LayoutWalks.OntoThen(first.value, rest, second); }
    }
  }
}
