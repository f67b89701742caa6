/** The two walks over a nested, array-valued format: `create_timeseries` lays out the columns,
    `parse_data_intl` fills them from a message. */
module Layout {
  import opened Bytes
  import opened Outcomes
  import Text
  import opened FormatText

  type Formats = map<string, Format>

  /** A leaf value before its conversion to double: its type and its little-endian bits. */
  datatype Value = Value(type_: FieldType, bits: nat)

  /** A column of a time series: its name and the values kept. */
  datatype Column = Column(name: string, values: seq<Value>)

  function Width(t: FieldType): nat {
    match t
    case UINT8 => 1 case INT8 => 1 case CHAR => 1 case BOOL => 1
    case UINT16 => 2 case INT16 => 2
    case UINT32 => 4 case INT32 => 4 case FLOAT => 4
    case UINT64 => 8 case INT64 => 8 case DOUBLE => 8
    case OTHER => 0
  }

  predicate IsPadding(f: Field) {
    Text.StartsWith(f.name, "_padding")
  }

  // `sprintf(buff, ".%02d", i)` into ten characters
  const MAX_INDEX := 100_000_000

  function ArraySuffix(f: Field, i: nat): string {
    if f.arraySize > 1 then "." + Text.Dec2(i) else ""
  }

  // ---- create_timeseries ----

  /** The column names of `fields`. `open` holds the formats not yet entered on the way here: entering one
      again means that the recursion never ends. */
  function ColumnNames(fm: Formats, open: set<string>, fields: seq<Field>, prefix: string): Result<seq<string>>
    decreases open, 2, |fields|
  {
    if fields == [] then Ok([])
    else
      var base := prefix + "/" + fields[0].name;
      var first :- if IsPadding(fields[0]) then Ok([]) else ArrayNames(fm, open, fields[0], 0, base);
      var rest :- ColumnNames(fm, open, fields[1..], prefix);
      Ok(first + rest)
  }

  /** The column names of the elements of `f` from `i` on. */
  function ArrayNames(fm: Formats, open: set<string>, f: Field, i: nat, base: string): Result<seq<string>>
    decreases open, 1, f.arraySize - i
  {
    if i >= f.arraySize then Ok([])
    else if f.arraySize > 1 && i >= MAX_INDEX then Err(OutOfBounds)
    else
      var first :- ElementNames(fm, open, f, base + ArraySuffix(f, i));
      var rest :- ArrayNames(fm, open, f, i + 1, base);
      Ok(first + rest)
  }

  function ElementNames(fm: Formats, open: set<string>, f: Field, name: string): Result<seq<string>>
    decreases open, 0
  {
    if f.type_ != OTHER then Ok([name])
    else if f.other !in fm then Err(Exception)
    else if f.other !in open then Err(Endless)
    else ColumnNames(fm, open - {f.other}, fm[f.other].fields, name)
  }

  // ---- parse_data_intl ----

  /** The columns, the byte position and the running column index. */
  datatype Walk = Walk(data: seq<Column>, pos: int, index: nat)

  function FillFields(fm: Formats, open: set<string>, fields: seq<Field>, message: seq<byte>, w: Walk): Result<Walk>
    decreases open, 2, |fields|
  {
    if fields == [] then Ok(w)
    else
      var v :- FillField(fm, open, fields[0], message, w);
      FillFields(fm, open, fields[1..], message, v)
  }

  function FillField(fm: Formats, open: set<string>, f: Field, message: seq<byte>, w: Walk): Result<Walk>
    decreases open, 2, 0
  {
    if IsPadding(f) then Ok(w.(pos := w.pos + f.arraySize))
    else FillArray(fm, open, f, 0, message, w)
  }

  function FillArray(fm: Formats, open: set<string>, f: Field, i: nat, message: seq<byte>, w: Walk): Result<Walk>
    decreases open, 1, f.arraySize - i
  {
    if i >= f.arraySize then Ok(w)
    else
      var v :- FillElement(fm, open, f, message, w);
      FillArray(fm, open, f, i + 1, message, v)
  }

  function FillElement(fm: Formats, open: set<string>, f: Field, message: seq<byte>, w: Walk): Result<Walk>
    decreases open, 0
  {
    if f.type_ != OTHER then
      var n := Width(f.type_);
      if w.pos < 0 || w.pos + n > |message| || w.index >= |w.data| then Err(OutOfBounds)
      else
        var value := Value(f.type_, FromLe(message[w.pos..w.pos + n]));
        Ok(Walk(w.data[w.index := w.data[w.index].(values := [value])], w.pos + n, w.index + 1))
    else if f.other !in fm then Err(Exception)
    else if f.other !in open then Err(Endless)
    else FillFields(fm, open - {f.other}, fm[f.other].fields, message, w.(pos := w.pos + 8))
  }

  // ---- the flattened layout both walks follow ----

  /** Bytes to step over, or a leaf to read. */
  datatype Slot = Skip(bytes: int) | Read(type_: FieldType)

  function Flatten(fm: Formats, open: set<string>, fields: seq<Field>): Result<seq<Slot>>
    decreases open, 2, |fields|
  {
    if fields == [] then Ok([])
    else
      var first :- FlattenField(fm, open, fields[0]);
      var rest :- Flatten(fm, open, fields[1..]);
      Ok(first + rest)
  }

  function FlattenField(fm: Formats, open: set<string>, f: Field): Result<seq<Slot>>
    decreases open, 2, 0
  {
    if IsPadding(f) then Ok([Skip(f.arraySize)]) else FlattenArray(fm, open, f, 0)
  }

  function FlattenArray(fm: Formats, open: set<string>, f: Field, i: nat): Result<seq<Slot>>
    decreases open, 1, f.arraySize - i
  {
    if i >= f.arraySize then Ok([])
    else
      var first :- FlattenElement(fm, open, f);
      var rest :- FlattenArray(fm, open, f, i + 1);
      Ok(first + rest)
  }

  function FlattenElement(fm: Formats, open: set<string>, f: Field): Result<seq<Slot>>
    decreases open, 0
  {
    if f.type_ != OTHER then Ok([Read(f.type_)])
    else if f.other !in fm then Err(Exception)
    else if f.other !in open then Err(Endless)
    else
      var nested :- Flatten(fm, open - {f.other}, fm[f.other].fields);
      Ok([Skip(8)] + nested)
  }

  function Reads(slots: seq<Slot>): nat {
    if slots == [] then 0 else (if slots[0].Read? then 1 else 0) + Reads(slots[1..])
  }

  function SlotSize(s: Slot): int {
    if s.Skip? then s.bytes else Width(s.type_)
  }

  function Size(slots: seq<Slot>): int {
    if slots == [] then 0 else SlotSize(slots[0]) + Size(slots[1..])
  }

  /** One pass over the slots. */
  function FillSlots(slots: seq<Slot>, message: seq<byte>, w: Walk): Result<Walk> {
    if slots == [] then Ok(w)
    else
      var v :- FillSlot(slots[0], message, w);
      FillSlots(slots[1..], message, v)
  }

  function FillSlot(s: Slot, message: seq<byte>, w: Walk): Result<Walk> {
    match s
    case Skip(n) => Ok(w.(pos := w.pos + n))
    case Read(t) =>
      if w.pos < 0 || w.pos + Width(t) > |message| || w.index >= |w.data| then Err(OutOfBounds)
      else
        var value := Value(t, FromLe(message[w.pos..w.pos + Width(t)]));
        Ok(Walk(w.data[w.index := w.data[w.index].(values := [value])], w.pos + Width(t), w.index + 1))
  }

  // ---- sums over concatenations ----

  lemma {:induction false} ReadsAppend(a: seq<Slot>, b: seq<Slot>)
    ensures Reads(a + b) == Reads(a) + Reads(b)
    ensures Size(a + b) == Size(a) + Size(b)
  {
    if a == [] {
      assert a + b == b;
    } else {
      assert (a + b)[1..] == a[1..] + b;
      ReadsAppend(a[1..], b);
    }
  }

  lemma {:induction false} FillSlotsAppend(a: seq<Slot>, b: seq<Slot>, message: seq<byte>, w: Walk)
    ensures FillSlots(a + b, message, w) ==
            if FillSlots(a, message, w).Ok? then FillSlots(b, message, FillSlots(a, message, w).value)
            else FillSlots(a, message, w)
  {
    if a == [] {
      assert a + b == b;
    } else {
      assert (a + b)[1..] == a[1..] + b;
      var v := FillSlot(a[0], message, w);
      if v.Ok? { FillSlotsAppend(a[1..], b, message, v.value); }
    }
  }

  // ---- create_timeseries follows the flattened layout ----

  lemma {:induction false} NamesFollow(fm: Formats, open: set<string>, fields: seq<Field>, prefix: string)
    requires ColumnNames(fm, open, fields, prefix).Ok?
    ensures Flatten(fm, open, fields).Ok?
    ensures |ColumnNames(fm, open, fields, prefix).value| == Reads(Flatten(fm, open, fields).value)
    decreases open, 2, |fields|
  {
    if fields != [] {
      if !IsPadding(fields[0]) { ArrayNamesFollow(fm, open, fields[0], 0, prefix + "/" + fields[0].name); }
      NamesFollow(fm, open, fields[1..], prefix);
      ReadsAppend(FlattenField(fm, open, fields[0]).value, Flatten(fm, open, fields[1..]).value);
    }
  }

  lemma {:induction false} ArrayNamesFollow(fm: Formats, open: set<string>, f: Field, i: nat, base: string)
    requires ArrayNames(fm, open, f, i, base).Ok?
    ensures FlattenArray(fm, open, f, i).Ok?
    ensures |ArrayNames(fm, open, f, i, base).value| == Reads(FlattenArray(fm, open, f, i).value)
    decreases open, 1, f.arraySize - i
  {
    if i < f.arraySize {
      ElementNamesFollow(fm, open, f, base + ArraySuffix(f, i));
      ArrayNamesFollow(fm, open, f, i + 1, base);
      ReadsAppend(FlattenElement(fm, open, f).value, FlattenArray(fm, open, f, i + 1).value);
    }
  }

  lemma {:induction false} ElementNamesFollow(fm: Formats, open: set<string>, f: Field, name: string)
    requires ElementNames(fm, open, f, name).Ok?
    ensures FlattenElement(fm, open, f).Ok?
    ensures |ElementNames(fm, open, f, name).value| == Reads(FlattenElement(fm, open, f).value)
    decreases open, 0
  {
    if f.type_ == OTHER {
      NamesFollow(fm, open - {f.other}, fm[f.other].fields, name);
      ReadsAppend([Skip(8)], Flatten(fm, open - {f.other}, fm[f.other].fields).value);
    }
  }

  // ---- parse_data_intl follows the flattened layout ----

  lemma {:induction false} FillFollows(fm: Formats, open: set<string>, fields: seq<Field>, message: seq<byte>, w: Walk)
    requires Flatten(fm, open, fields).Ok?
    ensures FillFields(fm, open, fields, message, w) == FillSlots(Flatten(fm, open, fields).value, message, w)
    decreases open, 2, |fields|
  {
    if fields != [] {
      var first, rest := FlattenField(fm, open, fields[0]).value, Flatten(fm, open, fields[1..]).value;
      FillFieldFollows(fm, open, fields[0], message, w);
      FillSlotsAppend(first, rest, message, w);
      var v := FillField(fm, open, fields[0], message, w);
      if v.Ok? { FillFollows(fm, open, fields[1..], message, v.value); }
    }
  }

  lemma {:induction false} FillFieldFollows(fm: Formats, open: set<string>, f: Field, message: seq<byte>, w: Walk)
    requires FlattenField(fm, open, f).Ok?
    ensures FillField(fm, open, f, message, w) == FillSlots(FlattenField(fm, open, f).value, message, w)
    decreases open, 2, 0
  {
    if !IsPadding(f) { FillArrayFollows(fm, open, f, 0, message, w); }
  }

  lemma {:induction false} FillArrayFollows(fm: Formats, open: set<string>, f: Field, i: nat, message: seq<byte>,
                                            w: Walk)
    requires FlattenArray(fm, open, f, i).Ok?
    ensures FillArray(fm, open, f, i, message, w) == FillSlots(FlattenArray(fm, open, f, i).value, message, w)
    decreases open, 1, f.arraySize - i
  {
    if i < f.arraySize {
      var first, rest := FlattenElement(fm, open, f).value, FlattenArray(fm, open, f, i + 1).value;
      FillElementFollows(fm, open, f, message, w);
      FillSlotsAppend(first, rest, message, w);
      var v := FillElement(fm, open, f, message, w);
      if v.Ok? { FillArrayFollows(fm, open, f, i + 1, message, v.value); }
    }
  }

  lemma {:induction false} FillElementFollows(fm: Formats, open: set<string>, f: Field, message: seq<byte>, w: Walk)
    requires FlattenElement(fm, open, f).Ok?
    ensures FillElement(fm, open, f, message, w) == FillSlots(FlattenElement(fm, open, f).value, message, w)
    decreases open, 0
  {
    if f.type_ == OTHER {
      var nested := Flatten(fm, open - {f.other}, fm[f.other].fields).value;
      FillFollows(fm, open - {f.other}, fm[f.other].fields, message, w.(pos := w.pos + 8));
      assert ([Skip(8)] + nested)[1..] == nested;
    }
  }
}
