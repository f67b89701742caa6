/** The loops of `create_timeseries` and `parse_data_intl`. `open` is the specification's way to say that the
    recursion ends; the code has no counterpart to it, hence the preconditions that exclude a cycle. */
module LayoutWalks {
  import opened Bytes
  import opened Outcomes
  import Text
  import FormatText
  import opened Layout

  /** `columns`, then the names of `r`. */
  function Onto(columns: seq<string>, r: Result<seq<string>>): Result<seq<string>> {
    if r.Ok? then Ok(columns + r.value) else r
  }

  function Then(a: Result<seq<string>>, b: Result<seq<string>>): Result<seq<string>> {
    if a.Err? then a else Onto(a.value, b)
  }

  lemma OntoThen(columns: seq<string>, a: Result<seq<string>>, b: Result<seq<string>>)
    ensures Onto(columns, Then(a, b)) == Then(Onto(columns, a), b)
  {
    if a.Ok? && b.Ok? { Text.Reassociate(columns, a.value, b.value); }
  }

  lemma OntoNothing(columns: seq<string>, r: Result<seq<string>>)
    ensures Onto(columns, Ok([])) == Ok(columns) && Onto([], r) == r && Then(Ok([]), r) == r
  {
    assert columns + [] == columns;
    if r.Ok? { assert [] + r.value == r.value; }
  }

  /** The lambda `appendVector`: appends the columns of `fields` to those collected so far. */
  method AppendVector(fm: Formats, ghost open: set<string>, fields: seq<FormatText.Field>, prefix: string,
                      columns: seq<string>)
    returns (r: Result<seq<string>>)
    requires ColumnNames(fm, open, fields, prefix) != Err(Endless)
    ensures r == Onto(columns, ColumnNames(fm, open, fields, prefix))
    decreases open, 1
  {
    var data := columns;
    ghost var goal := Onto(columns, ColumnNames(fm, open, fields, prefix));
    ghost var left := fields;
    for k := 0 to |fields|
      invariant left == fields[k..]
      invariant goal == Onto(data, ColumnNames(fm, open, left, prefix)) && goal != Err(Endless)
    {
      var field := fields[k];
      var newPrefix := prefix + "/" + field.name;
      ghost var rest := ColumnNames(fm, open, left[1..], prefix);
      if IsPadding(field) {
        OntoNothing(data, rest);
      } else {
        ghost var names := ArrayNames(fm, open, field, 0, newPrefix);
        assert ColumnNames(fm, open, left, prefix) == Then(names, rest);
        OntoThen(data, names, rest);
        var appended := AppendArray(fm, open, field, newPrefix, data);
        if appended.Err? { return appended; }
        data := appended.value;
      }
      left := left[1..];
    }
    OntoNothing(data, Ok([]));
    r := Ok(data);
  }

  method AppendArray(fm: Formats, ghost open: set<string>, field: FormatText.Field, newPrefix: string,
                     columns: seq<string>)
    returns (r: Result<seq<string>>)
    requires ArrayNames(fm, open, field, 0, newPrefix) != Err(Endless)
    ensures r == Onto(columns, ArrayNames(fm, open, field, 0, newPrefix))
    decreases open, 0
  {
    var data, i := columns, 0;
    ghost var goal := Onto(columns, ArrayNames(fm, open, field, 0, newPrefix));
    while i < field.arraySize
      invariant i >= 0 && goal == Onto(data, ArrayNames(fm, open, field, i, newPrefix)) && goal != Err(Endless)
    {
      if field.arraySize > 1 && i >= MAX_INDEX { return Err(OutOfBounds); }
      var name := newPrefix + ArraySuffix(field, i);
      ghost var rest := ArrayNames(fm, open, field, i + 1, newPrefix);
      ghost var names := ElementNames(fm, open, field, name);
      assert ArrayNames(fm, open, field, i, newPrefix) == Then(names, rest);
      OntoThen(data, names, rest);
      if field.type_ != FormatText.OTHER {
        data := data + [name];
      } else {
        if field.other !in fm { return Err(Exception); }
        var nested := AppendVector(fm, open - {field.other}, fm[field.other].fields, name, data);
        if nested.Err? { return nested; }
        data := nested.value;
      }
      i := i + 1;
    }
    OntoNothing(data, Ok([]));
    r := Ok(data);
  }

  /** `create_timeseries`: the columns of a format, all empty. */
  method CreateColumns(fm: Formats, format: FormatText.Format) returns (r: Result<seq<Column>>)
    requires ColumnNames(fm, fm.Keys, format.fields, "") != Err(Endless)
    ensures r == EmptyColumns(ColumnNames(fm, fm.Keys, format.fields, ""))
  {
    var names := AppendVector(fm, fm.Keys, format.fields, "", []);
    OntoNothing([], ColumnNames(fm, fm.Keys, format.fields, ""));
    r := EmptyColumns(names);
  }

  function EmptyColumns(names: Result<seq<string>>): Result<seq<Column>> {
    if names.Ok? then Ok(seq(|names.value|, i requires 0 <= i < |names.value| => Column(names.value[i], [])))
    else Err(names.fault)
  }

  /** `parse_data_intl`: fills the columns from the message, moving the position and the running index. */
  method ParseDataIntl(fm: Formats, ghost open: set<string>, fields: seq<FormatText.Field>, message: seq<byte>,
                       start: Walk)
    returns (r: Result<Walk>)
    requires FillFields(fm, open, fields, message, start) != Err(Endless)
    ensures r == FillFields(fm, open, fields, message, start)
    decreases open, 1
  {
    var w := start;
    ghost var goal := FillFields(fm, open, fields, message, start);
    ghost var left := fields;
    for k := 0 to |fields|
      invariant left == fields[k..]
      invariant goal == FillFields(fm, open, left, message, w) && goal != Err(Endless)
    {
      var field := fields[k];
      if IsPadding(field) {
        w := w.(pos := w.pos + field.arraySize);
      } else {
        var filled := ParseArray(fm, open, field, message, w);
        if filled.Err? { return filled; }
        w := filled.value;
      }
      left := left[1..];
    }
    r := Ok(w);
  }

  method ParseArray(fm: Formats, ghost open: set<string>, field: FormatText.Field, message: seq<byte>, start: Walk)
    returns (r: Result<Walk>)
    requires FillArray(fm, open, field, 0, message, start) != Err(Endless)
    ensures r == FillArray(fm, open, field, 0, message, start)
    decreases open, 0
  {
    var w, arrayPos := start, 0;
    ghost var goal := FillArray(fm, open, field, 0, message, start);
    while arrayPos < field.arraySize
      invariant arrayPos >= 0 && goal == FillArray(fm, open, field, arrayPos, message, w) && goal != Err(Endless)
    {
      if field.type_ != FormatText.OTHER {
        var n := Width(field.type_);
        if w.pos < 0 || w.pos + n > |message| || w.index >= |w.data| { return Err(OutOfBounds); }
        var value := Value(field.type_, FromLe(message[w.pos..w.pos + n]));
        var column := w.data[w.index];
        w := Walk(w.data[w.index := column.(values := [value])], w.pos + n, w.index + 1);
      } else {
        if field.other !in fm { return Err(Exception); }
        var child := ParseDataIntl(fm, open - {field.other}, fm[field.other].fields, message, w.(pos := w.pos + 8));
        if child.Err? { return child; }
        w := child.value;
      }
      arrayPos := arrayPos + 1;
    }
    r := Ok(w);
  }
}
