/** ULog formats and the text that describes them: `MutelemetryParser::parse_format` and the text the
    callers of `register_data_format` write. */
module FormatText {
  import opened Outcomes
  import opened Text

  datatype FieldType =
    | UINT8 | UINT16 | UINT32 | UINT64 | INT8 | INT16 | INT32 | INT64 | FLOAT | DOUBLE | BOOL | CHAR
    | OTHER

  datatype Field = Field(type_: FieldType, name: string, other: string, arraySize: int)

  datatype Format = Format(name: string, fields: seq<Field>)

  const INT_MIN := -0x8000_0000
  const INT_MAX := 0x7fff_ffff

  /** The largest array size of several digits that is read without overflow: the digit's character is added before
      '0' is taken away. */
  const MAX_SIZE := INT_MAX - '0' as int

  function Word(t: FieldType): string {
    match t
    case UINT8 => "uint8_t" case UINT16 => "uint16_t" case UINT32 => "uint32_t" case UINT64 => "uint64_t"
    case INT8 => "int8_t" case INT16 => "int16_t" case INT32 => "int32_t" case INT64 => "int64_t"
    case FLOAT => "float" case DOUBLE => "double" case BOOL => "bool" case CHAR => "char"
    case OTHER => ""
  }

  /** The chain of `starts_with` tests, in the source's order. */
  function BuiltinOf(t: string): FieldType {
    if StartsWith(t, "int8_t") then INT8
    else if StartsWith(t, "int16_t") then INT16
    else if StartsWith(t, "int32_t") then INT32
    else if StartsWith(t, "int64_t") then INT64
    else if StartsWith(t, "uint8_t") then UINT8
    else if StartsWith(t, "uint16_t") then UINT16
    else if StartsWith(t, "uint32_t") then UINT32
    else if StartsWith(t, "uint64_t") then UINT64
    else if StartsWith(t, "double") then DOUBLE
    else if StartsWith(t, "float") then FLOAT
    else if StartsWith(t, "bool") then BOOL
    else if StartsWith(t, "char") then CHAR
    else OTHER
  }

  lemma BuiltinStarts(t: string)
    ensures BuiltinOf(t) != OTHER ==> StartsWith(t, Word(BuiltinOf(t)))
  {
  }

  function FindLast(s: string, c: char): (k: int)
    ensures -1 <= k < |s|
  {
    if s == "" then -1 else if s[|s| - 1] == c then |s| - 1 else FindLast(s[..|s| - 1], c)
  }

  /** The type of a field, the name of its nested type, and the text left for the array size. */
  datatype TypeText = TypeText(type_: FieldType, other: string, rest: string)

  function ParseType(t: string): Result<TypeText> {
    var builtin := BuiltinOf(t);
    if builtin != OTHER then
      BuiltinStarts(t);
      Ok(TypeText(builtin, "", t[|Word(builtin)|..]))
    else if !EndsWith(t, "]") then Ok(TypeText(OTHER, t, t))
    else if FindLast(t, '[') < 0 then Err(Undefined)  // the search for '[' does not end
    else Ok(TypeText(OTHER, t[..FindLast(t, '[')], t[Find(t, '[')..]))
  }

  /** A `char` as an `int`. */
  function Signed(c: char): int {
    if c as int < 128 then c as int else c as int - 256
  }

  function CharValue(c: char): int {
    Signed(c) - '0' as int
  }

  predicate IsInt(n: int) {
    INT_MIN <= n <= INT_MAX
  }

  /** `10 * acc + c - '0'`, from left to right in `int`. */
  function NextSize(acc: int, c: char): Result<int> {
    if IsInt(10 * acc) && IsInt(10 * acc + Signed(c)) && IsInt(10 * acc + CharValue(c)) then
      Ok(10 * acc + CharValue(c))
    else Err(Undefined)
  }

  /** The loop that reads array digits up to ']'; it runs on past a text without one, and `int` overflows. */
  function ScanSize(s: string, acc: int): Result<int> {
    if s == "" then Err(Undefined)
    else if s[0] == ']' then Ok(acc)
    else
      var next :- NextSize(acc, s[0]);
      ScanSize(s[1..], next)
  }

  function ParseArraySize(rest: string): Result<int> {
    if rest == "" || rest[0] != '[' then Ok(1)
    else if |rest| == 1 then Err(Undefined)
    else ScanSize(rest[2..], CharValue(rest[1]))
  }

  /** One field; a `uint64_t timestamp` is dropped. */
  function ParseField(section: string): Result<Option<Field>> {
    var pair := Split(section, ' ');
    if |pair| < 2 then Err(Exception)  // vector::at
    else
      var t :- ParseType(pair[0]);
      var n :- ParseArraySize(t.rest);
      if t.type_ == UINT64 && pair[1] == "timestamp" then Ok(None)
      else Ok(Some(Field(t.type_, pair[1], t.other, n)))
  }

  function ParseFields(sections: seq<string>): Result<seq<Field>> {
    if sections == [] then Ok([])
    else
      var field :- ParseField(sections[0]);
      var rest :- ParseFields(sections[1..]);
      Ok((if field.Some? then [field.value] else []) + rest)
  }

  function ParseBody(body: string): Result<seq<Field>> {
    ParseFields(Split(body, ';'))
  }

  /** The format in a format message, or None when it has no ':'. */
  function ParseFormat(text: string): Result<Option<Format>> {
    var pos := Find(text, ':');
    if pos == |text| then Ok(None) else FormatOf(text[..pos], ParseBody(text[pos + 1..]))
  }

  function FormatOf(name: string, fields: Result<seq<Field>>): Result<Option<Format>> {
    if fields.Ok? then Ok(Some(Format(name, fields.value))) else Err(fields.fault)
  }

  // ---- the loops of parse_format ----

  /** Cuts the type text at its brackets. */
  method CutOther(fieldType: string) returns (other: string, rest: string)
    requires FindLast(fieldType, '[') >= 0
    ensures other == fieldType[..FindLast(fieldType, '[')]
    ensures rest == fieldType[Find(fieldType, '[')..]
  {
    var helper := fieldType;
    while !EndsWith(helper, "[")
      invariant helper <= fieldType && FindLast(helper, '[') == FindLast(fieldType, '[')
      decreases |helper|
    {
      assert helper[|helper| - 1..] != "[";
      assert helper[|helper| - 1] != '[' by {
        assert helper[|helper| - 1..] == [helper[|helper| - 1]];
      }
      helper := helper[..|helper| - 1];
    }
    assert helper[|helper| - 1] == '[';
    other := helper[..|helper| - 1];

    FoundBefore(fieldType, '[');
    rest := fieldType;
    ghost var cut := 0;
    while !StartsWith(rest, "[")
      invariant cut <= Find(fieldType, '[') < |fieldType|
      invariant rest == fieldType[cut..] && cut + Find(rest, '[') == Find(fieldType, '[')
      decreases |rest|
    {
      assert rest[0] != '[' by { assert rest[..1] == [rest[0]]; }
      rest := rest[1..];
      cut := cut + 1;
    }
    assert rest[0] == '[';
  }

  lemma FoundBefore(s: string, c: char)
    requires FindLast(s, c) >= 0
    ensures Find(s, c) < |s|
  {
    FoundAt(s, c);
    FoundBy(s, c, FindLast(s, c));
  }

  lemma {:induction false} FoundBy(s: string, c: char, k: nat)
    requires k < |s| && s[k] == c
    ensures Find(s, c) <= k
  {
    if k > 0 && s[0] != c { FoundBy(s[1..], c, k - 1); }
  }

  lemma {:induction false} FoundAt(s: string, c: char)
    ensures FindLast(s, c) >= 0 ==> s[FindLast(s, c)] == c
  {
    if s != "" && s[|s| - 1] != c { FoundAt(s[..|s| - 1], c); }
  }

  method ReadArraySize(text: string) returns (r: Result<int>)
    ensures r == ParseArraySize(text)
  {
    if text == "" || text[0] != '[' { return Ok(1); }
    if |text| == 1 { return Err(Undefined); }
    var size := CharValue(text[1]);
    var fieldType := text[2..];
    while fieldType != "" && fieldType[0] != ']'
      invariant ScanSize(fieldType, size) == ParseArraySize(text)
      decreases |fieldType|
    {
      var next := NextSize(size, fieldType[0]);
      if next.Err? { return Err(next.fault); }
      size := next.value;
      fieldType := fieldType[1..];
    }
    r := if fieldType == "" then Err(Undefined) else Ok(size);
  }

  method ReadField(section: string) returns (r: Result<Option<Field>>)
    ensures r == ParseField(section)
  {
    var pair := SplitString(section, ' ');
    if |pair| < 2 { return Err(Exception); }
    var fieldType := pair[0];
    var kind, other := BuiltinOf(fieldType), "";
    if kind != OTHER {
      BuiltinStarts(fieldType);
      fieldType := fieldType[|Word(kind)|..];
    } else if EndsWith(fieldType, "]") {
      if FindLast(fieldType, '[') < 0 { return Err(Undefined); }
      other, fieldType := CutOther(fieldType);
    } else {
      other := fieldType;
    }
    var size := ReadArraySize(fieldType);
    if size.Err? { return Err(size.fault); }
    r := if kind == UINT64 && pair[1] == "timestamp" then Ok(None)
         else Ok(Some(Field(kind, pair[1], other, size.value)));
  }

  method ReadFields(sections: seq<string>) returns (r: Result<seq<Field>>)
    ensures r == ParseFields(sections)
  {
    var fields: seq<Field> := [];
    ghost var left := sections;
    PrependNothing(ParseFields(sections));
    for i := 0 to |sections|
      invariant left == sections[i..]
      invariant ParseFields(sections) == Prepend(fields, ParseFields(left))
    {
      var field := ReadField(sections[i]);
      if field.Err? { return Err(field.fault); }
      PrependMore(fields, field.value, left);
      if field.value.Some? { fields := fields + [field.value.value]; } else { assert fields + [] == fields; }
      left := left[1..];
    }
    r := Ok(fields);
    assert fields + [] == fields;
  }

  method ReadFormat(text: string) returns (r: Result<Option<Format>>)
    ensures r == ParseFormat(text)
  {
    var pos := Find(text, ':');
    if pos == |text| { return Ok(None); }
    ghost var goal := ParseFormat(text);
    var name, body := text[..pos], text[pos + 1..];
    assert goal == FormatOf(name, ParseBody(body));
    var fields := ReadBody(body);
    r := FormatOf(name, fields);
  }

  method ReadBody(body: string) returns (r: Result<seq<Field>>)
    ensures r == ParseBody(body)
  {
    var sections := SplitString(body, ';');
    r := ReadFields(sections);
  }

  lemma PrependNothing(rest: Result<seq<Field>>)
    ensures Prepend([], rest) == rest
  {
    if rest.Ok? { assert [] + rest.value == rest.value; }
  }

  lemma PrependMore(fields: seq<Field>, field: Option<Field>, left: seq<string>)
    requires left != [] && ParseField(left[0]) == Ok(field)
    ensures Prepend(fields, ParseFields(left)) ==
            Prepend(fields + (if field.Some? then [field.value] else []), ParseFields(left[1..]))
  {
    if ParseFields(left[1..]).Ok? {
      Reassociate(fields, if field.Some? then [field.value] else [], ParseFields(left[1..]).value);
    }
  }

  function Prepend(fields: seq<Field>, rest: Result<seq<Field>>): Result<seq<Field>> {
    if rest.Ok? then Ok(fields + rest.value) else rest
  }
}
