/** `parse_format` undoes the text of a format, up to what `register_data_format` does to its end. */
module FormatRoundTrip {
  import opened Outcomes
  import opened Text
  import opened FormatText

  /** A field as its author declares it: `type[size] name`. */
  datatype Declaration = Declaration(type_: FieldType, other: string, size: Option<nat>, name: string)

  predicate NestedTypeName(t: string) {
    ' ' !in t && ';' !in t && '[' !in t && ']' !in t && BuiltinOf(t) == OTHER
  }

  predicate FieldName(name: string) {
    name != "" && ' ' !in name && ';' !in name
  }

  /** A declaration that its text determines. */
  predicate Renderable(d: Declaration) {
    && (if d.type_ == OTHER then NestedTypeName(d.other) else d.other == "")
    && (d.size.Some? ==> d.size.value <= 2_147_483_599)
    && FieldName(d.name)
    && !(d.type_ == UINT64 && d.name == "timestamp")
  }

  function Base(d: Declaration): string {
    if d.type_ == OTHER then d.other else Word(d.type_)
  }

  function Brackets(size: Option<nat>): string {
    if size.None? then "" else "[" + Dec(size.value) + "]"
  }

  function Section(d: Declaration): string {
    Base(d) + Brackets(d.size) + " " + d.name
  }

  function Sections(ds: seq<Declaration>): (r: seq<string>)
    ensures |r| == |ds|
  {
    seq(|ds|, i requires 0 <= i < |ds| => Section(ds[i]))
  }

  /** What callers pass to `register_data_format`: every section ends with ';'. */
  function FieldsText(ds: seq<Declaration>): string {
    Terminated(Sections(ds), ';')
  }

  function FieldOf(d: Declaration): Field {
    Field(d.type_, d.name, d.other, if d.size.Some? then d.size.value else 1)
  }

  function FieldsOf(ds: seq<Declaration>): (r: seq<Field>)
    ensures |r| == |ds|
  {
    seq(|ds|, i requires 0 <= i < |ds| => FieldOf(ds[i]))
  }

  // ---- one type text ----

  lemma WordsHaveNoBracket(t: FieldType)
    ensures '[' !in Word(t) && ']' !in Word(t) && ' ' !in Word(t) && ';' !in Word(t)
  {
  }

  /** Brackets cannot complete a builtin word. */
  lemma PrefixBeforeBracket(t: string, rest: string, word: string)
    requires '[' !in word && (rest == "" || rest[0] == '[')
    ensures StartsWith(t + rest, word) ==> StartsWith(t, word)
  {
    if StartsWith(t + rest, word) {
      if |t| < |word| && rest != "" {
        PrefixAt(t + rest, word, |t|);
      } else {
        assert (t + rest)[..|word|] == t[..|word|];
      }
    }
  }

  lemma NestedStaysNested(t: string, size: Option<nat>)
    requires BuiltinOf(t) == OTHER
    ensures BuiltinOf(t + Brackets(size)) == OTHER
  {
    forall k: FieldType ensures StartsWith(t + Brackets(size), Word(k)) ==> StartsWith(t, Word(k)) {
      WordsHaveNoBracket(k);
      PrefixBeforeBracket(t, Brackets(size), Word(k));
    }
    BuiltinMeans(t);
    BuiltinMeans(t + Brackets(size));
  }

  lemma BuiltinMeans(t: string)
    ensures BuiltinOf(t) == OTHER <==> forall k: FieldType :: k != OTHER ==> !StartsWith(t, Word(k))
  {
    BuiltinStarts(t);
    if BuiltinOf(t) == OTHER {
      forall k: FieldType | k != OTHER ensures !StartsWith(t, Word(k)) { NotStarting(t, k); }
    }
  }

  lemma NotStarting(t: string, k: FieldType)
    requires BuiltinOf(t) == OTHER && k != OTHER
    ensures !StartsWith(t, Word(k))
  {
    match k {
      case UINT8 => case UINT16 => case UINT32 => case UINT64 =>
      case INT8 => case INT16 => case INT32 => case INT64 =>
      case FLOAT => case DOUBLE => case BOOL => case CHAR =>
    }
  }

  lemma PrefixAt(s: string, word: string, i: nat)
    requires StartsWith(s, word) && i < |word|
    ensures s[i] == word[i]
  {
    assert s[..|word|][i] == s[i];
  }

  /** No builtin word is a prefix of another: the fourth and fifth characters tell them apart. */
  lemma WordsApart(j: FieldType, k: FieldType, s: string)
    requires j != OTHER && k != OTHER && StartsWith(s, Word(j)) && StartsWith(s, Word(k))
    ensures j == k
  {
    PrefixAt(s, Word(j), 3);
    PrefixAt(s, Word(k), 3);
    if |Word(j)| > 4 && |Word(k)| > 4 {
      PrefixAt(s, Word(j), 4);
      PrefixAt(s, Word(k), 4);
    }
  }

  lemma BuiltinStays(k: FieldType, rest: string)
    requires k != OTHER
    ensures BuiltinOf(Word(k) + rest) == k
  {
    var s := Word(k) + rest;
    assert StartsWith(s, Word(k));
    BuiltinMeans(s);
    BuiltinStarts(s);
    WordsApart(k, BuiltinOf(s), s);
  }

  lemma {:induction false} FindLastIs(a: string, c: char, b: string)
    requires c !in b
    ensures FindLast(a + [c] + b, c) == |a|
    decreases |b|
  {
    var s := a + [c] + b;
    if b == "" {
      assert s[|s| - 1] == c;
    } else {
      var shorter := a + [c] + b[..|b| - 1];
      assert s[|s| - 1] == b[|b| - 1];
      assert s[..|s| - 1] == shorter;
      FindLastIs(a, c, b[..|b| - 1]);
    }
  }

  predicate TypeReads(d: Declaration, text: string) {
    var t := ParseType(text);
    && t.Ok? && t.value.type_ == d.type_ && t.value.other == d.other
    && (if d.size.Some? then t.value.rest == Brackets(d.size) else t.value.rest == "" || t.value.rest[0] != '[')
  }

  lemma BuiltinTypeParses(d: Declaration)
    requires Renderable(d) && d.type_ != OTHER
    ensures TypeReads(d, Base(d) + Brackets(d.size))
  {
    BuiltinStays(d.type_, Brackets(d.size));
    assert (Base(d) + Brackets(d.size))[|Base(d)|..] == Brackets(d.size);
  }

  lemma NestedTypeParses(d: Declaration)
    requires Renderable(d) && d.type_ == OTHER && d.size.None?
    ensures TypeReads(d, Base(d) + Brackets(d.size))
  {
    var base := d.other;
    assert Base(d) + Brackets(d.size) == base;
    assert !EndsWith(base, "]") by {
      if base != "" { assert base[|base| - 1..] == [base[|base| - 1]]; }
    }
  }

  lemma NestedArrayParses(d: Declaration)
    requires Renderable(d) && d.type_ == OTHER && d.size.Some?
    ensures TypeReads(d, Base(d) + Brackets(d.size))
  {
    var base, inner := d.other, Dec(d.size.value) + "]";
    var text := base + ['['] + inner;
    assert Base(d) + Brackets(d.size) == text && ['['] + inner == Brackets(d.size);
    NestedStaysNested(base, d.size);
    assert EndsWith(text, "]") by { assert text[|text| - 1..] == "]"; }
    assert '[' !in inner by {
      assert forall i :: 0 <= i < |Dec(d.size.value)| ==> IsDigit(Dec(d.size.value)[i]);
    }
    FindAfter(base, '[', inner);
    FindLastIs(base, '[', inner);
    assert text[..|base|] == base && text[|base|..] == ['['] + inner;
  }

  lemma TypeParses(d: Declaration)
    requires Renderable(d)
    ensures TypeReads(d, Base(d) + Brackets(d.size))
  {
    if d.type_ != OTHER {
      BuiltinTypeParses(d);
    } else if d.size.None? {
      NestedTypeParses(d);
    } else {
      NestedArrayParses(d);
    }
  }

  // ---- the array size ----

  lemma {:induction false} ScanDigits(s: string, acc: nat)
    requires AllDigits(s) && acc <= 2_147_483_599
    ensures ScanSize(s + "]", acc) == if Fold(s, acc) <= 2_147_483_599 then Ok(Fold(s, acc)) else Err(Undefined)
  {
    if s == "" {
      assert s + "]" == "]";
    } else {
      var next := 10 * acc + (s[0] as int - '0' as int);
      assert IsDigit(s[0]) && AllDigits(s[1..]);
      FoldGrows(s[1..], next);
      assert (s + "]")[1..] == s[1..] + "]";
      if next <= MAX_SIZE { ScanDigits(s[1..], next); }
    }
  }

  /** An array size written in decimal is read back if and only if it is at most 2147483599: from there on `int`
      overflows on the way. */
  lemma SizeParses(n: nat)
    ensures ParseArraySize("[" + Dec(n) + "]") == if n <= 2_147_483_599 then Ok(n) else Err(Undefined)
  {
    var digits := Dec(n);
    var text := "[" + digits + "]";
    FoldDec(n);
    assert AllDigits(digits[1..]);
    assert text[1] == digits[0] && text[2..] == digits[1..] + "]";
    ScanDigits(digits[1..], digits[0] as int - '0' as int);
  }

  // ---- fields ----

  /** A size of one character is not checked to be a digit: it is that character's code, of a signed char, less 48. */
  lemma OneCharacterSize(c: char)
    requires c as int < 256
    ensures ParseArraySize(['['] + [c] + [']']) == Ok((if c as int < 128 then c as int else c as int - 256) - 48)
    ensures ParseArraySize(['['] + [c]) == Err(Undefined) && ParseArraySize("[") == Err(Undefined)
  {
    assert (['['] + [c] + [']'])[2..] == [']'];
    assert (['['] + [c])[2..] == [];
  }

  /** A section without a second word throws. */
  lemma NamelessFails(t: string)
    requires ' ' !in t
    ensures ParseField(t) == Err(Exception) && ParseField(t + [' ']) == Err(Exception)
  {
    if t != "" { SplitWhole([], t, ' '); }
    SplitStep([], t, ' ', "");
    assert t + [' '] + "" == t + [' '];
  }

  lemma BaseText(d: Declaration)
    requires Renderable(d)
    ensures ' ' !in Base(d) + Brackets(d.size) && ';' !in Base(d) + Brackets(d.size)
  {
    WordsHaveNoBracket(d.type_);
    if d.size.Some? {
      assert forall i :: 0 <= i < |Dec(d.size.value)| ==> IsDigit(Dec(d.size.value)[i]);
    }
  }

  lemma FieldParses(d: Declaration)
    requires Renderable(d)
    ensures ParseField(Section(d)) == Ok(Some(FieldOf(d)))
  {
    var t := Base(d) + Brackets(d.size);
    BaseText(d);
    assert Section(d) == t + [' '] + d.name;
    SplitPair(t, d.name, ' ');
    TypeParses(d);
    if d.size.Some? { SizeParses(d.size.value); }
  }

  lemma FieldsCons(section: string, rest: seq<string>, field: Option<Field>, fields: seq<Field>)
    requires ParseField(section) == Ok(field) && ParseFields(rest) == Ok(fields)
    ensures ParseFields([section] + rest) == Ok((if field.Some? then [field.value] else []) + fields)
  {
    var all := [section] + rest;
    assert all[0] == section && all[1..] == rest;
  }

  lemma HeadSection(ds: seq<Declaration>)
    requires ds != []
    ensures Sections(ds) == [Section(ds[0])] + Sections(ds[1..])
  {
  }

  lemma HeadField(ds: seq<Declaration>)
    requires ds != []
    ensures FieldsOf(ds) == [FieldOf(ds[0])] + FieldsOf(ds[1..])
  {
  }

  lemma {:induction false} FieldsParse(ds: seq<Declaration>)
    requires forall i :: 0 <= i < |ds| ==> Renderable(ds[i])
    ensures ParseFields(Sections(ds)) == Ok(FieldsOf(ds))
  {
    if ds != [] {
      FieldParses(ds[0]);
      FieldsParse(ds[1..]);
      FieldsCons(Section(ds[0]), Sections(ds[1..]), Some(FieldOf(ds[0])), FieldsOf(ds[1..]));
      HeadSection(ds);
      HeadField(ds);
    }
  }

  lemma SectionsClean(ds: seq<Declaration>)
    requires forall i :: 0 <= i < |ds| ==> Renderable(ds[i])
    ensures forall i :: 0 <= i < |ds| ==> ';' !in Sections(ds)[i] && Sections(ds)[i] != ""
  {
    forall i | 0 <= i < |ds| ensures ';' !in Sections(ds)[i] && Sections(ds)[i] != "" { BaseText(ds[i]); }
  }

  /** Parsing the rendered text of any list of declarations yields exactly those fields. */
  lemma FieldsTextParses(ds: seq<Declaration>)
    requires forall i :: 0 <= i < |ds| ==> Renderable(ds[i])
    ensures ParseBody(FieldsText(ds)) == Ok(FieldsOf(ds))
  {
    SectionsClean(ds);
    SplitTerminated([], Sections(ds), ';', "");
    assert FieldsText(ds) + "" == FieldsText(ds) && [] + Sections(ds) == Sections(ds);
    FieldsParse(ds);
  }

  /** The whole format text `name:fields`. */
  lemma FormatTextParses(name: string, ds: seq<Declaration>)
    requires ':' !in name && forall i :: 0 <= i < |ds| ==> Renderable(ds[i])
    ensures ParseFormat(name + ":" + FieldsText(ds)) == Ok(Some(Format(name, FieldsOf(ds))))
  {
    FieldsTextParses(ds);
    NamedParses(name, FieldsText(ds), FieldsOf(ds));
  }

  // ---- through register_data_format ----

  const TIMESTAMP := "uint64_t timestamp;"

  /** The text `register_data_format` builds. */
  function RegisteredText(name: string, fields: string): string {
    name + ":" + TIMESTAMP + fields
  }

  /** `snprintf` with the length of the text as its limit: the last character becomes NUL. */
  function Cut(text: string): string
    requires text != ""
  {
    text[..|text| - 1] + "\0"
  }

  function NulName(d: Declaration): Declaration {
    d.(name := d.name + "\0")
  }

  /** The last declaration, whose name the parser reads with a NUL at its end. */
  function CutLast(ds: seq<Declaration>): seq<Declaration>
    requires ds != []
  {
    ds[..|ds| - 1] + [NulName(ds[|ds| - 1])]
  }

  lemma {:induction false} TerminatedLast(parts: seq<string>, d: char)
    requires parts != []
    ensures Terminated(parts, d) == Terminated(parts[..|parts| - 1], d) + parts[|parts| - 1] + [d]
  {
    if |parts| > 1 {
      TerminatedLast(parts[1..], d);
      assert parts[1..][..|parts| - 2] == parts[..|parts| - 1][1..];
    }
  }

  lemma TimestampDropped(section: string)
    requires section == "uint64_t timestamp"
    ensures ParseField(section) == Ok(None)
  {
    var word, name := Word(UINT64), section[9..];
    assert section == word + [' '] + name && name == "timestamp";
    SplitPair(word, name, ' ');
    BuiltinStays(UINT64, "");
    assert word + "" == word && word[8..] == "";
  }

  /** The text cut at its end: the terminated sections and the last one with its NUL. */
  lemma CutText(timestamp: string, ds: seq<Declaration>)
    requires ds != []
    ensures Cut(timestamp + ";" + FieldsText(ds)) ==
            Terminated([timestamp] + Sections(ds)[..|ds| - 1], ';') + Section(NulName(ds[|ds| - 1]))
  {
    var n := |ds| - 1;
    var sections := Sections(ds);
    var parts := [timestamp] + sections[..n];
    var front := timestamp + ";" + Terminated(sections[..n], ';');
    assert parts[1..] == sections[..n];
    assert Terminated(parts, ';') == front;
    TerminatedLast(sections, ';');
    JoinThree(timestamp + ";", Terminated(sections[..n], ';'), Section(ds[n]) + ";", FieldsText(ds));
    CutAppend(front, Section(ds[n]) + ";");
    assert Cut(Section(ds[n]) + ";") == Section(NulName(ds[n]));
  }

  lemma JoinThree(a: string, b: string, c: string, bc: string)
    requires bc == b + c
    ensures a + bc == a + b + c
  {
  }

  lemma CutAppend(a: string, b: string)
    requires b != ""
    ensures Cut(a + b) == a + Cut(b)
  {
    assert (a + b)[..|a + b| - 1] == a + b[..|b| - 1];
  }

  lemma CutSections(ds: seq<Declaration>)
    requires ds != []
    ensures Sections(ds)[..|ds| - 1] + [Section(NulName(ds[|ds| - 1]))] == Sections(CutLast(ds))
  {
  }

  lemma PartsClean(timestamp: string, parts: seq<string>, all: seq<string>)
    requires ';' !in timestamp && parts <= all && forall i :: 0 <= i < |all| ==> ';' !in all[i]
    ensures forall i :: 0 <= i < |[timestamp] + parts| ==> ';' !in ([timestamp] + parts)[i]
  {
    forall i | 0 < i < |[timestamp] + parts| ensures ([timestamp] + parts)[i] == all[i - 1] {}
  }

  lemma CutSplits(timestamp: string, ds: seq<Declaration>)
    requires ds != [] && ';' !in timestamp
    requires forall i :: 0 <= i < |ds| ==> Renderable(CutLast(ds)[i])
    ensures Split(Cut(timestamp + ";" + FieldsText(ds)), ';') == [timestamp] + Sections(CutLast(ds))
  {
    var n := |ds| - 1;
    var cut := CutLast(ds);
    var parts := [timestamp] + Sections(ds)[..n];
    var last := Section(NulName(ds[n]));
    CutText(timestamp, ds);
    CutSections(ds);
    SectionsClean(cut);
    assert last == Sections(cut)[n];
    PartsClean(timestamp, Sections(ds)[..n], Sections(cut));
    SplitTerminated([], parts, ';', last);
    assert [] + parts == parts;
    SplitWhole(parts, last, ';');
    Reassociate([timestamp], Sections(ds)[..n], [last]);
  }

  lemma CutBodyParses(timestamp: string, ds: seq<Declaration>)
    requires ds != [] && timestamp == "uint64_t timestamp"
    requires forall i :: 0 <= i < |ds| ==> Renderable(CutLast(ds)[i])
    ensures ParseBody(Cut(timestamp + ";" + FieldsText(ds))) == Ok(FieldsOf(CutLast(ds)))
  {
    CutSplits(timestamp, ds);
    TimestampDropped(timestamp);
    FieldsParse(CutLast(ds));
    FieldsCons(timestamp, Sections(CutLast(ds)), None, FieldsOf(CutLast(ds)));
    assert [] + FieldsOf(CutLast(ds)) == FieldsOf(CutLast(ds));
  }

  lemma NamedParses(name: string, body: string, fields: seq<Field>)
    requires ':' !in name && ParseBody(body) == Ok(fields)
    ensures ParseFormat(name + ":" + body) == Ok(Some(Format(name, fields)))
  {
    var text := name + [':'] + body;
    FindAfter(name, ':', body);
    assert text[..|name|] == name && text[|name| + 1..] == body;
  }

  /** What the parser reads back from a registered format: the declared fields, the last one's name
      followed by a NUL. */
  lemma RegisteredFormatParses(name: string, ds: seq<Declaration>)
    requires ds != [] && ':' !in name
    requires forall i :: 0 <= i < |ds| ==> Renderable(CutLast(ds)[i])
    ensures ParseFormat(Cut(RegisteredText(name, FieldsText(ds)))) == Ok(Some(Format(name, FieldsOf(CutLast(ds)))))
  {
    var timestamp := TIMESTAMP[..18];
    var body := Cut(timestamp + ";" + FieldsText(ds));
    assert timestamp + ";" == TIMESTAMP;
    JoinThree(name + ":", TIMESTAMP, FieldsText(ds), TIMESTAMP + FieldsText(ds));
    CutAppend(name + ":", TIMESTAMP + FieldsText(ds));
    CutBodyParses(timestamp, ds);
    NamedParses(name, body, FieldsOf(CutLast(ds)));
  }

  lemma LoneFieldParses(d: Declaration)
    requires Renderable(d)
    ensures ParseBody(Section(d)) == Ok([FieldOf(d)])
  {
    FieldParses(d);
    BaseText(d);
    SplitWhole([], Section(d), ';');
    FieldsCons(Section(d), [], Some(FieldOf(d)), []);
    assert [Section(d)] + [] == [Section(d)] == [] + [Section(d)];
    assert [FieldOf(d)] + [] == [FieldOf(d)];
  }

  /** With no declared field the cut falls on the timestamp itself, which is then read as a field. */
  lemma EmptyFormatParses(name: string)
    requires ':' !in name
    ensures ParseFormat(Cut(RegisteredText(name, ""))) == Ok(Some(Format(name, [Field(UINT64, "timestamp\0", "", 1)])))
  {
    var d := Declaration(UINT64, "", None, "timestamp\0");
    assert Cut(RegisteredText(name, "")) == name + ":" + Section(d);
    LoneFieldParses(d);
    NamedParses(name, Section(d), [FieldOf(d)]);
  }
}
