/** The test program: its definitions are legal and its threads begin their calls in order, so the queue's output, given
    to a parser, is accepted and handed on whole, whatever they store, as often as they like and however they
    interleave. What of it fits the streamer's packets is the business of `TestArrivals`. */
module TestProgram {
  import opened Bytes
  import opened Outcomes
  import opened Text
  import opened FormatText
  import opened FormatRoundTrip
  import Layout
  import LayoutTheorems
  import Samples
  import Parser
  import Encoder
  import Allocation
  import RoundTrips
  import TypeCollisions
  import opened SharedSeries
  import opened Events
  import opened Streams
  import opened EndToEnd
  import opened Callers
  import opened ApiStream
  import Serial
  import opened Exactness
  import opened TestTypes

  // ---- the texts of declarations ----

  /** A declaration of C texts, with an array size of one digit. */
  predicate Small(d: Declaration) {
    RoundTrips.IsCText(d.other) && RoundTrips.IsCText(d.name) && |d.other| <= 20 && |d.name| <= 20 &&
      (d.size.Some? ==> d.size.value < 10)
  }

  lemma CTextAppend(a: string, b: string)
    requires RoundTrips.IsCText(a) && RoundTrips.IsCText(b)
    ensures RoundTrips.IsCText(a + b)
  {
  }

  lemma WordIsCText(t: FieldType)
    ensures RoundTrips.IsCText(Word(t)) && |Word(t)| <= 20
  {
  }

  lemma BracketsAreCText(size: Option<nat>)
    requires size.Some? ==> size.value < 10
    ensures RoundTrips.IsCText(Brackets(size)) && |Brackets(size)| <= 3
  {
    if size.Some? {
      var digits := Dec(size.value);
      assert IsDigit(digits[0]);
      CTextAppend("[", digits);
      CTextAppend("[" + digits, "]");
    }
  }

  lemma SectionIsCText(d: Declaration)
    requires Small(d)
    ensures RoundTrips.IsCText(Section(d)) && |Section(d)| <= 50
  {
    WordIsCText(d.type_);
    BracketsAreCText(d.size);
    CTextAppend(Base(d), Brackets(d.size));
    CTextAppend(Base(d) + Brackets(d.size), " ");
    CTextAppend(Base(d) + Brackets(d.size) + " ", d.name);
  }

  lemma {:induction false} TerminatedIsCText(parts: seq<string>)
    requires forall i :: 0 <= i < |parts| ==> RoundTrips.IsCText(parts[i]) && |parts[i]| <= 50
    ensures RoundTrips.IsCText(Terminated(parts, ';')) && |Terminated(parts, ';')| <= 51 * |parts|
  {
    if parts != [] {
      TerminatedIsCText(parts[1..]);
      CTextAppend(parts[0], ";");
      CTextAppend(parts[0] + ";", Terminated(parts[1..], ';'));
      assert parts[0] + [';'] == parts[0] + ";";
    }
  }

  lemma SectionsAreCText(ds: seq<Declaration>)
    requires forall i :: 0 <= i < |ds| ==> Small(ds[i])
    ensures RoundTrips.IsCText(FieldsText(ds)) && |FieldsText(ds)| <= 51 * |ds|
  {
    forall i | 0 <= i < |ds| ensures RoundTrips.IsCText(Sections(ds)[i]) && |Sections(ds)[i]| <= 50 {
      SectionIsCText(ds[i]);
    }
    TerminatedIsCText(Sections(ds));
  }

  lemma RegisteredIsCText(name: string, fields: string)
    requires RoundTrips.IsCText(name) && RoundTrips.IsCText(fields) && |name| <= 20 && |fields| <= 1020
    ensures RoundTrips.IsCText(RegisteredText(name, fields)) && |RegisteredText(name, fields)| <= 1500
  {
    CTextAppend(name, ":");
    CTextAppend(name + ":", TIMESTAMP);
    CTextAppend(name + ":" + TIMESTAMP, fields);
  }

  // ---- the five registrations ----

  /** A declaration of a builtin type that its text determines. */
  predicate Plain(d: Declaration) {
    Small(d) && Renderable(d) && d.type_ != OTHER && d.type_ != UINT64
  }

  lemma PlainOne(t: FieldType, size: Option<nat>, name: string)
    requires t != OTHER && t != UINT64 && (size.Some? ==> size.value < 10)
    requires RoundTrips.IsCText(name) && 0 < |name| <= 20 && ' ' !in name && ';' !in name
    ensures Plain(Declaration(t, "", size, name))
  {
  }

  /** A format the text of which determines it, up to the last character. */
  predicate Proper(name: string, ds: seq<Declaration>) {
    && RoundTrips.IsCText(name) && |name| <= 20 && ':' !in name && 0 < |ds| <= 20
    && (forall i :: 0 <= i < |ds| ==> Small(ds[i]) && Renderable(ds[i]) && ds[i].type_ != UINT64)
  }

  lemma ProperIsLegal(name: string, ds: seq<Declaration>)
    requires Proper(name, ds)
    ensures Legal(map[], Formatted(name, ds))
  {
    SectionsAreCText(ds);
    RegisteredIsCText(name, FieldsText(ds));
    forall i | 0 <= i < |ds| ensures Renderable(CutLast(ds)[i]) {
      if i == |ds| - 1 { NulStaysName(ds[i].name); }
    }
  }

  lemma NulStaysName(name: string)
    requires FieldName(name)
    ensures FieldName(name + "\0")
  {
  }

  lemma WordsStartLow(t: FieldType)
    ensures t != OTHER ==> Word(t) != "" && Word(t)[0] != 'D'
  {
  }

  /** The declaration of a nested type whose name opens with a capital. */
  predicate NestedDeclaration(d: Declaration) {
    && d.type_ == OTHER && Small(d) && d.other != "" && d.other[0] == 'D' && FieldName(d.name)
    && ' ' !in d.other && ';' !in d.other && '[' !in d.other && ']' !in d.other
  }

  /** Such a name is not taken for a builtin type. */
  lemma CapitalIsNested(d: Declaration)
    requires NestedDeclaration(d)
    ensures Renderable(d)
  {
    BuiltinStarts(d.other);
    WordsStartLow(BuiltinOf(d.other));
  }

  lemma TypeName(name: string)
    requires name in NAMES
    ensures RoundTrips.IsCText(name) && |name| == 9 && ':' !in name && '.' !in name
  {
  }

  lemma PlainIsLegal(name: string, ds: seq<Declaration>)
    requires name in NAMES && 0 < |ds| <= 20 && forall i :: 0 <= i < |ds| ==> Plain(ds[i])
    ensures Legal(map[], Formatted(name, ds))
  {
    TypeName(name);
    ProperIsLegal(name, ds);
  }

  lemma NestedIsLegal(name: string, ds: seq<Declaration>)
    requires name in NAMES && 0 < |ds| <= 20 && forall i :: 0 <= i < |ds| ==> NestedDeclaration(ds[i])
    ensures Legal(map[], Formatted(name, ds))
  {
    TypeName(name);
    forall i | 0 <= i < |ds| ensures Renderable(ds[i]) { CapitalIsNested(ds[i]); }
    ProperIsLegal(name, ds);
  }

  lemma Legal0()
    ensures Legal(map[], Formatted("DataType0", FIELDS0))
  {
    PlainOne(DOUBLE, None, "a");
    PlainOne(UINT32, None, "b");
    PlainOne(INT16, None, "c");
    PlainIsLegal("DataType0", FIELDS0);
  }

  lemma Legal1()
    ensures Legal(map[], Formatted("DataType1", FIELDS1))
  {
    PlainOne(FLOAT, Some(3), "a");
    PlainOne(INT32, Some(4), "b");
    PlainIsLegal("DataType1", FIELDS1);
  }

  lemma Legal2()
    ensures Legal(map[], Formatted("DataType2", FIELDS2))
  {
    PlainOne(DOUBLE, Some(3), "a");
    PlainOne(CHAR, Some(3), "b1");
    PlainOne(CHAR, Some(4), "b2");
    PlainOne(CHAR, Some(5), "b3");
    PlainOne(CHAR, Some(1), "b4");
    PlainOne(BOOL, None, "c");
    PlainIsLegal("DataType2", FIELDS2);
  }

  lemma NestedOne(other: string, size: Option<nat>, name: string)
    requires |other| == 9 && other[0] == 'D' && RoundTrips.IsCText(other) && RoundTrips.IsCText(name) &&
      0 < |name| <= 20
    requires ' ' !in other && ';' !in other && '[' !in other && ']' !in other && ' ' !in name && ';' !in name
    requires size.Some? ==> size.value < 10
    ensures NestedDeclaration(Declaration(OTHER, other, size, name))
  {
  }

  lemma Legal3()
    ensures Legal(map[], Formatted("DataType3", FIELDS3))
  {
    Fields3Nested();
    NestedIsLegal("DataType3", FIELDS3);
  }

  lemma Fields3Nested()
    ensures forall i :: 0 <= i < |FIELDS3| ==> NestedDeclaration(FIELDS3[i])
  {
    NestedOne("DataType0", Some(3), "a");
    NestedOne("DataType1", None, "b");
    NestedOne("DataType2", None, "c");
  }

  lemma Legal4()
    ensures Legal(map[], Formatted("DataType4", FIELDS4))
  {
    NestedOne("DataType3", Some(3), "array");
    NestedIsLegal("DataType4", FIELDS4);
  }

  lemma FormatLegal(defs: seq<Event>, name: string, ds: seq<Declaration>)
    requires DefinitionsLegal(defs) && Legal(map[], Formatted(name, ds))
    ensures DefinitionsLegal(defs + [Formatted(name, ds)])
  {
  }

  lemma FirstTwoLegal(defs: seq<Event>)
    requires DefinitionsLegal(defs)
    ensures DefinitionsLegal(defs + [Formatted("DataType0", FIELDS0)] + [Formatted("DataType1", FIELDS1)])
  {
    Legal0();
    FormatLegal(defs, "DataType0", FIELDS0);
    Legal1();
    FormatLegal(defs + [Formatted("DataType0", FIELDS0)], "DataType1", FIELDS1);
  }

  lemma LastThreeLegal(defs: seq<Event>)
    requires DefinitionsLegal(defs)
    ensures DefinitionsLegal(defs + [Formatted("DataType2", FIELDS2)] + [Formatted("DataType3", FIELDS3)]
                             + [Formatted("DataType4", FIELDS4)])
  {
    Legal2();
    FormatLegal(defs, "DataType2", FIELDS2);
    Legal3();
    FormatLegal(defs + [Formatted("DataType2", FIELDS2)], "DataType3", FIELDS3);
    Legal4();
    FormatLegal(defs + [Formatted("DataType2", FIELDS2)] + [Formatted("DataType3", FIELDS3)], "DataType4", FIELDS4);
  }

  lemma FiveJoin(defs: seq<Event>)
    ensures defs + REGISTRATIONS ==
      defs + [Formatted("DataType0", FIELDS0)] + [Formatted("DataType1", FIELDS1)] + [Formatted("DataType2", FIELDS2)]
      + [Formatted("DataType3", FIELDS3)] + [Formatted("DataType4", FIELDS4)]
  {
  }

  lemma RegistrationsLegal(defs: seq<Event>)
    requires DefinitionsLegal(defs)
    ensures DefinitionsLegal(defs + REGISTRATIONS)
  {
    FirstTwoLegal(defs);
    LastThreeLegal(defs + [Formatted("DataType0", FIELDS0)] + [Formatted("DataType1", FIELDS1)]);
    FiveJoin(defs);
  }

  // ---- the infos and parameters ----

  /** A log file's name fits its info. */
  predicate Lognamed(logname: string) {
    IsByteText(logname) && |Encoder.InfoKey("replay", logname)| + |logname| <= 254
  }

  /** A short info. */
  lemma InfoLegal(defs: seq<Event>, key: string, value: string)
    requires DefinitionsLegal(defs) && RoundTrips.IsCText(key) && 0 < |key| <= 20 && IsByteText(value) && |value| < 10
    ensures DefinitionsLegal(defs + [Informed(key, value)])
  {
    RoundTrips.CStringWhole(key);
    assert |Dec(|value|)| == 1;
  }

  lemma ReplayLegal(defs: seq<Event>, key: string, logname: string)
    requires DefinitionsLegal(defs) && RoundTrips.IsCText(key) && key != "" && IsByteText(logname)
    requires |Encoder.InfoKey(key, logname)| + |logname| <= 254
    ensures DefinitionsLegal(defs + [Informed(key, logname)])
  {
  }

  lemma ParamFits(word: string, name: string, bits: nat)
    requires (word == "int32_t" || word == "float") && RoundTrips.IsCText(word) && ' ' !in word &&
      RoundTrips.IsCText(name) && |name| <= 20
    requires bits < 0x1_0000_0000
    ensures Legal(map[], Parameterised(word + " " + name, bits))
  {
    FindAfter(word, ' ', name);
    assert word + [' '] + name == word + " " + name;
    CTextAppend(word, " ");
    CTextAppend(word + " ", name);
    assert (word + " " + name)[..|word|] == word;
    assert (word + " " + name)[|word|] == ' ';
  }

  lemma ParamLegal(defs: seq<Event>, key: string, word: string, name: string, bits: nat)
    requires key == word + " " + name && (word == "int32_t" || word == "float") && RoundTrips.IsCText(word) &&
      ' ' !in word
    requires RoundTrips.IsCText(name) && |name| <= 20 && bits < 0x1_0000_0000 && DefinitionsLegal(defs)
    ensures DefinitionsLegal(defs + [Parameterised(key, bits)])
  {
    ParamFits(word, name, bits);
  }

  lemma LastParamLegal(defs: seq<Event>)
    requires DefinitionsLegal(defs)
    ensures DefinitionsLegal(defs + LAST_PARAM)
  {
    var key := "float param2";
    assert key[..5] == "float" && key[5..6] == " " && key[6..] == "param2";
    ParamLegal(defs, key, key[..5], key[6..], 0xC040A3D7);
  }

  lemma FirstParamLegal(defs: seq<Event>)
    requires DefinitionsLegal(defs)
    ensures DefinitionsLegal(defs + [Parameterised("int32_t param1", 123)])
  {
    var key := "int32_t param1";
    assert key[..7] == "int32_t" && key[7..8] == " " && key[8..] == "param1";
    ParamLegal(defs, key, key[..7], key[8..], 123);
  }

  lemma FourJoin(a: Event, b: Event, c: Event, d: Event)
    ensures [] + [a] + [b] + [c] + [d] == [a, b, c, d]
  {
  }

  lemma CompanyLegal(defs: seq<Event>)
    requires DefinitionsLegal(defs)
    ensures DefinitionsLegal(defs + [Informed("company", "EDEL LLC")])
  {
    InfoLegal(defs, "company", "EDEL LLC");
  }

  lemma SysNameLegal(defs: seq<Event>)
    requires DefinitionsLegal(defs)
    ensures DefinitionsLegal(defs + [Informed("sys_name", "RBPi4")])
  {
    InfoLegal(defs, "sys_name", "RBPi4");
  }

  lemma InfosLegal(logname: string)
    requires Lognamed(logname)
    ensures DefinitionsLegal([] + [Informed("company", "EDEL LLC")] + [Informed("sys_name", "RBPi4")]
                             + [Informed("replay", logname)])
  {
    var none: seq<Event> := [];
    CompanyLegal(none);
    SysNameLegal(none + [Informed("company", "EDEL LLC")]);
    ReplayLegal(none + [Informed("company", "EDEL LLC")] + [Informed("sys_name", "RBPi4")], "replay", logname);
  }

  lemma PropertiesLegal(logname: string)
    requires Lognamed(logname)
    ensures DefinitionsLegal(Properties(logname))
  {
    InfosLegal(logname);
    FirstParamLegal([] + [Informed("company", "EDEL LLC")] + [Informed("sys_name", "RBPi4")]
                    + [Informed("replay", logname)]);
    FourJoin(Informed("company", "EDEL LLC"), Informed("sys_name", "RBPi4"), Informed("replay", logname),
             Parameterised("int32_t param1", 123));
  }

  /** Everything the program registers is legal. */
  lemma ProgramLegal(logname: string)
    requires Lognamed(logname)
    ensures DefinitionsLegal(Definitions(logname))
  {
    PropertiesLegal(logname);
    RegistrationsLegal(Properties(logname));
    LastParamLegal(Properties(logname) + REGISTRATIONS);
  }

  // ---- its formats ----

  const RANK: map<string, nat> :=
    map["DataType0" := 0, "DataType1" := 0, "DataType2" := 0, "DataType3" := 1, "DataType4" := 2]

  lemma FlatRanked(fm: Layout.Formats, ds: seq<Declaration>, bound: nat)
    requires ds != [] && forall i :: 0 <= i < |ds| ==> ds[i].type_ != OTHER && Small(ds[i])
    ensures LayoutTheorems.FieldsRanked(fm, RANK, RegisteredFields(ds), bound)
  {
  }

  lemma TypesRanked(fm: Layout.Formats)
    requires HasTypes(fm) && fm.Keys == NAMES
    ensures LayoutTheorems.Ranked(fm, RANK)
  {
    FlatRanked(fm, FIELDS0, 0);
    FlatRanked(fm, FIELDS1, 0);
    FlatRanked(fm, FIELDS2, 0);
    NestedRanked(fm);
  }

  lemma NestedRanked(fm: Layout.Formats)
    requires fm.Keys == NAMES
    ensures LayoutTheorems.FieldsRanked(fm, RANK, RegisteredFields(FIELDS3), 1) &&
      LayoutTheorems.FieldsRanked(fm, RANK, RegisteredFields(FIELDS4), 2)
  {
  }

  lemma DottedApart(n: string)
    requires '.' in n
    ensures n !in NAMES
  {
  }

  lemma NamesApart(fm: Layout.Formats, bound: nat)
    requires fm.Keys == NAMES
    ensures NoMixup(fm, bound)
  {
    forall m, k | 0 <= k < bound ensures TypeCollisions.Suffixed(m, k) !in fm {
      assert TypeCollisions.Suffixed(m, k)[|m|] == '.';
      DottedApart(TypeCollisions.Suffixed(m, k));
    }
  }

  // ---- what its threads do ----

  /** `data` is some value of type `n`, serialized. */
  ghost predicate IsSample(fm: Layout.Formats, n: string, data: seq<byte>) {
    exists items :: Serializes(fm, n, data, items)
  }

  /** A thread stores a serialized value of a registered type, or logs a message after it has stored a value. */
  ghost predicate ThreadCall(w: World, fm: Layout.Formats, call: Call) {
    match call
    case Store(name, _, timestamp, data) => IsSample(fm, name, data) && |data| <= 1500 && timestamp < Pow256(8)
    case Say(e) =>
      e.Logged? && Legal(map[], e) &&
      exists i :: 0 <= i < |w.callers| && w.callers[i].call.Store? && w.callers[i].stage.Returned?
  }

  /** The program up to the start of its threads. */
  function Prologue(logname: string): seq<Step> {
    Serial.SerialSteps(Says(Definitions(logname)))
  }

  /** The steps of its threads, interleaved at will. */
  ghost predicate ThreadSteps(logname: string, steps: seq<Step>) {
    steps != [] ==>
      var before, s := steps[..|steps| - 1], steps[|steps| - 1];
      ThreadSteps(logname, before) &&
      (s.Begin? ==> ThreadCall(Run(Prologue(logname) + before), FormatsIn(Definitions(logname)), s.call))
  }

  /** A serialized value is as long as its type needs. */
  lemma SerializedSize(fm: Layout.Formats, rank: map<string, nat>, n: string, data: seq<byte>, items: seq<Samples.Item>)
    requires LayoutTheorems.Ranked(fm, rank) && Serializes(fm, n, data, items)
    ensures 8 + SampleSize(fm, n) == |data|
  {
    var message := Zeros(10) + Samples.Encode(items);
    assert message[10..] == Samples.Encode(items);
    LeavesRead(fm, rank, n, items, message);
  }

  lemma StoreLegal(fm: Layout.Formats, name: string, timestamp: nat, data: seq<byte>)
    requires LayoutTheorems.Ranked(fm, RANK) && fm.Keys == NAMES && IsSample(fm, name, data) && |data| <= 1500 &&
      timestamp < Pow256(8)
    ensures name in NAMES && Legal(fm, Sampled(name, 0, timestamp, data))
  {
    var items :| Serializes(fm, name, data, items);
    assert name in fm.Keys;
    TypeName(name);
    SerializedSize(fm, RANK, name, data, items);
  }

  /** What is so while the threads run: nothing is being registered, only the five types are stored, and a store that
      has returned has enqueued its sample. */
  predicate Threaded(w: World, fm: Layout.Formats) {
    && FormatsIn(w.events) == fm && AllRegistered(w)
    && (forall i :: 0 <= i < |w.callers| && w.callers[i].call.Store? ==> w.callers[i].call.typeName in NAMES)
    && (forall i :: 0 <= i < |w.names| ==> w.names[i] in NAMES)
    && (forall i :: 0 <= i < |w.callers| && w.callers[i].call.Store? && w.callers[i].stage.Returned? ==>
          Started(w.events))
  }

  lemma ThreadMayBegin(w: World, fm: Layout.Formats, call: Call)
    requires Threaded(w, fm) && LayoutTheorems.Ranked(fm, RANK) && fm.Keys == NAMES && ThreadCall(w, fm, call)
    ensures MayBegin(w, call) && Threaded(Take(w, Begin(call)), fm)
  {
    if call.Store? { StoreLegal(fm, call.typeName, call.timestamp, call.data); }
    var v := Take(w, Begin(call));
    forall i | 0 <= i < |v.callers| && v.callers[i].call.Store?
      ensures v.callers[i].call.typeName in NAMES && (v.callers[i].stage.Returned? ==> Started(v.events))
    {
      if i < |w.callers| { assert v.callers[i] == w.callers[i]; }
    }
  }

  lemma MovedThreaded(w: World, v: World, fm: Layout.Formats, i: nat, stage: Stage)
    requires Threaded(w, fm) && i < |w.callers| && v.callers == Moved(w.callers, i, stage)
    requires FormatsIn(v.events) == fm && (Started(w.events) ==> Started(v.events))
    requires forall j :: 0 <= j < |v.names| ==> v.names[j] in NAMES
    requires Registers(w.callers[i]) ==> stage.Returned?
    requires w.callers[i].call.Store? && stage.Returned? ==> Started(v.events)
    ensures Threaded(v, fm)
  {
    forall j | 0 <= j < |v.callers|
      ensures v.callers[j].call == w.callers[j].call && (j != i ==> v.callers[j] == w.callers[j])
    {
    }
  }

  lemma EnqueueThreaded(w: World, fm: Layout.Formats, i: nat, msgId: nat, multiId: nat)
    requires Threaded(w, fm) && CallersLegal(w) && i < |w.callers| && w.callers[i].stage == EnqueueNext(msgId, multiId)
    ensures Threaded(Enqueue(w, i, Built(w.callers[i].call, msgId, multiId)), fm)
  {
    var call := w.callers[i].call;
    assert CallerLegal(w.events, w.callers[i]) && !Registers(w.callers[i]);
    var m := Built(call, msgId, multiId);
    if call.Store? { Serial.StoreBuilt(fm, call, msgId, multiId); }
    if m.Some? { LastOf(w.events, m.value.1); }
    MovedThreaded(w, Enqueue(w, i, m), fm, i, Returned);
  }

  lemma AdvanceThreaded(w: World, fm: Layout.Formats, i: nat)
    requires Threaded(w, fm) && CallersLegal(w)
    ensures Threaded(Take(w, Advance(i)), fm)
  {
    if i < |w.callers| {
      var v := Take(w, Advance(i));
      match w.callers[i].stage {
        case MsgIdNext => if w.callers[i].call.Store? { MovedThreaded(w, v, fm, i, v.callers[i].stage); }
        case MultiIdNext(id) => if w.callers[i].call.Store? { MovedThreaded(w, v, fm, i, v.callers[i].stage); }
        case EnqueueNext(id, multi) => EnqueueThreaded(w, fm, i, id, multi);
        case Returned =>
      }
    }
  }

  lemma SaysThreaded(defs: seq<Event>)
    requires DefinitionsLegal(defs)
    ensures var steps := Serial.SerialSteps(Says(defs)); Disciplined(steps) && Threaded(Run(steps), FormatsIn(defs))
  {
    SaysRun(defs);
  }

  lemma PrologueThreaded(logname: string)
    requires Lognamed(logname)
    ensures Disciplined(Prologue(logname)) && Threaded(Run(Prologue(logname)), FormatsIn(Definitions(logname)))
  {
    ProgramLegal(logname);
    SaysThreaded(Definitions(logname));
  }

  /** However the threads interleave, their calls begin in order. */
  lemma {:induction false} ThreadsDisciplined(logname: string, steps: seq<Step>)
    requires Lognamed(logname) && ThreadSteps(logname, steps)
    ensures Disciplined(Prologue(logname) + steps)
    ensures Threaded(Run(Prologue(logname) + steps), FormatsIn(Definitions(logname)))
  {
    if steps == [] {
      assert Prologue(logname) + steps == Prologue(logname);
      PrologueThreaded(logname);
    } else {
      var before, s := steps[..|steps| - 1], steps[|steps| - 1];
      ThreadsDisciplined(logname, before);
      StepThreaded(logname, Prologue(logname) + before, s);
      assert Prologue(logname) + steps == Prologue(logname) + before + [s];
    }
  }

  lemma StepThreaded(logname: string, before: seq<Step>, s: Step)
    requires Disciplined(before) && Threaded(Run(before), FormatsIn(Definitions(logname)))
    requires s.Begin? ==> ThreadCall(Run(before), FormatsIn(Definitions(logname)), s.call)
    ensures Disciplined(before + [s]) && Threaded(Run(before + [s]), FormatsIn(Definitions(logname)))
  {
    var w, fm := Run(before), FormatsIn(Definitions(logname));
    DefinitionsRegister(logname);
    TypesRanked(fm);
    Serial.RunNext(before, s);
    match s {
      case Begin(call) => ThreadMayBegin(w, fm, call);
      case Advance(i) =>
        DisciplineKeepsOrder(before);
        AdvanceThreaded(w, fm, i);
    }
    DisciplineNext(before, s);
  }

  lemma ThreadedDelivered(start: nat, steps: seq<Step>, fm: Layout.Formats, samples: seq<seq<Samples.Item>>,
                          checked: bool)
    requires start < Pow256(8) && Disciplined(steps) && Threaded(Run(steps), fm) &&
      LayoutTheorems.Ranked(fm, RANK) && fm.Keys == NAMES
    requires AllSerialize(fm, Run(steps).events, samples)
    ensures Accepted(Parser.NewParser(), Output(start, Run(steps)), checked)
    ensures var r := FeedAll(Parser.NewParser(), Output(start, Run(steps)), checked);
      r.Ok? && r.value.delivered == Repeated(Deliveries(fm, Run(steps).events, samples), checked)
  {
    NamesApart(fm, INSTANCES);
    NoMixupNoClash(fm, INSTANCES);
    Allocation.FewNames(Run(steps).names, NAMES);
    StreamAccepted(start, steps, RANK, checked);
    DisciplineKeepsOrder(steps);
    OutputDelivered(start, steps, RANK, samples, checked);
  }

  /** Whatever values of its types the test program stores, under whatever annotations and however its threads
      interleave: a parser that is given the queue's output, message by message, accepts it and hands on exactly
      those values. */
  lemma TestProgramDelivered(start: nat, logname: string, steps: seq<Step>, samples: seq<seq<Samples.Item>>,
                             checked: bool)
    requires start < Pow256(8) && Lognamed(logname) && ThreadSteps(logname, steps)
    requires var w := Run(Prologue(logname) + steps); AllSerialize(FormatsIn(w.events), w.events, samples)
    ensures Accepted(Parser.NewParser(), Output(start, Run(Prologue(logname) + steps)), checked)
    ensures var w := Run(Prologue(logname) + steps); var r := FeedAll(Parser.NewParser(), Output(start, w), checked);
      r.Ok? && r.value.delivered == Repeated(Deliveries(FormatsIn(w.events), w.events, samples), checked)
  {
    var fm := FormatsIn(Definitions(logname));
    ThreadsDisciplined(logname, steps);
    DefinitionsRegister(logname);
    TypesRanked(fm);
    ThreadedDelivered(start, Prologue(logname) + steps, fm, samples, checked);
  }
}
