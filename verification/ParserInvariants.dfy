/** What every parser run keeps, whatever buffers it is given. */
module ParserInvariants {
  import opened Bytes
  import opened Outcomes
  import FormatText
  import opened Layout
  import LayoutWalks
  import opened LayoutTheorems
  import opened Parser

  /** The parser after a run over `buffers`. */
  function ParseAll(p: Parser, buffers: seq<seq<byte>>): Result<Parser> {
    if buffers == [] then Ok(p)
    else
      var q :- ParseAll(p, buffers[..|buffers| - 1]);
      Parse(q, buffers[|buffers| - 1])
  }

  // ---- a data walk that succeeds follows the flattened layout ----

  lemma {:induction false} FillFlattens(fm: Formats, open: set<string>, fields: seq<FormatText.Field>,
                                        message: seq<byte>, w: Walk)
    requires FillFields(fm, open, fields, message, w).Ok?
    ensures Flatten(fm, open, fields).Ok?
    decreases open, 2, |fields|
  {
    if fields != [] {
      if !IsPadding(fields[0]) { FillArrayFlattens(fm, open, fields[0], 0, message, w); }
      FillFlattens(fm, open, fields[1..], message, FillField(fm, open, fields[0], message, w).value);
    }
  }

  lemma {:induction false} FillArrayFlattens(fm: Formats, open: set<string>, f: FormatText.Field, i: nat,
                                             message: seq<byte>, w: Walk)
    requires FillArray(fm, open, f, i, message, w).Ok?
    ensures FlattenArray(fm, open, f, i).Ok?
    decreases open, 1, f.arraySize - i
  {
    if i < f.arraySize {
      FillElementFlattens(fm, open, f, message, w);
      FillArrayFlattens(fm, open, f, i + 1, message, FillElement(fm, open, f, message, w).value);
    }
  }

  lemma {:induction false} FillElementFlattens(fm: Formats, open: set<string>, f: FormatText.Field,
                                               message: seq<byte>, w: Walk)
    requires FillElement(fm, open, f, message, w).Ok?
    ensures FlattenElement(fm, open, f).Ok?
    decreases open, 0
  {
    if f.type_ == FormatText.OTHER {
      FillFlattens(fm, open - {f.other}, fm[f.other].fields, message, w.(pos := w.pos + 8));
    }
  }

  /** What a successful walk from column 0 did: one value into each of the first columns. */
  lemma FillWrites(fm: Formats, fields: seq<FormatText.Field>, message: seq<byte>, data: seq<Column>)
    requires FillFields(fm, fm.Keys, fields, message, Walk(data, 10, 0)).Ok?
    ensures var slots := Flatten(fm, fm.Keys, fields);
      slots.Ok? && SlotValues(slots.value, message, 10).Ok? && Reads(slots.value) <= |data| &&
      |SlotValues(slots.value, message, 10).value| == Reads(slots.value) &&
      FillFields(fm, fm.Keys, fields, message, Walk(data, 10, 0)).value.data ==
        Overwrite(data, 0, SlotValues(slots.value, message, 10).value)
  {
    FillFlattens(fm, fm.Keys, fields, message, Walk(data, 10, 0));
    var slots := Flatten(fm, fm.Keys, fields).value;
    FillFollows(fm, fm.Keys, fields, message, Walk(data, 10, 0));
    FillSlotsEffect(slots, message, Walk(data, 10, 0));
    SlotValuesCount(slots, message, 10);
  }

  // ---- formats are frozen ----

  /** Once subscriptions can exist no buffer changes the formats. */
  lemma FormatsFrozen(p: Parser, buffer: seq<byte>)
    requires p.state == DEFINITION_OR_DATA && Parse(p, buffer).Ok?
    ensures Frozen(p, Parse(p, buffer).value)
  {
    var h := HeaderAt(buffer, 0).value;
    match h.type_ {
      case 'A' => AddFrozen(p, buffer, h.size);
      case 'D' => DataMessageFrozen(p, buffer[3..]);
      case 'I' => InfoFrozen(p, buffer[3..], h.size);
      case 'P' => ParamFrozen(p, buffer[3..]);
      case 'L' => LoggedFrozen(p, buffer[3..], h.size);
      case _ =>
    }
  }

  predicate Frozen(p: Parser, q: Parser) {
    q.formats == p.formats && (q.state == DEFINITION_OR_DATA || q.state == INVALID)
  }

  lemma DataMessageFrozen(p: Parser, message: seq<byte>)
    requires ParseDataMessage(p, message).Ok?
    ensures Frozen(p, ParseDataMessage(p, message).value)
  {
  }

  lemma AddFrozen(p: Parser, buffer: seq<byte>, size: nat)
    requires |buffer| >= 3 && ParseAddThenData(p, buffer, size).Ok?
    ensures Frozen(p, ParseAddThenData(p, buffer, size).value)
  {
    var added := ParseAdd(p, buffer[3..], size).value;
    if HeaderAt(buffer, 3 + size).value.type_ == 'D' { DataMessageFrozen(added, buffer[size + 6..]); }
  }

  lemma InfoFrozen(p: Parser, message: seq<byte>, size: nat)
    requires p.state == DEFINITION_OR_DATA && ParseInfo(p, message, size).Ok?
    ensures Frozen(p, ParseInfo(p, message, size).value)
  {
  }

  lemma ParamFrozen(p: Parser, message: seq<byte>)
    requires p.state == DEFINITION_OR_DATA && ParseParam(p, message).Ok?
    ensures Frozen(p, ParseParam(p, message).value)
  {
  }

  lemma LoggedFrozen(p: Parser, message: seq<byte>, size: nat)
    requires ParseLogged(p, message, size).Ok?
    ensures Frozen(p, ParseLogged(p, message, size).value)
  {
  }

  // ---- series ----

  /** One timestamp and one value in every column. */
  predicate OneEach(s: Series) {
    |s.timestamps| == 1 && forall i :: 0 <= i < |s.data| ==> |s.data[i].values| == 1
  }

  /** Every subscription with a format agrees with the parser's format of its name. */
  predicate FormatsAgree(p: Parser) {
    forall id :: id in p.subscriptions ==> Agrees(p.formats, p.subscriptions[id])
  }

  predicate Agrees(fm: Formats, sub: Subscription) {
    sub.multiId < 256 && (sub.format.Some? ==> sub.name in fm && fm[sub.name] == sub.format.value)
  }

  predicate AllOneEach(p: Parser) {
    forall ts :: ts in p.timeseries ==> OneEach(p.timeseries[ts])
  }

  /** Nothing is subscribed or stored before the data section. */
  predicate EarlyEmpty(p: Parser) {
    p.state != DEFINITION_OR_DATA && p.state != INVALID ==> p.subscriptions == map[] && p.timeseries == map[]
  }

  /** What every run keeps. */
  predicate Coherent(p: Parser) {
    EarlyEmpty(p) && FormatsAgree(p) && AllOneEach(p)
  }

  lemma FillSeriesOneEach(p: Parser, name: string, format: FormatText.Format, message: seq<byte>)
    requires AllOneEach(p) && FillSeries(p, name, format, message).Ok?
    ensures AllOneEach(FillSeries(p, name, format, message).value)
  {
    var columns := SeriesColumns(p, name, format).value;
    FillWrites(p.formats, format.fields, message, columns);
    if name !in p.timeseries {
      NamesFollow(p.formats, p.formats.Keys, format.fields, "");
      FillNew(p.formats, format, message, columns);
    }
  }

  /** A fresh series is filled to its last column. */
  lemma FillNew(fm: Formats, format: FormatText.Format, message: seq<byte>, columns: seq<Column>)
    requires LayoutWalks.EmptyColumns(ColumnNames(fm, fm.Keys, format.fields, "")) == Ok(columns)
    requires FillFields(fm, fm.Keys, format.fields, message, Walk(columns, 10, 0)).Ok?
    ensures var data := FillFields(fm, fm.Keys, format.fields, message, Walk(columns, 10, 0)).value.data;
      forall i :: 0 <= i < |data| ==> |data[i].values| == 1
  {
    NamesFollow(fm, fm.Keys, format.fields, "");
    FillWrites(fm, format.fields, message, columns);
  }

  /** A sample never meets an empty column: `get_latest_data` always has a last element. */
  lemma LatestDefined(p: Parser, name: string, format: FormatText.Format, message: seq<byte>)
    requires AllOneEach(p) && SeriesColumns(p, name, format).Ok?
    requires var w := Walk(SeriesColumns(p, name, format).value, 10, 0);
      FillFields(p.formats, p.formats.Keys, format.fields, message, w).Ok?
    ensures Complete(FillFields(p.formats, p.formats.Keys, format.fields, message,
                                Walk(SeriesColumns(p, name, format).value, 10, 0)).value.data)
  {
    var columns := SeriesColumns(p, name, format).value;
    FillWrites(p.formats, format.fields, message, columns);
    if name !in p.timeseries { FillNew(p.formats, format, message, columns); }
  }

  lemma DataMessageCoherent(p: Parser, message: seq<byte>)
    requires FormatsAgree(p) && AllOneEach(p) && ParseDataMessage(p, message).Ok?
    ensures Coherent(ParseDataMessage(p, message).value)
  {
    var msgId := NumberAt(message, 0, 2).value;
    if msgId in p.subscriptions {
      var sub := p.subscriptions[msgId];
      FillSeriesOneEach(p, SeriesName(p, sub), sub.format.value, message);
    }
  }

  lemma ByteIsSmall(message: seq<byte>)
    ensures NumberAt(message, 0, 1).Ok? ==> NumberAt(message, 0, 1).value < 256
  {
    if message != [] {
      assert message[0..1] == [message[0]];
      assert FromLe([message[0]][1..]) == 0;
    }
  }

  lemma AddCoherent(p: Parser, buffer: seq<byte>, size: nat)
    requires Coherent(p) && |buffer| >= 3 && ParseAddThenData(p, buffer, size).Ok?
    ensures Coherent(ParseAddThenData(p, buffer, size).value)
  {
    var added := ParseAdd(p, buffer[3..], size).value;
    ByteIsSmall(buffer[3..]);
    assert FormatsAgree(added) && AllOneEach(added);
    var next := HeaderAt(buffer, 3 + size).value;
    if next.type_ == 'D' { DataMessageCoherent(added, buffer[size + 6..]); }
  }

  lemma InfoCoherent(p: Parser, message: seq<byte>, size: nat)
    requires Coherent(p) && ParseInfo(p, message, size).Ok?
    ensures Coherent(ParseInfo(p, message, size).value)
  {
  }

  lemma ParamCoherent(p: Parser, message: seq<byte>)
    requires Coherent(p) && ParseParam(p, message).Ok?
    ensures Coherent(ParseParam(p, message).value)
  {
  }

  lemma LoggedCoherent(p: Parser, message: seq<byte>, size: nat)
    requires Coherent(p) && ParseLogged(p, message, size).Ok?
    ensures Coherent(ParseLogged(p, message, size).value)
  {
  }

  lemma RemoveCoherent(p: Parser, message: seq<byte>)
    requires Coherent(p) && ParseRemove(p, message).Ok?
    ensures Coherent(ParseRemove(p, message).value)
  {
  }

  lemma FormatMessageCoherent(p: Parser, message: seq<byte>, size: nat)
    requires Coherent(p) && p.state == DEFINITION && ParseFormatMessage(p, message, size).Ok?
    ensures Coherent(ParseFormatMessage(p, message, size).value)
  {
  }

  lemma DefinitionCoherent(p: Parser, buffer: seq<byte>)
    requires Coherent(p) && p.state == DEFINITION && ParseDefinition(p, buffer).Ok?
    ensures Coherent(ParseDefinition(p, buffer).value)
  {
    var h := HeaderAt(buffer, 0).value;
    match h.type_ {
      case 'A' => AddCoherent(p, buffer, h.size);
      case 'I' => InfoCoherent(p, buffer[3..], h.size);
      case 'P' => ParamCoherent(p, buffer[3..]);
      case 'F' => FormatMessageCoherent(p, buffer[3..], h.size);
      case _ =>
    }
  }

  lemma DataCoherent(p: Parser, buffer: seq<byte>)
    requires Coherent(p) && p.state == DEFINITION_OR_DATA && ParseData(p, buffer).Ok?
    ensures Coherent(ParseData(p, buffer).value)
  {
    var h := HeaderAt(buffer, 0).value;
    match h.type_ {
      case 'A' => AddCoherent(p, buffer, h.size);
      case 'D' => DataMessageCoherent(p, buffer[3..]);
      case 'I' => InfoCoherent(p, buffer[3..], h.size);
      case 'P' => ParamCoherent(p, buffer[3..]);
      case 'L' => LoggedCoherent(p, buffer[3..], h.size);
      case 'R' => RemoveCoherent(p, buffer[3..]);
      case _ =>
    }
  }

  lemma ParseCoherent(p: Parser, buffer: seq<byte>)
    requires Coherent(p) && Parse(p, buffer).Ok?
    ensures Coherent(Parse(p, buffer).value)
  {
    match p.state {
      case DEFINITION => DefinitionCoherent(p, buffer);
      case DEFINITION_OR_DATA => DataCoherent(p, buffer);
      case HEADER => case FLAGS => case INVALID =>
    }
  }

  /** In every run each subscription's format stays the parser's format of its name, and each stored series
      holds exactly one timestamp and one value per column. */
  lemma {:induction false} RunsCoherent(buffers: seq<seq<byte>>)
    requires ParseAll(NewParser(), buffers).Ok?
    ensures Coherent(ParseAll(NewParser(), buffers).value)
  {
    if buffers != [] {
      RunsCoherent(buffers[..|buffers| - 1]);
      ParseCoherent(ParseAll(NewParser(), buffers[..|buffers| - 1]).value, buffers[|buffers| - 1]);
    }
  }
}
