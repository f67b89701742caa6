/** A message that is parsed is parsed alike whatever bytes lie behind it, as in the client's payload buffer. */
module Tails {
  import opened Bytes
  import FormatText
  import opened Layout
  import opened Parser
  import Events

  lemma SlicesStay(m: seq<byte>, t: seq<byte>, i: nat, j: nat)
    requires i <= j <= |m|
    ensures (m + t)[i..j] == m[i..j] && (m + t)[j..] == m[j..] + t
  {
  }

  // ---- reading ----

  lemma NumberTail(m: seq<byte>, t: seq<byte>, pos: nat, width: nat)
    requires NumberAt(m, pos, width).Ok?
    ensures NumberAt(m + t, pos, width) == NumberAt(m, pos, width)
  {
    SlicesStay(m, t, pos, pos + width);
  }

  lemma TextTail(m: seq<byte>, t: seq<byte>, pos: nat, n: nat)
    requires TextAt(m, pos, n).Ok?
    ensures TextAt(m + t, pos, n) == TextAt(m, pos, n)
  {
    SlicesStay(m, t, pos, pos + n);
  }

  lemma HeaderTail(m: seq<byte>, t: seq<byte>, pos: nat)
    requires HeaderAt(m, pos).Ok?
    ensures HeaderAt(m + t, pos) == HeaderAt(m, pos)
  {
    SlicesStay(m, t, pos, pos + 2);
  }

  // ---- the data walk ----

  lemma {:induction false} FieldsTail(fm: Formats, open: set<string>, fields: seq<FormatText.Field>, m: seq<byte>,
                                      t: seq<byte>, w: Walk)
    requires FillFields(fm, open, fields, m, w).Ok?
    ensures FillFields(fm, open, fields, m + t, w) == FillFields(fm, open, fields, m, w)
    decreases open, 2, |fields|
  {
    if fields != [] {
      if !IsPadding(fields[0]) { ArrayTail(fm, open, fields[0], 0, m, t, w); }
      FieldsTail(fm, open, fields[1..], m, t, FillField(fm, open, fields[0], m, w).value);
    }
  }

  lemma {:induction false} ArrayTail(fm: Formats, open: set<string>, f: FormatText.Field, i: nat, m: seq<byte>,
                                     t: seq<byte>, w: Walk)
    requires FillArray(fm, open, f, i, m, w).Ok?
    ensures FillArray(fm, open, f, i, m + t, w) == FillArray(fm, open, f, i, m, w)
    decreases open, 1, f.arraySize - i
  {
    if i < f.arraySize {
      ElementTail(fm, open, f, m, t, w);
      ArrayTail(fm, open, f, i + 1, m, t, FillElement(fm, open, f, m, w).value);
    }
  }

  lemma {:induction false} ElementTail(fm: Formats, open: set<string>, f: FormatText.Field, m: seq<byte>,
                                       t: seq<byte>, w: Walk)
    requires FillElement(fm, open, f, m, w).Ok?
    ensures FillElement(fm, open, f, m + t, w) == FillElement(fm, open, f, m, w)
    decreases open, 0
  {
    if f.type_ == FormatText.OTHER {
      FieldsTail(fm, open - {f.other}, fm[f.other].fields, m, t, w.(pos := w.pos + 8));
    } else {
      SlicesStay(m, t, w.pos, w.pos + Width(f.type_));
    }
  }

  // ---- the messages ----

  lemma HeaderMessageTail(p: Parser, m: seq<byte>, t: seq<byte>)
    requires ParseHeader(p, m).Ok?
    ensures ParseHeader(p, m + t) == ParseHeader(p, m)
  {
    SlicesStay(m, t, 0, 7);
    if m[..7] == MAGIC { NumberTail(m, t, 8, 8); }
  }

  lemma FlagsTail(p: Parser, m: seq<byte>, t: seq<byte>)
    requires ParseFlags(p, m).Ok?
    ensures ParseFlags(p, m + t) == ParseFlags(p, m)
  {
    HeaderTail(m, t, 0);
    if HeaderAt(m, 0).value.type_ == 'B' { SlicesStay(m, t, 11, 19); }
  }

  lemma InfoTail(p: Parser, m: seq<byte>, t: seq<byte>, size: nat)
    requires ParseInfo(p, m, size).Ok?
    ensures ParseInfo(p, m + t, size) == ParseInfo(p, m, size)
  {
    NumberTail(m, t, 0, 1);
    var keyLen := NumberAt(m, 0, 1).value;
    TextTail(m, t, 1, keyLen);
    if size >= keyLen + 1 && TextAt(m, 1 + keyLen, size - keyLen - 1).Ok? {
      TextTail(m, t, 1 + keyLen, size - keyLen - 1);
    }
  }

  lemma FormatTail(p: Parser, m: seq<byte>, t: seq<byte>, size: nat)
    requires ParseFormatMessage(p, m, size).Ok?
    ensures ParseFormatMessage(p, m + t, size) == ParseFormatMessage(p, m, size)
  {
    TextTail(m, t, 0, size);
  }

  lemma ParamTail(p: Parser, m: seq<byte>, t: seq<byte>)
    requires ParseParam(p, m).Ok?
    ensures ParseParam(p, m + t) == ParseParam(p, m)
  {
    NumberTail(m, t, 0, 1);
    var keyLen := NumberAt(m, 0, 1).value;
    TextTail(m, t, 1, keyLen);
    if NumberAt(m, 1 + keyLen, 4).Ok? { NumberTail(m, t, 1 + keyLen, 4); }
  }

  lemma AddTail(p: Parser, m: seq<byte>, t: seq<byte>, size: nat)
    requires ParseAdd(p, m, size).Ok?
    ensures ParseAdd(p, m + t, size) == ParseAdd(p, m, size)
  {
    NumberTail(m, t, 0, 1);
    NumberTail(m, t, 1, 2);
    TextTail(m, t, 3, size - 3);
  }

  lemma DataTail(p: Parser, m: seq<byte>, t: seq<byte>)
    requires ParseDataMessage(p, m).Ok?
    ensures ParseDataMessage(p, m + t) == ParseDataMessage(p, m)
  {
    NumberTail(m, t, 0, 2);
    var id := NumberAt(m, 0, 2).value;
    if id in p.subscriptions {
      var sub := p.subscriptions[id];
      SeriesTail(p, SeriesName(p, sub), sub.format.value, m, t);
    }
  }

  lemma SeriesTail(p: Parser, name: string, format: FormatText.Format, m: seq<byte>, t: seq<byte>)
    requires FillSeries(p, name, format, m).Ok?
    ensures FillSeries(p, name, format, m + t) == FillSeries(p, name, format, m)
  {
    NumberTail(m, t, 2, 8);
    var columns := SeriesColumns(p, name, format).value;
    FieldsTail(p.formats, p.formats.Keys, format.fields, m, t, Walk(columns, 10, 0));
  }

  lemma LoggedTail(p: Parser, m: seq<byte>, t: seq<byte>, size: nat)
    requires ParseLogged(p, m, size).Ok?
    ensures ParseLogged(p, m + t, size) == ParseLogged(p, m, size)
  {
    NumberTail(m, t, 0, 1);
    NumberTail(m, t, 1, 8);
    TextTail(m, t, 9, size - 9);
  }

  lemma RemoveTail(p: Parser, m: seq<byte>, t: seq<byte>)
    requires ParseRemove(p, m).Ok?
    ensures ParseRemove(p, m + t) == ParseRemove(p, m)
  {
    NumberTail(m, t, 0, 2);
  }

  lemma AddThenDataTail(p: Parser, m: seq<byte>, t: seq<byte>, size: nat)
    requires |m| >= 3 && ParseAddThenData(p, m, size).Ok?
    ensures ParseAddThenData(p, m + t, size) == ParseAddThenData(p, m, size)
  {
    SlicesStay(m, t, 0, 3);
    AddTail(p, m[3..], t, size);
    HeaderTail(m, t, 3 + size);
    if HeaderAt(m, 3 + size).value.type_ == 'D' {
      SlicesStay(m, t, 0, size + 6);
      DataTail(ParseAdd(p, m[3..], size).value, m[size + 6..], t);
    }
  }

  lemma DefinitionTail(p: Parser, m: seq<byte>, t: seq<byte>)
    requires ParseDefinition(p, m).Ok?
    ensures ParseDefinition(p, m + t) == ParseDefinition(p, m)
  {
    HeaderTail(m, t, 0);
    SlicesStay(m, t, 0, 3);
    var size := HeaderAt(m, 0).value.size;
    match HeaderAt(m, 0).value.type_ {
      case 'I' => InfoTail(p, m[3..], t, size);
      case 'F' => FormatTail(p, m[3..], t, size);
      case 'P' => ParamTail(p, m[3..], t);
      case 'A' => AddThenDataTail(p, m, t, size);
      case _ =>
    }
  }

  lemma DataSectionTail(p: Parser, m: seq<byte>, t: seq<byte>)
    requires ParseData(p, m).Ok?
    ensures ParseData(p, m + t) == ParseData(p, m)
  {
    HeaderTail(m, t, 0);
    SlicesStay(m, t, 0, 3);
    var size := HeaderAt(m, 0).value.size;
    match HeaderAt(m, 0).value.type_ {
      case 'A' => AddThenDataTail(p, m, t, size);
      case 'D' => DataTail(p, m[3..], t);
      case 'L' => LoggedTail(p, m[3..], t, size);
      case 'I' => InfoTail(p, m[3..], t, size);
      case 'P' => ParamTail(p, m[3..], t);
      case 'R' => RemoveTail(p, m[3..], t);
      case _ =>
    }
  }

  /** In every state: whatever `parse` makes of a buffer without leaving it, it makes of every longer one. */
  lemma ParseTail(p: Parser, m: seq<byte>, t: seq<byte>)
    requires Parse(p, m).Ok?
    ensures Parse(p, m + t) == Parse(p, m)
  {
    match p.state {
      case HEADER => HeaderMessageTail(p, m, t);
      case FLAGS => FlagsTail(p, m, t);
      case DEFINITION => DefinitionTail(p, m, t);
      case DEFINITION_OR_DATA => DataSectionTail(p, m, t);
      case INVALID =>
    }
  }

  lemma CheckTail(p: Parser, m: seq<byte>, t: seq<byte>)
    requires CheckUlogValid(p, m).Ok?
    ensures CheckUlogValid(p, m + t) == CheckUlogValid(p, m)
  {
    ParseTail(p, m, t);
    var once := Parse(p, m).value;
    if once.state != INVALID {
      HeaderTail(m, t, 0);
      var h := HeaderAt(m, 0).value;
      if h.type_ == 'A' {
        SlicesStay(m, t, 0, 3 + h.size);
        ParseTail(once, m[3 + h.size..], t);
      }
    }
  }

  lemma FeedTail(p: Parser, m: seq<byte>, t: seq<byte>, checked: bool)
    requires Events.Feed(p, m, checked).Ok?
    ensures Events.Feed(p, m + t, checked) == Events.Feed(p, m, checked)
  {
    if checked { CheckTail(p, m, t); } else { ParseTail(p, m, t); }
  }

  // ---- whole runs ----

  /** Each buffer begins with its message. */
  predicate Begins(messages: seq<seq<byte>>, buffers: seq<seq<byte>>) {
    |buffers| == |messages| && forall i :: 0 <= i < |buffers| ==> messages[i] <= buffers[i]
  }

  /** A run that stays within its messages goes the same way over buffers that begin with them. */
  lemma {:induction false} FeedAllTail(p: Parser, messages: seq<seq<byte>>, buffers: seq<seq<byte>>, checked: bool)
    requires Begins(messages, buffers) && Events.FeedAll(p, messages, checked).Ok?
    ensures Events.FeedAll(p, buffers, checked) == Events.FeedAll(p, messages, checked)
  {
    if buffers != [] {
      var k := |buffers| - 1;
      FeedAllTail(p, messages[..k], buffers[..k], checked);
      assert buffers[k] == messages[k] + buffers[k][|messages[k]|..];
      FeedTail(Events.FeedAll(p, messages[..k], checked).value, messages[k], buffers[k][|messages[k]|..], checked);
    }
  }
}
