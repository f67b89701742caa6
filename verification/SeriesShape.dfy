/** The series a parser run stores: parsing data again changes nothing, and a series keeps the columns of its
    type unless two type names collide. */
module SeriesShape {
  import opened Bytes
  import opened Outcomes
  import FormatText
  import opened Layout
  import LayoutTheorems
  import opened Parser
  import ParserInvariants

  // ---- parsing a data message is idempotent ----

  lemma OverwriteTwice(data: seq<Column>, values: seq<Value>)
    requires |values| <= |data|
    ensures var once := LayoutTheorems.Overwrite(data, 0, values);
            LayoutTheorems.Overwrite(once, 0, values) == once
  {
  }

  /** Filling filled columns from the same message changes nothing. */
  lemma FillTwice(fm: Formats, fields: seq<FormatText.Field>, message: seq<byte>, data: seq<Column>)
    requires FillFields(fm, fm.Keys, fields, message, Walk(data, 10, 0)).Ok?
    ensures var w := FillFields(fm, fm.Keys, fields, message, Walk(data, 10, 0));
      FillFields(fm, fm.Keys, fields, message, Walk(w.value.data, 10, 0)) == w
  {
    ParserInvariants.FillWrites(fm, fields, message, data);
    var slots := Flatten(fm, fm.Keys, fields).value;
    var values := LayoutTheorems.SlotValues(slots, message, 10).value;
    var filled := LayoutTheorems.Overwrite(data, 0, values);
    OverwriteTwice(data, values);
    FillFollows(fm, fm.Keys, fields, message, Walk(data, 10, 0));
    FillFollows(fm, fm.Keys, fields, message, Walk(filled, 10, 0));
    LayoutTheorems.FillSlotsEffect(slots, message, Walk(data, 10, 0));
    LayoutTheorems.FillSlotsEffect(slots, message, Walk(filled, 10, 0));
  }

  /** The handler is called once more with the same sample; nothing else changes. */
  function CalledTwice(p: Parser, q: Parser): Parser
    requires |p.delivered| <= |q.delivered|
  {
    q.(delivered := q.delivered + q.delivered[|p.delivered|..])
  }

  lemma SampleTwice(p: Parser, name: string, format: FormatText.Format, message: seq<byte>)
    requires FillSeries(p, name, format, message).Ok?
    ensures var q := FillSeries(p, name, format, message).value;
      |p.delivered| <= |q.delivered| && FillSeries(q, name, format, message) == Ok(CalledTwice(p, q))
  {
    var columns := SeriesColumns(p, name, format).value;
    FillTwice(p.formats, format.fields, message, columns);
    var q := FillSeries(p, name, format, message).value;
    assert q.delivered[|p.delivered|..] == [q.delivered[|p.delivered|]];
    assert q.timeseries[name := q.timeseries[name]] == q.timeseries;
  }

  lemma DataTwice(p: Parser, message: seq<byte>)
    requires ParseDataMessage(p, message).Ok?
    ensures var q := ParseDataMessage(p, message).value;
      |p.delivered| <= |q.delivered| && ParseDataMessage(q, message) == Ok(CalledTwice(p, q))
  {
    var msgId := NumberAt(message, 0, 2).value;
    var q := ParseDataMessage(p, message).value;
    if msgId in p.subscriptions {
      var sub := p.subscriptions[msgId];
      SampleTwice(p, SeriesName(p, sub), sub.format.value, message);
    } else {
      assert q.delivered + q.delivered[|p.delivered|..] == q.delivered;
    }
  }

  predicate DataPacketShape(buffer: seq<byte>) {
    HeaderAt(buffer, 0).Ok? && HeaderAt(buffer, 0).value.type_ == 'A' &&
    var size := HeaderAt(buffer, 0).value.size;
    HeaderAt(buffer, 3 + size).Ok? && HeaderAt(buffer, 3 + size).value.type_ == 'D'
  }

  lemma PacketIsDataMessage(p: Parser, buffer: seq<byte>)
    requires p.state == DEFINITION || p.state == DEFINITION_OR_DATA
    requires DataPacketShape(buffer) && Parse(p, buffer).Ok?
    ensures var size := HeaderAt(buffer, 0).value.size;
      ParseAdd(p, buffer[3..], size).Ok? &&
      Parse(p, buffer) == ParseDataMessage(ParseAdd(p, buffer[3..], size).value, buffer[size + 6..])
  {
    var size := HeaderAt(buffer, 0).value.size;
    assert Parse(p, buffer) == ParseAddThenData(p, buffer, size);
  }

  lemma DataBufferIsDataMessage(q: Parser, buffer: seq<byte>, pos: nat)
    requires q.state == DEFINITION_OR_DATA && HeaderAt(buffer, pos).Ok? && HeaderAt(buffer, pos).value.type_ == 'D'
    ensures Parse(q, buffer[pos..]) == ParseDataMessage(q, buffer[pos + 3..])
  {
    var b := buffer[pos..];
    assert b[3..] == buffer[pos + 3..];
    assert b[0..2] == buffer[pos..pos + 2];
    assert HeaderAt(b, 0) == HeaderAt(buffer, pos);
  }

  /** `check_ulog_valid` on a data packet parses its data twice and leaves the parser in the state one `parse`
      leaves it in; only the data handler is called twice. */
  lemma CheckValidParsesOnce(p: Parser, buffer: seq<byte>)
    requires p.state == DEFINITION || p.state == DEFINITION_OR_DATA
    requires DataPacketShape(buffer) && Parse(p, buffer).Ok?
    ensures var q := Parse(p, buffer).value;
      |p.delivered| <= |q.delivered| && CheckUlogValid(p, buffer) == Ok(CalledTwice(p, q))
  {
    PacketIsDataMessage(p, buffer);
    var size := HeaderAt(buffer, 0).value.size;
    var added := ParseAdd(p, buffer[3..], size).value;
    var q := Parse(p, buffer).value;
    DataTwice(added, buffer[size + 6..]);
    DataBufferIsDataMessage(q, buffer, 3 + size);
  }
}
