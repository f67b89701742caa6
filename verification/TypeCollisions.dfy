/** When a stored series can lose the columns of its type: exactly when one type's name is another's name
    with a multi-id suffix. */
module TypeCollisions {
  import opened Bytes
  import opened Outcomes
  import Text
  import FormatText
  import FormatRoundTrip
  import opened Layout
  import LayoutWalks
  import opened LayoutTheorems
  import opened Parser
  import opened ParserInvariants
  import Encoder
  import opened RoundTrips

  function NamesOf(data: seq<Column>): seq<string> {
    seq(|data|, i requires 0 <= i < |data| => data[i].name)
  }

  /** The column names of format `n`. */
  function Shape(fm: Formats, n: string): Result<seq<string>>
    requires n in fm
  {
    ColumnNames(fm, fm.Keys, fm[n].fields, "")
  }

  function Suffixed(n: string, multiId: nat): string {
    n + "." + Text.Dec2(multiId)
  }

  /** `ts` is a name under which data of type `n` is kept. */
  ghost predicate BelongsTo(ts: string, n: string) {
    ts == n || exists k :: 0 <= k < 256 && ts == Suffixed(n, k)
  }

  /** Every series has the columns of the types whose data is kept under its name. */
  ghost predicate Shaped(p: Parser) {
    forall ts, n :: ts in p.timeseries && n in p.formats && BelongsTo(ts, n) ==>
      Shape(p.formats, n) == Ok(NamesOf(p.timeseries[ts].data))
  }

  /** No type is named like an instance of a type with other columns. */
  ghost predicate NoCollision(fm: Formats) {
    forall m, k :: m in fm && 0 <= k < 256 && Suffixed(m, k) in fm ==> Shape(fm, m) == Shape(fm, Suffixed(m, k))
  }

  lemma SuffixInjective(m: string, n: string, j: nat, k: nat)
    requires Suffixed(m, j) == Suffixed(n, k)
    ensures m == n
  {
    var s := Suffixed(m, j);
    LastDot(m, j);
    LastDot(n, k);
    assert m == s[..|m|] && n == s[..|n|];
  }

  lemma LastDot(m: string, j: nat)
    ensures FormatText.FindLast(Suffixed(m, j), '.') == |m|
  {
    var digits := Text.Dec2(j);
    assert forall i :: 0 <= i < |digits| ==> Text.IsDigit(digits[i]);
    FormatRoundTrip.FindLastIs(m, '.', digits);
    assert m + ['.'] + digits == Suffixed(m, j);
  }

  /** Two types whose data can share a series have the same columns. */
  lemma OwnersAlike(fm: Formats, ts: string, m: string, n: string)
    requires NoCollision(fm) && m in fm && n in fm && BelongsTo(ts, m) && BelongsTo(ts, n)
    ensures Shape(fm, m) == Shape(fm, n)
  {
    if ts == m && ts != n {
      var k :| 0 <= k < 256 && ts == Suffixed(n, k);
    } else if ts == n && ts != m {
      var k :| 0 <= k < 256 && ts == Suffixed(m, k);
    } else if ts != m {
      var j :| 0 <= j < 256 && ts == Suffixed(m, j);
      var k :| 0 <= k < 256 && ts == Suffixed(n, k);
      SuffixInjective(m, n, j, k);
    }
  }

  // ---- without collisions every series keeps its columns ----

  lemma FilledNames(p: Parser, name: string, format: FormatText.Format, message: seq<byte>)
    requires FillSeries(p, name, format, message).Ok?
    ensures NamesOf(FillSeries(p, name, format, message).value.timeseries[name].data) ==
            NamesOf(SeriesColumns(p, name, format).value)
  {
    FillWrites(p.formats, format.fields, message, SeriesColumns(p, name, format).value);
  }

  lemma DataMessageShaped(p: Parser, message: seq<byte>)
    requires FormatsAgree(p) && Shaped(p) && NoCollision(p.formats) && ParseDataMessage(p, message).Ok?
    ensures Shaped(ParseDataMessage(p, message).value)
  {
    var msgId := NumberAt(message, 0, 2).value;
    if msgId in p.subscriptions {
      var sub := p.subscriptions[msgId];
      var ts := SeriesName(p, sub);
      var q := ParseDataMessage(p, message).value;
      assert Agrees(p.formats, sub);
      assert BelongsTo(ts, sub.name) by {
        if sub.name in p.withMultiId { assert ts == Suffixed(sub.name, sub.multiId); }
      }
      FilledNames(p, ts, sub.format.value, message);
      forall n | n in p.formats && BelongsTo(ts, n) ensures Shape(p.formats, n) == Ok(NamesOf(q.timeseries[ts].data)) {
        if ts !in p.timeseries {
          OwnersAlike(p.formats, ts, sub.name, n);
          NamesOfEmpty(Shape(p.formats, sub.name));
        }
      }
    }
  }

  lemma NamesOfEmpty(names: Result<seq<string>>)
    requires names.Ok?
    ensures NamesOf(LayoutWalks.EmptyColumns(names).value) == names.value
  {
  }

  lemma AddShaped(p: Parser, buffer: seq<byte>, size: nat)
    requires Coherent(p) && Shaped(p) && NoCollision(p.formats)
    requires |buffer| >= 3 && ParseAddThenData(p, buffer, size).Ok?
    ensures Shaped(ParseAddThenData(p, buffer, size).value)
  {
    var added := ParseAdd(p, buffer[3..], size).value;
    ByteIsSmall(buffer[3..]);
    assert Shaped(added) && FormatsAgree(added);
    if HeaderAt(buffer, 3 + size).value.type_ == 'D' { DataMessageShaped(added, buffer[size + 6..]); }
  }

  predicate SameSeries(p: Parser, q: Parser) {
    q.formats == p.formats && q.timeseries == p.timeseries
  }

  lemma InfoSame(p: Parser, message: seq<byte>, size: nat)
    requires ParseInfo(p, message, size).Ok?
    ensures SameSeries(p, ParseInfo(p, message, size).value)
  {
  }

  lemma ParamSame(p: Parser, message: seq<byte>)
    requires ParseParam(p, message).Ok?
    ensures SameSeries(p, ParseParam(p, message).value)
  {
  }

  lemma LoggedSame(p: Parser, message: seq<byte>, size: nat)
    requires ParseLogged(p, message, size).Ok?
    ensures SameSeries(p, ParseLogged(p, message, size).value)
  {
  }

  lemma DataShaped(p: Parser, buffer: seq<byte>)
    requires Coherent(p) && Shaped(p) && p.state == DEFINITION_OR_DATA && NoCollision(p.formats)
    requires ParseData(p, buffer).Ok?
    ensures Shaped(ParseData(p, buffer).value)
  {
    var h := HeaderAt(buffer, 0).value;
    match h.type_ {
      case 'A' => AddShaped(p, buffer, h.size);
      case 'D' => DataMessageShaped(p, buffer[3..]);
      case 'I' => InfoSame(p, buffer[3..], h.size);
      case 'P' => ParamSame(p, buffer[3..]);
      case 'L' => LoggedSame(p, buffer[3..], h.size);
      case _ =>
    }
  }

  lemma FormatMessageSame(p: Parser, message: seq<byte>, size: nat)
    requires ParseFormatMessage(p, message, size).Ok?
    ensures ParseFormatMessage(p, message, size).value.timeseries == p.timeseries
  {
  }

  lemma AddKeepsFormats(p: Parser, buffer: seq<byte>, size: nat)
    requires |buffer| >= 3 && ParseAddThenData(p, buffer, size).Ok?
    ensures ParseAddThenData(p, buffer, size).value.formats == p.formats
  {
    AddFrozen(p, buffer, size);
  }

  lemma DefinitionShaped(p: Parser, buffer: seq<byte>)
    requires Coherent(p) && p.state == DEFINITION && ParseDefinition(p, buffer).Ok?
    requires NoCollision(ParseDefinition(p, buffer).value.formats)
    ensures Shaped(ParseDefinition(p, buffer).value)
  {
    var h := HeaderAt(buffer, 0).value;
    match h.type_ {
      case 'A' =>
        AddKeepsFormats(p, buffer, h.size);
        AddShaped(p, buffer, h.size);
      case 'I' => InfoSame(p, buffer[3..], h.size);
      case 'P' => ParamSame(p, buffer[3..]);
      case 'F' => FormatMessageSame(p, buffer[3..], h.size);
      case _ =>
    }
  }

  lemma ParseShaped(p: Parser, buffer: seq<byte>)
    requires Coherent(p) && Parse(p, buffer).Ok? && NoCollision(Parse(p, buffer).value.formats)
    requires NoCollision(p.formats) ==> Shaped(p)
    ensures Shaped(Parse(p, buffer).value)
  {
    match p.state {
      case DEFINITION => DefinitionShaped(p, buffer);
      case DEFINITION_OR_DATA =>
        FormatsFrozen(p, buffer);
        DataShaped(p, buffer);
      case HEADER => case FLAGS => case INVALID =>
    }
  }

  /** In every run whose formats do not collide each stored series has the columns of its type. */
  lemma {:induction false} RunsShaped(p: Parser, buffers: seq<seq<byte>>)
    requires Coherent(p) && Shaped(p) && ParseAll(p, buffers).Ok?
    ensures Coherent(ParseAll(p, buffers).value)
    ensures NoCollision(ParseAll(p, buffers).value.formats) ==> Shaped(ParseAll(p, buffers).value)
  {
    if buffers != [] {
      RunsShaped(p, buffers[..|buffers| - 1]);
      var q := ParseAll(p, buffers[..|buffers| - 1]).value;
      ParseCoherent(q, buffers[|buffers| - 1]);
      if NoCollision(ParseAll(p, buffers).value.formats) { ParseShaped(q, buffers[|buffers| - 1]); }
    }
  }

  // ---- with a collision some run breaks the columns ----

  /** A parser with its formats read and nothing stored yet. */
  predicate BeforeData(p: Parser) {
    PastFlags(p) && p.subscriptions == map[] && p.timeseries == map[] && p.withMultiId == {}
  }

  /** A zero sample of type `m`, long enough for its layout. */
  function ZeroData(fm: Formats, m: string): seq<byte>
    requires m in fm && Flatten(fm, fm.Keys, fm[m].fields).Ok?
  {
    var size := Size(Flatten(fm, fm.Keys, fm[m].fields).value);
    Zeros(8 + if size > 0 then size else 0)
  }

  /** A long enough sample opens a series with the columns of its type. */
  lemma SeriesOpens(p: Parser, rank: map<string, nat>, m: string, ts: string, message: seq<byte>)
    requires Ranked(p.formats, rank) && m in p.formats && ts !in p.timeseries
    requires Flatten(p.formats, p.formats.Keys, p.formats[m].fields).Ok? ==>
               |message| >= 10 + Size(Flatten(p.formats, p.formats.Keys, p.formats[m].fields).value)
    requires |message| >= 10
    ensures var r := FillSeries(p, ts, p.formats[m], message);
      r.Ok? && r.value.formats == p.formats && ts in r.value.timeseries &&
      Shape(p.formats, m) == Ok(NamesOf(r.value.timeseries[ts].data))
  {
    var fm, format := p.formats, p.formats[m];
    var names := ColumnNames(fm, fm.Keys, format.fields, "");
    NamesDefined(fm, rank, fm.Keys, format.fields, "", rank[m]);
    var columns := LayoutWalks.EmptyColumns(names).value;
    WalksAgree(fm, rank, m, message, 10, columns);
    FillNew(fm, format, message, columns);
    FilledNames(p, ts, format, message);
    NamesOfEmpty(names);
  }

  lemma SampleHasId(msgId: nat, timestamp: nat, data: seq<byte>)
    requires msgId < 0x1_0000 && |data| >= 8
    ensures NumberAt(Sample(msgId, timestamp, data), 0, 2) == Ok(msgId)
  {
    Pow256Values();
    NumberReads([], msgId, 2, Le(timestamp, 8) + data[8..]);
    assert [] + Le(msgId, 2) + (Le(timestamp, 8) + data[8..]) == Sample(msgId, timestamp, data);
  }

  /** The sample of a subscription to `m` opens the series `ts`, which belongs to another type. */
  lemma WrongSeries(p: Parser, rank: map<string, nat>, m: string, ts: string)
    requires Ranked(p.formats, rank) && m in p.formats && ts in p.formats && ts !in p.timeseries
    requires 0 in p.subscriptions && p.subscriptions[0].format == Some(p.formats[m])
    requires SeriesName(p, p.subscriptions[0]) == ts
    requires Shape(p.formats, m) != Shape(p.formats, ts)
    ensures Flatten(p.formats, p.formats.Keys, p.formats[m].fields).Ok?
    ensures var r := ParseDataMessage(p, Sample(0, 0, ZeroData(p.formats, m))); r.Ok? && !Shaped(r.value)
  {
    NamesDefined(p.formats, rank, p.formats.Keys, p.formats[m].fields, "", rank[m]);
    var data := ZeroData(p.formats, m);
    SampleHasId(0, 0, data);
    SeriesOpens(p, rank, m, ts, Sample(0, 0, data));
    assert BelongsTo(ts, ts);
  }

  /** One packet with a positive multi id stores data of `m` under the name of another type. */
  lemma PositiveIdBreaks(p: Parser, rank: map<string, nat>, m: string, k: byte)
    requires BeforeData(p) && Ranked(p.formats, rank) && m in p.formats && k > 0 && Suffixed(m, k) in p.formats
    requires Shape(p.formats, m) != Shape(p.formats, Suffixed(m, k)) && IsByteText(m) && |m| <= 255
    ensures exists buffers :: ParseAll(p, buffers).Ok? && !Shaped(ParseAll(p, buffers).value)
  {
    var q := Added(p, k, 0, m);
    WrongSeries(q, rank, m, Suffixed(m, k));
    var data := ZeroData(p.formats, m);
    var packet := Encoder.AddMessage(k, 0, m) + Encoder.DataMessage(0, 0, data);
    PacketParses(p, k, 0, m, 0, 0, data);
    RunOne(p, packet);
    assert !Shaped(ParseAll(p, [packet]).value);
  }

  /** A packet of the first instance whose data names no subscription: it only subscribes. */
  lemma OnlySubscribes(p: Parser, m: string, packet: seq<byte>)
    requires BeforeData(p) && IsByteText(m) && |m| <= 255
    requires packet == Encoder.AddMessage(0, 0, m) + Encoder.DataMessage(1, 0, Zeros(8))
    ensures Parse(p, packet) == Ok(Added(p, 0, 0, m))
  {
    PacketParses(p, 0, 0, m, 1, 0, Zeros(8));
    SampleHasId(1, 0, Zeros(8));
  }

  /** A second instance makes the first one's data go under the suffixed name. */
  lemma ZeroIdBreaks(p: Parser, rank: map<string, nat>, m: string)
    requires BeforeData(p) && Ranked(p.formats, rank) && m in p.formats && Suffixed(m, 0) in p.formats
    requires Shape(p.formats, m) != Shape(p.formats, Suffixed(m, 0)) && IsByteText(m) && |m| <= 255
    ensures exists buffers :: ParseAll(p, buffers).Ok? && !Shaped(ParseAll(p, buffers).value)
  {
    var first := Encoder.AddMessage(0, 0, m) + Encoder.DataMessage(1, 0, Zeros(8));
    OnlySubscribes(p, m, first);
    var q := Added(p, 0, 0, m);
    WrongSeries(Added(q, 1, 1, m), rank, m, Suffixed(m, 0));
    var data := ZeroData(p.formats, m);
    var second := Encoder.AddMessage(1, 1, m) + Encoder.DataMessage(0, 0, data);
    PacketParses(q, 1, 1, m, 0, 0, data);
    RunTwo(p, first, second);
    assert !Shaped(ParseAll(p, [first, second]).value);
  }

  lemma CollisionBreaks(p: Parser, rank: map<string, nat>, m: string, k: nat)
    requires BeforeData(p) && Ranked(p.formats, rank) && m in p.formats && k < 256 && Suffixed(m, k) in p.formats
    requires Shape(p.formats, m) != Shape(p.formats, Suffixed(m, k)) && IsByteText(m) && |m| <= 255
    ensures exists buffers :: ParseAll(p, buffers).Ok? && !Shaped(ParseAll(p, buffers).value)
  {
    if k > 0 { PositiveIdBreaks(p, rank, m, k); } else { ZeroIdBreaks(p, rank, m); }
  }

  lemma RunOne(p: Parser, a: seq<byte>)
    ensures ParseAll(p, [a]) == Parse(p, a)
  {
    assert [a][..0] == [];
  }

  lemma RunTwo(p: Parser, a: seq<byte>, b: seq<byte>)
    requires Parse(p, a).Ok?
    ensures ParseAll(p, [a, b]) == Parse(Parse(p, a).value, b)
  {
    assert [a, b][..1] == [a];
    RunOne(p, a);
  }

  /** Every run keeps every stored series in the columns of its type. */
  ghost predicate AllRunsShaped(p: Parser) {
    forall buffers :: ParseAll(p, buffers).Ok? ==> Shaped(ParseAll(p, buffers).value)
  }

  /** From a parser in the data section with nothing stored: all runs keep the columns if and only if no type is
      named like an instance of a type with other columns. */
  lemma ShapeKeptIff(p: Parser, rank: map<string, nat>)
    requires BeforeData(p) && p.state == DEFINITION_OR_DATA && Ranked(p.formats, rank)
    requires forall n :: n in p.formats ==> IsByteText(n) && |n| <= 255
    ensures AllRunsShaped(p) <==> NoCollision(p.formats)
  {
    if NoCollision(p.formats) {
      forall buffers | ParseAll(p, buffers).Ok? ensures Shaped(ParseAll(p, buffers).value) {
        RunsShaped(p, buffers);
        RunFormatsFrozen(p, buffers);
      }
    } else {
      var m, k :| m in p.formats && 0 <= k < 256 && Suffixed(m, k) in p.formats &&
        Shape(p.formats, m) != Shape(p.formats, Suffixed(m, k));
      CollisionBreaks(p, rank, m, k);
    }
  }

  lemma {:induction false} RunFormatsFrozen(p: Parser, buffers: seq<seq<byte>>)
    requires (p.state == DEFINITION_OR_DATA || p.state == INVALID) && ParseAll(p, buffers).Ok?
    ensures var q := ParseAll(p, buffers).value;
      q.formats == p.formats && (q.state == DEFINITION_OR_DATA || q.state == INVALID)
  {
    if buffers != [] {
      RunFormatsFrozen(p, buffers[..|buffers| - 1]);
      var q := ParseAll(p, buffers[..|buffers| - 1]).value;
      if q.state == DEFINITION_OR_DATA { FormatsFrozen(q, buffers[|buffers| - 1]); }
    }
  }
}
